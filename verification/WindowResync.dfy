/**
  How a client learns which windows its session has. Right behind AttachOk the daemon
  announces every window, with no end mark; the client then asks for the session list, and
  since both directions are ordered the reply is the end mark. What was not announced by
  then has been closed while the client was away.
*/
module WindowResync {
  import opened Bytes
  import opened Wrappers

  /** What to do when the daemon has said hello. */
  datatype Target = Create | Newest | Session(sid: nat)

  datatype Client = Client(target: Target, sid: nat, active: bool, reconnecting: bool,
                           resyncing: bool, announced: set<nat>, windows: set<nat>, gone: bool)

  datatype Request = ListSessions | CreateSession | AttachTo(sid: nat)

  datatype Message =
    | HelloOk
    | SessionList(ids: seq<nat>)
    | SessionCreated(sid: nat, ok: bool)
    | AttachOk(sid: nat)
    | WindowAdded(sid: nat, wid: nat)
    | WindowClosed(sid: nat, wid: nat)
    | SessionClosed(sid: nat)
    | NoSuchSession

  // ---------- the client ----------

  function Exit(c: Client): Client {
    c.(active := false, windows := {}, resyncing := false, announced := {}, gone := true)
  }

  /** What a control message does to the client. */
  function Hear(c: Client, m: Message): Client {
    if c.gone then c
    else match m
      case HelloOk => c
      case SessionList(_) =>
        if c.resyncing then c.(resyncing := false, announced := {}, windows := c.windows * c.announced) else c
      case SessionCreated(_, ok) => if ok then c else Exit(c)
      case AttachOk(sid) =>
        c.(sid := sid, active := true, reconnecting := false, announced := {}, resyncing := true)
      case WindowAdded(sid, wid) =>
        if sid != c.sid then c
        else c.(announced := if c.resyncing then c.announced + {wid} else c.announced, windows := c.windows + {wid})
      case WindowClosed(sid, wid) => if sid != c.sid then c else c.(windows := c.windows - {wid})
      case SessionClosed(sid) => if sid == c.sid then Exit(c) else c
      case NoSuchSession => if c.reconnecting then Exit(c) else c
  }

  /** What the client asks in return. */
  function Reply(c: Client, m: Message): seq<Request> {
    if c.gone then []
    else match m
      case HelloOk =>
        (match c.target
         case Newest => [ListSessions]
         case Session(sid) => [AttachTo(sid)]
         case Create => [CreateSession])
      case SessionList(ids) =>
        if c.resyncing || c.active || c.target != Newest then []
        else if ids == [] then [CreateSession]
        else [AttachTo(ids[|ids| - 1])]
      case SessionCreated(sid, ok) => if ok then [AttachTo(sid)] else []
      case AttachOk(_) => [ListSessions]
      case _ => []
  }

  /** The connection is lost: an attached client will come back to its session. */
  function Lose(c: Client): Client {
    if c.gone || c.reconnecting then c
    else if c.active && c.sid != 0 then c.(active := false, target := Session(c.sid), reconnecting := true)
    else Exit(c)
  }

  // ---------- the world ----------

  /** `served`: the daemon has answered this connection's Attach, for session `session`. */
  datatype Link = Link(up: seq<Request>, down: seq<Message>, served: bool, session: nat)

  datatype World = World(sessions: map<nat, set<nat>>, nextSid: nat, nextWid: nat,
                         client: Client, link: Option<Link>)

  predicate Initial(w: World) {
    && w.sessions == map[] && w.nextSid >= 1 && w.link.None?
    && w.client == Client(w.client.target, 0, false, false, false, {}, {}, false)
    && (w.client.target.Session? ==> w.client.target.sid != 0)
  }

  datatype Step =
    | OpenSession
    | OpenWindow(sid: nat)
    | CloseWindow(sid: nat, wid: nat)
    | KillSession(sid: nat)
    | Connect
    | Deliver
    | Serve(order: seq<nat>, spawned: bool)
    | Disconnect
    | GiveUp

  /** Every member of the set, in some order. */
  predicate Lists(order: seq<nat>, s: set<nat>) {
    (forall i | 0 <= i < |order| :: order[i] in s) && (forall x | x in s :: x in order)
  }

  predicate Enabled(w: World, step: Step) {
    match step
    case OpenSession => true
    case OpenWindow(sid) => sid in w.sessions
    case CloseWindow(sid, wid) => sid in w.sessions && wid in w.sessions[sid]
    case KillSession(sid) => sid in w.sessions
    case Connect => w.link.None? && !w.client.gone
    case Deliver => w.link.Some? && w.link.value.down != []
    case Serve(order, _) =>
      w.link.Some? && w.link.value.up != [] &&
      (match w.link.value.up[0]
       case ListSessions => Lists(order, w.sessions.Keys)
       case CreateSession => true
       case AttachTo(sid) => sid in w.sessions ==> Lists(order, w.sessions[sid]))
    case Disconnect => w.link.Some?
    case GiveUp => w.link.None?
  }

  /** The daemon tells a client attached to the session. */
  function Told(w: World, sid: nat, ms: seq<Message>): Option<Link> {
    if w.link.Some? && w.link.value.served && w.link.value.session == sid
    then Some(w.link.value.(down := w.link.value.down + ms)) else w.link
  }

  function Announcements(sid: nat, order: seq<nat>): seq<Message> {
    seq(|order|, i requires 0 <= i < |order| => WindowAdded(sid, order[i]))
  }

  /** The daemon handles the client's oldest request. */
  function Served(w: World, order: seq<nat>, spawned: bool): World
    requires w.link.Some? && w.link.value.up != []
  {
    var k := w.link.value.(up := w.link.value.up[1..]);
    match w.link.value.up[0]
    case ListSessions => w.(link := Some(k.(down := k.down + [SessionList(order)])))
    case CreateSession =>
      if !spawned then w.(link := Some(k.(down := k.down + [SessionCreated(0, false)])))
      else w.(sessions := w.sessions[w.nextSid := {w.nextWid}], nextSid := w.nextSid + 1, nextWid := w.nextWid + 1,
         link := Some(k.(down := k.down + [SessionCreated(w.nextSid, true)])))
    case AttachTo(sid) =>
      if sid in w.sessions
      then w.(link := Some(k.(down := k.down + [AttachOk(sid)] + Announcements(sid, order), served := true, session := sid)))
      else w.(link := Some(k.(down := k.down + [NoSuchSession])))
  }

  function Next(w: World, step: Step): World
    requires Enabled(w, step)
  {
    match step
    case OpenSession =>
      w.(sessions := w.sessions[w.nextSid := {w.nextWid}], nextSid := w.nextSid + 1, nextWid := w.nextWid + 1)
    case OpenWindow(sid) =>
      w.(sessions := w.sessions[sid := w.sessions[sid] + {w.nextWid}], nextWid := w.nextWid + 1,
         link := Told(w, sid, [WindowAdded(sid, w.nextWid)]))
    case CloseWindow(sid, wid) =>
      var left := w.sessions[sid] - {wid};
      if left == {} then w.(sessions := w.sessions - {sid}, link := Told(w, sid, [WindowClosed(sid, wid), SessionClosed(sid)]))
      else w.(sessions := w.sessions[sid := left], link := Told(w, sid, [WindowClosed(sid, wid)]))
    case KillSession(sid) => w.(sessions := w.sessions - {sid}, link := Told(w, sid, [SessionClosed(sid)]))
    case Connect => w.(link := Some(Link([], [HelloOk], false, 0)))
    case Deliver =>
      var k := w.link.value;
      w.(client := Hear(w.client, k.down[0]),
         link := Some(k.(up := k.up + Reply(w.client, k.down[0]), down := k.down[1..])))
    case Serve(order, spawned) => Served(w, order, spawned)
    case Disconnect => w.(client := Lose(w.client), link := None)
    case GiveUp => w.(client := Exit(w.client))
  }

  predicate Run(w: World, steps: seq<Step>)
    decreases |steps|
  {
    steps == [] || (Enabled(w, steps[0]) && Run(Next(w, steps[0]), steps[1..]))
  }

  function After(w: World, steps: seq<Step>): World
    requires Run(w, steps)
    decreases |steps|
  {
    if steps == [] then w else After(Next(w, steps[0]), steps[1..])
  }

  /** The windows of a session, none if there is no such session. */
  function WindowsOf(w: World, sid: nat): set<nat> {
    if sid in w.sessions then w.sessions[sid] else {}
  }

  // ---------- the client as it will be ----------

  function HearAll(c: Client, ms: seq<Message>): Client
    decreases |ms|
  {
    if ms == [] then c else HearAll(Hear(c, ms[0]), ms[1..])
  }

  /** No message makes the client drop a window of D, unless it makes it leave for good. */
  predicate Harmless(c: Client, D: set<nat>, m: Message) {
    (c.windows - Hear(c, m).windows) * D == {}
  }

  predicate AllHarmless(c: Client, D: set<nat>, ms: seq<Message>)
    decreases |ms|
  {
    ms == [] || (Harmless(c, D, ms[0]) && AllHarmless(Hear(c, ms[0]), D, ms[1..]))
  }

  predicate Attached(c: Client, sid: nat) {
    c.sid == sid && c.active && !c.reconnecting
  }

  predicate WindowNews(m: Message, sid: nat) {
    m.SessionList? || (m.WindowAdded? && m.sid == sid) || (m.WindowClosed? && m.sid == sid) || (m.SessionClosed? && m.sid == sid)
  }

  predicate OnlyNews(ms: seq<Message>, sid: nat) {
    forall i | 0 <= i < |ms| :: WindowNews(ms[i], sid)
  }
}
