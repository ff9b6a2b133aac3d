/**
  The daemon's cross-indexed tables: sessions with their windows, windows with their layout
  and panes, the flat pane index with each pane's output ring, panes waiting to be swept,
  and clients. `home` and `owner` remember which session and window a pane was created in
  and which session a window; nothing reads them.
*/
module DaemonTables {
  import opened Bytes
  import opened Wrappers
  import opened RemoteViews
  import opened Replication
  import L = Layouts
  import T = LayoutTheorems

  datatype Window = Window(id: nat, layout: Option<L.Tree>, panes: seq<nat>)

  /** What a client is sent, but for the size of snapshots; Unanchored is that of a pane that has died but is not
      swept yet. */
  datatype Note =
    | AttachedTo(sid: nat)
    | Refused
    | Created(sid: nat, pane: nat)
    | Added(sid: nat, wid: nat)
    | Laid(sid: nat, wid: nat, panes: seq<nat>)
    | Closed(sid: nat, wid: nat)
    | Ended(sid: nat)
    | Exited(pane: nat)
    | OnPane(pane: nat, frame: Frame<nat>)
    | Unanchored(pane: nat)

  datatype Client = Client(attached: nat, dead: bool, sent: seq<Note>)

  datatype Tables = Tables(
    sessions: map<nat, seq<Window>>, panes: map<nat, PaneRef>, deadPanes: seq<nat>, clients: map<nat, Client>,
    nextSid: nat, nextWid: nat, nextPane: nat,
    home: map<nat, (nat, nat)>, owner: map<nat, nat>)

  // ---------- lookups and broadcasts ----------

  /** The place of a window in a session, or the number of windows. */
  function IndexOf(windows: seq<Window>, wid: nat): (i: nat)
    ensures i <= |windows| && (i < |windows| ==> windows[i].id == wid)
    ensures forall j | 0 <= j < i :: windows[j].id != wid
  {
    if windows == [] || windows[0].id == wid then 0 else 1 + IndexOf(windows[1..], wid)
  }

  function PanesOf(windows: seq<Window>): set<nat> {
    set i, k | 0 <= i < |windows| && 0 <= k < |windows[i].panes| :: windows[i].panes[k]
  }

  predicate Hears(c: Client, sid: nat) {
    !c.dead && c.attached == sid
  }

  /** Everyone attached to the session is sent the note. */
  function Told(clients: map<nat, Client>, sid: nat, note: Note): map<nat, Client> {
    map c | c in clients :: if Hears(clients[c], sid) then clients[c].(sent := clients[c].sent + [note]) else clients[c]
  }

  /** The end of a session is told, and nobody stays attached to it. */
  function Released(clients: map<nat, Client>, sid: nat): map<nat, Client> {
    map c | c in clients ::
      if Hears(clients[c], sid) then clients[c].(sent := clients[c].sent + [Ended(sid)], attached := 0) else clients[c]
  }

  // ---------- opening ----------

  /** A window with one fresh pane. */
  function OpenWindow(t: Tables, sid: nat): Tables
    requires sid in t.sessions
  {
    var (w, p) := (t.nextWid, t.nextPane);
    t.(nextWid := w + 1, nextPane := p + 1,
       sessions := t.sessions[sid := t.sessions[sid] + [Window(w, Some(L.Leaf(p)), [p])]],
       panes := t.panes[p := PaneRef(sid, w, [], 0)],
       home := t.home[p := (sid, w)], owner := t.owner[w := sid],
       clients := Told(Told(t.clients, sid, Added(sid, w)), sid, Laid(sid, w, [p])))
  }

  /** The tables with a session that has no windows yet. */
  function SessionMade(t: Tables): Tables {
    t.(nextSid := t.nextSid + 1, sessions := t.sessions[t.nextSid := []])
  }

  /** A session with one window, for a client that asked for it. */
  function CreateSession(t: Tables, c: nat): Tables
    requires c in t.clients
  {
    var s := t.nextSid;
    var u := OpenWindow(SessionMade(t), s);
    u.(clients := Answered(u.clients, c, [Created(s, t.nextPane)]))
  }

  function Answered(clients: map<nat, Client>, c: nat, notes: seq<Note>): map<nat, Client>
    requires c in clients
  {
    if clients[c].dead then clients else clients[c := clients[c].(sent := clients[c].sent + notes)]
  }

  /** A new pane beside an existing one. */
  function SplitPane(t: Tables, sid: nat, wid: nat, target: nat, dir: L.Dir): Tables
    requires sid in t.sessions
  {
    var windows := t.sessions[sid];
    var (i, p) := (IndexOf(windows, wid), t.nextPane);
    if i == |windows| then t
    else
      var w := windows[i];
      match if w.layout.Some? then L.SplitAt(w.layout.value, target, p, dir) else None
      case None => t.(nextPane := p + 1)
      case Some(layout) =>
        var w' := w.(layout := Some(layout), panes := w.panes + [p]);
        t.(nextPane := p + 1,
           sessions := t.sessions[sid := windows[i := w']],
           panes := t.panes[p := PaneRef(sid, wid, [], 0)],
           home := t.home[p := (sid, wid)],
           clients := Told(t.clients, sid, Laid(sid, wid, w'.panes)))
  }

  // ---------- closing ----------

  function EndSession(t: Tables, sid: nat): Tables
    requires sid in t.sessions
  {
    t.(panes := t.panes - PanesOf(t.sessions[sid]), clients := Released(t.clients, sid), sessions := t.sessions - {sid})
  }

  /** The last window takes its session along. */
  function CloseWindow(t: Tables, sid: nat, wid: nat): Tables
    requires sid in t.sessions
  {
    var windows := t.sessions[sid];
    var i := IndexOf(windows, wid);
    if i == |windows| then t
    else
      var u := t.(panes := t.panes - PanesOf([windows[i]]), clients := Told(t.clients, sid, Closed(sid, wid)),
                  sessions := t.sessions[sid := windows[..i] + windows[i + 1..]]);
      if |windows| == 1 then EndSession(u, sid) else u
  }

  /** The window that holds a pane. */
  predicate HeldIn(t: Tables, p: nat, sid: nat, i: nat) {
    sid in t.sessions && i < |t.sessions[sid]| && p in t.sessions[sid][i].panes
  }

  function LayoutWithout(layout: Option<L.Tree>, p: nat): Option<L.Tree> {
    if layout.None? then None
    else if layout.value == L.Leaf(p) then None
    else match L.Without(layout.value, p)
      case Some(u) => Some(u)
      case None => layout
  }

  /** The pane leaves window i of the session; an empty window is closed. */
  function DropPane(t: Tables, p: nat, sid: nat, i: nat): (r: Tables)
    requires HeldIn(t, p, sid, i)
    ensures r.deadPanes == t.deadPanes
  {
    var w := t.sessions[sid][i];
    var w' := w.(layout := LayoutWithout(w.layout, p), panes := T.Removed(w.panes, p));
    var u := t.(clients := Told(t.clients, sid, Exited(p)), sessions := t.sessions[sid := t.sessions[sid][i := w']]);
    if w'.panes == [] then CloseWindow(u, sid, w.id)
    else u.(clients := Told(u.clients, sid, Laid(sid, w.id, w'.panes)))
  }

  /** A pane whose program is gone is taken out of its window, if it is still in one. */
  function RemoveDead(t: Tables, p: nat): (r: Tables)
    ensures r.deadPanes == t.deadPanes
  {
    if p !in t.home then t
    else
      var (sid, wid) := t.home[p];
      if sid !in t.sessions then t
      else
        var i := IndexOf(t.sessions[sid], wid);
        if HeldIn(t, p, sid, i) then DropPane(t, p, sid, i) else t
  }

  function Sweep(t: Tables): Tables
    decreases |t.deadPanes|
  {
    if t.deadPanes == [] then t else Sweep(RemoveDead(t, t.deadPanes[0]).(deadPanes := t.deadPanes[1..]))
  }

  // ---------- clients ----------

  function WindowNotes(sid: nat, windows: seq<Window>): seq<Note> {
    if windows == [] then []
    else
      var w := windows[|windows| - 1];
      WindowNotes(sid, windows[..|windows| - 1]) + [Added(sid, w.id), Laid(sid, w.id, w.panes)]
  }

  function FrameNotes(p: nat, fs: seq<Frame<nat>>): seq<Note> {
    seq(|fs|, i requires 0 <= i < |fs| => OnPane(p, fs[i]))
  }

  function PaneNotes(t: Tables, ps: seq<nat>, resume: map<nat, nat>): seq<Note> {
    if ps == [] then []
    else
      var p := ps[|ps| - 1];
      PaneNotes(t, ps[..|ps| - 1], resume)
        + (if p in t.panes then FrameNotes(p, Greeting(t.panes[p], Lookup(resume, p), 0)) else [Unanchored(p)])
  }

  function AllPanes(windows: seq<Window>): seq<nat> {
    if windows == [] then [] else AllPanes(windows[..|windows| - 1]) + windows[|windows| - 1].panes
  }

  /** The client is told of every window first, and then every pane is brought up to date. */
  function AttachClient(t: Tables, c: nat, sid: nat, resume: map<nat, nat>): Tables
    requires c in t.clients
  {
    if sid !in t.sessions then t.(clients := Answered(t.clients, c, [Refused]))
    else
      var windows := t.sessions[sid];
      var u := t.clients[c := t.clients[c].(attached := sid)];
      t.(clients := Answered(u, c, [AttachedTo(sid)] + WindowNotes(sid, windows) + PaneNotes(t, AllPanes(windows), resume)))
  }

  // ---------- what can happen ----------

  datatype Step =
    | Arrive(client: nat)
    | Ask(client: nat, request: Request)
    | PaneOutput(pane: nat, data: seq<byte>)
    | PaneDeath(pane: nat)
    | SweepPanes
    | Leave(client: nat)
    | SweepClients

  /** Requests that touch the tables. `spawned` says whether a shell could be started. */
  datatype Request =
    | NewSession(spawned: bool)
    | Attach(sid: nat, resume: map<nat, nat>)
    | Detach
    | Split(pane: nat, dir: L.Dir, spawned: bool)
    | ClosePane(pane: nat)
    | NewWindow(spawned: bool)
    | CloseTab(wid: nat)
    | KillSession(sid: nat)

  /** A pane may only be named by a client attached to its session. */
  predicate MayName(t: Tables, c: nat, p: nat) {
    c in t.clients && p in t.panes && t.panes[p].sid == t.clients[c].attached
  }

  function Handle(t: Tables, c: nat, r: Request): Tables
    requires c in t.clients
    requires forall p | p in t.panes :: t.panes[p].sid in t.sessions
  {
    var sid := t.clients[c].attached;
    match r
    case NewSession(spawned) =>
      if spawned then CreateSession(t, c)
      else t.(nextSid := t.nextSid + 1, nextPane := t.nextPane + 1, clients := Answered(t.clients, c, [Created(0, 0)]))
    case Attach(s, resume) => AttachClient(t, c, s, resume)
    case Detach => t.(clients := t.clients[c := t.clients[c].(attached := 0)])
    case Split(p, dir, spawned) =>
      if !MayName(t, c, p) then t
      else if !spawned then
        (if IndexOf(t.sessions[sid], t.panes[p].wid) == |t.sessions[sid]| then t else t.(nextPane := t.nextPane + 1))
      else SplitPane(t, sid, t.panes[p].wid, p, dir)
    case ClosePane(p) => if !MayName(t, c, p) then t else RemoveDead(t.(panes := t.panes - {p}), p)
    case NewWindow(spawned) =>
      if sid !in t.sessions then t
      else if !spawned then t.(nextPane := t.nextPane + 1)
      else OpenWindow(t, sid)
    case CloseTab(wid) => if sid !in t.sessions then t else CloseWindow(t, sid, wid)
    case KillSession(s) => if s !in t.sessions then t else EndSession(t, s)
  }

  function Recorded(t: Tables, p: nat, data: seq<byte>): Tables
    requires p in t.panes
  {
    t.(panes := t.panes[p := Replication.Recorded(t.panes[p], data)],
       clients := Told(t.clients, t.panes[p].sid, OnPane(p, Out(data))))
  }

  function Next(t: Tables, step: Step): Tables
    requires forall p | p in t.panes :: t.panes[p].sid in t.sessions
  {
    match step
    case Arrive(c) => if c in t.clients then t else t.(clients := t.clients[c := Client(0, false, [])])
    case Ask(c, r) => if c in t.clients && !t.clients[c].dead then Handle(t, c, r) else t
    case PaneOutput(p, data) => if p in t.panes then Recorded(t, p, data) else t
    case PaneDeath(p) => if p in t.panes then t.(panes := t.panes - {p}, deadPanes := t.deadPanes + [p]) else t
    case SweepPanes => Sweep(t)
    case Leave(c) => if c in t.clients then t.(clients := t.clients[c := t.clients[c].(dead := true)]) else t
    case SweepClients => t.(clients := map c | c in t.clients && !t.clients[c].dead :: t.clients[c])
  }

  // ---------- agreement ----------

  /** One leaf of the layout for each pane of the window, and no others. */
  predicate Shaped(w: Window) {
    && w.panes != [] && w.layout.Some?
    && L.Distinct(w.panes) && L.Distinct(L.Leaves(w.layout.value))
    && (forall p | p in w.panes :: p in L.Leaves(w.layout.value))
    && (forall p | p in L.Leaves(w.layout.value) :: p in w.panes)
  }

  /** What a handler is in the middle of: a session still without windows, a window on its way out, a pane being removed. */
  datatype Pending = Pending(session: Option<nat>, window: Option<nat>, pane: Option<nat>)

  const SETTLED := Pending(None, None, None)

  /** The pane belongs here, and is live, or waiting to be swept, or the one being removed. */
  predicate PaneAt(t: Tables, p: nat, sid: nat, wid: nat, x: Pending) {
    && p < t.nextPane && p in t.home && t.home[p] == (sid, wid)
    && (p in t.panes || p in t.deadPanes || x.pane == Some(p))
  }

  predicate WindowOk(t: Tables, sid: nat, w: Window, x: Pending) {
    && w.id < t.nextWid && w.id in t.owner && t.owner[w.id] == sid
    && (forall k | 0 <= k < |w.panes| :: PaneAt(t, w.panes[k], sid, w.id, x))
    && (x.window == Some(w.id) || Shaped(w))
  }

  predicate DistinctIds(windows: seq<Window>) {
    forall i, j | 0 <= i < j < |windows| :: windows[i].id != windows[j].id
  }

  predicate SessionOk(t: Tables, sid: nat, x: Pending)
    requires sid in t.sessions
  {
    && 0 < sid < t.nextSid && (x.session == Some(sid) || t.sessions[sid] != []) && DistinctIds(t.sessions[sid])
    && forall i | 0 <= i < |t.sessions[sid]| :: WindowOk(t, sid, t.sessions[sid][i], x)
  }

  predicate Has(windows: seq<Window>, wid: nat, p: nat) {
    var i := IndexOf(windows, wid);
    i < |windows| && p in windows[i].panes
  }

  /** An indexed pane names an existing session and window, which has it. */
  predicate RefOk(t: Tables, p: nat)
    requires p in t.panes
  {
    var r := t.panes[p];
    && p < t.nextPane && p in t.home && t.home[p] == (r.sid, r.wid) && p !in t.deadPanes
    && r.sid in t.sessions && Has(t.sessions[r.sid], r.wid, p)
  }

  predicate ClientOk(t: Tables, c: nat)
    requires c in t.clients
  {
    t.clients[c].dead || t.clients[c].attached == 0 || t.clients[c].attached in t.sessions
  }

  predicate NumbersOk(t: Tables) {
    && t.nextSid >= 1 && t.nextPane >= 1
    && (forall w | w in t.owner :: w < t.nextWid) && (forall p | p in t.home :: p < t.nextPane)
    && (forall k | 0 <= k < |t.deadPanes| :: t.deadPanes[k] < t.nextPane)
  }

  predicate SessionsOk(t: Tables, x: Pending) {
    forall sid | sid in t.sessions :: SessionOk(t, sid, x)
  }

  predicate RefsOk(t: Tables) {
    forall p | p in t.panes :: RefOk(t, p)
  }

  predicate ClientsOk(t: Tables) {
    forall c | c in t.clients :: ClientOk(t, c)
  }

  /** All tables agree, but for what is pending. */
  predicate Agree(t: Tables, x: Pending) {
    SessionsOk(t, x) && RefsOk(t) && ClientsOk(t) && NumbersOk(t)
  }
}
