/**
  The attach and resume protocol as a state machine: a daemon with its panes, one client,
  and between them an ordered control channel and one ordered stream per pane, with no
  order between channels. Connections come and go, output outruns the ring, the daemon is
  upgraded in place or replaced. A snapshot frame stands for the place in the pane's output
  at which it was taken.
*/
module Replication {
  import opened Bytes
  import opened Wrappers
  import opened RemoteViews

  const RING_MAX: nat := 0x4_0000

  // ---------- the daemon ----------

  /** The newest bytes of a pane's output, and how many bytes it has put out in all. */
  datatype PaneRef = PaneRef(sid: nat, wid: nat, ring: seq<byte>, ringEnd: nat)

  function Recorded(ref: PaneRef, data: seq<byte>): PaneRef {
    var ring := ref.ring + data;
    ref.(ring := ring[Max(0, |ring| - RING_MAX)..], ringEnd := ref.ringEnd + |data|)
  }

  predicate InRing(ref: PaneRef, at: nat) {
    ref.ringEnd - |ref.ring| <= at <= ref.ringEnd
  }

  /** What a pane's stream starts with for a client that says it is current through `known`:
      the gap when the ring still holds it, else a snapshot of some size and an anchor. */
  function Greeting(ref: PaneRef, known: Option<nat>, size: nat): seq<Frame<nat>> {
    if known.Some? && InRing(ref, known.value) then
      var gap := ref.ring[known.value - (ref.ringEnd - |ref.ring|)..];
      [Resume(known.value)] + (if gap == [] then [] else [Out(gap)])
    else [Snap(ref.ringEnd, size), Resume(ref.ringEnd)]
  }

  datatype Daemon = Daemon(epoch: nat, panes: map<nat, PaneRef>, nextPane: nat, nextWindow: nat)

  // ---------- a connection ----------

  /** `upto` is the next pane number when the layout was sent; it is not on the wire. */
  datatype Control =
    | HelloOk(epoch: nat)
    | WindowAdded(wid: nat)
    | Layout(wid: nat, listed: set<nat>, drawable: set<nat>, upto: nat)
    | PaneExited(pane: nat)
    | WindowClosed(wid: nat)

  datatype Request = Request(sid: nat, resume: map<nat, nat>)

  /** `asked`: the client has sent its one Attach; `attached`: the session the daemon sends to, 0 for none. */
  datatype Link = Link(control: seq<Control>, streams: map<nat, seq<Frame<nat>>>,
                       greeted: bool, asked: bool, request: Option<Request>, attached: nat)

  function Stream(k: Link, p: nat): seq<Frame<nat>> {
    if p in k.streams then k.streams[p] else []
  }

  function Send(k: Link, p: nat, fs: seq<Frame<nat>>): Link {
    k.(streams := k.streams[p := Stream(k, p) + fs])
  }

  // ---------- the world ----------

  /**
    Beyond daemon, client and connection, what really happened: each pane's whole output in each
    life of the daemon; `want`, how far the client's panes should have got in the life it knows;
    `lost`, panes a frame of which found no place; `dropped`, panes the client let go; `misfiled`,
    panes the client knew when the daemon was replaced, whose numbers the new one may reuse.
  */
  datatype World = World(daemon: Daemon, client: View<nat>, link: Option<Link>,
                         logs: map<(nat, nat), seq<byte>>, epochs: set<nat>,
                         want: map<nat, nat>, lost: set<nat>, dropped: set<nat>, misfiled: set<nat>)

  predicate Initial(w: World) {
    && w.daemon.panes == map[] && w.daemon.epoch in w.epochs
    && w.client.epoch in w.epochs && w.client.off == map[] && w.client.panes == map[]
    && w.link.None? && w.logs == map[] && w.want == map[]
    && w.lost == {} && w.dropped == {} && w.misfiled == {}
  }

  /** `sizes` are those of the snapshots taken, which the model does not compute.
      LastLook is the snapshot of a pane that has died but is not swept yet: no anchor follows it. */
  datatype Step =
    | NewPane(sid: nat, wid: nat)
    | Output(pane: nat, data: seq<byte>)
    | PaneDies(pane: nat)
    | SendControl(message: Control)
    | Connect
    | AskAttach(sid: nat)
    | ServeAttach(sizes: map<nat, nat>)
    | LastLook(pane: nat, size: nat)
    | RefuseAttach
    | ReceiveControl
    | ReceiveFrame(pane: nat)
    | CloseStaleWindow(wid: nat)
    | StopSending(control: nat, streams: map<nat, nat>)
    | Disconnect
    | Upgrade(epoch: nat)
    | Replace(epoch: nat)

  /** A control message the daemon may send now. A layout lists every live pane of the window
      and perhaps dead ones not yet swept; exits and closings are told after the fact. */
  predicate Tellable(d: Daemon, m: Control) {
    match m
    case HelloOk(_) => false
    case WindowAdded(wid) => wid < d.nextWindow
    case Layout(wid, listed, drawable, upto) =>
      && wid < d.nextWindow && drawable <= listed && upto == d.nextPane
      && (forall p | p in listed :: p < d.nextPane && (p in d.panes ==> d.panes[p].wid == wid))
      && (forall p | p in d.panes :: d.panes[p].wid == wid ==> p in listed)
    case PaneExited(p) => p < d.nextPane && p !in d.panes
    case WindowClosed(wid) => wid < d.nextWindow && forall p | p in d.panes :: d.panes[p].wid != wid
  }

  predicate Enabled(w: World, step: Step) {
    match step
    case NewPane(sid, wid) => sid != 0 && (wid == w.daemon.nextWindow || exists p :: p in w.daemon.panes && w.daemon.panes[p].wid == wid)
    case Output(p, _) => p in w.daemon.panes
    case PaneDies(p) => p in w.daemon.panes
    case SendControl(m) => w.link.Some? && w.link.value.attached != 0 && Tellable(w.daemon, m)
    case Connect => w.link.None?
    case AskAttach(sid) => w.link.Some? && w.link.value.greeted && !w.link.value.asked && sid != 0
    case ServeAttach(_) => w.link.Some? && w.link.value.request.Some?
    case LastLook(p, _) =>
      w.link.Some? && w.link.value.attached != 0 && p !in w.daemon.panes && (w.daemon.epoch, p) in w.logs
    case RefuseAttach => w.link.Some? && w.link.value.request.Some?
    case ReceiveControl => w.link.Some? && w.link.value.control != []
    case ReceiveFrame(p) => w.link.Some? && Stream(w.link.value, p) != []
    case CloseStaleWindow(wid) =>
      w.link.Some? && w.link.value.greeted && forall p | p in w.daemon.panes :: w.daemon.panes[p].wid != wid
    case StopSending(_, _) => w.link.Some? && w.link.value.greeted
    case Disconnect => true
    case Upgrade(epoch) => epoch !in w.epochs
    case Replace(epoch) => epoch !in w.epochs
  }

  // ---------- the steps ----------

  function AddPane(w: World, sid: nat, wid: nat): World {
    var p := w.daemon.nextPane;
    w.(daemon := w.daemon.(panes := w.daemon.panes[p := PaneRef(sid, wid, [], 0)], nextPane := p + 1,
                           nextWindow := Max(w.daemon.nextWindow, wid + 1)),
       logs := w.logs[(w.daemon.epoch, p) := []])
  }

  function PutOut(w: World, p: nat, data: seq<byte>): World
    requires p in w.daemon.panes
  {
    var ref := w.daemon.panes[p];
    var key := (w.daemon.epoch, p);
    w.(daemon := w.daemon.(panes := w.daemon.panes[p := Recorded(ref, data)]),
       logs := w.logs[key := LogOf(w, w.daemon.epoch, p) + data],
       link := if w.link.Some? && w.link.value.attached == ref.sid then Some(Send(w.link.value, p, [Out(data)])) else w.link)
  }

  function LogOf(w: World, epoch: nat, p: nat): seq<byte> {
    if (epoch, p) in w.logs then w.logs[(epoch, p)] else []
  }

  function SizeOf(sizes: map<nat, nat>, p: nat): nat {
    if p in sizes then sizes[p] else 0
  }

  /** AttachOk, windows and layouts go out as control messages; every live pane of the session is greeted. */
  function Attach(w: World, sizes: map<nat, nat>): World
    requires w.link.Some? && w.link.value.request.Some?
  {
    var k := w.link.value;
    var r := k.request.value;
    var served := set p | p in w.daemon.panes && w.daemon.panes[p].sid == r.sid;
    w.(link := Some(k.(request := None, attached := r.sid,
      streams := map p | p in k.streams.Keys + served ::
        if p in served then Stream(k, p) + Greeting(w.daemon.panes[p], Lookup(r.resume, p), SizeOf(sizes, p)) else k.streams[p])))
  }

  function HearControl(w: World, m: Control): World {
    match m
    case HelloOk(epoch) =>
      var h := w.(client := OnHello(w.client, epoch), link := GreetedLink(w.link));
      if epoch == w.client.epoch then h else h.(want := map[], lost := {}, dropped := {})
    case WindowAdded(wid) => w.(client := OnWindowAdded(w.client, wid))
    case Layout(wid, listed, drawable, _) =>
      if drawable <= listed then
        w.(client := OnLayout(w.client, wid, listed, drawable),
           dropped := w.dropped + (if wid in w.client.windows then LetGo(w.client, wid, listed) else {}))
      else w
    case PaneExited(p) => w.(client := OnPaneExited(w.client, p), dropped := w.dropped + {p})
    case WindowClosed(wid) => CloseWindow(w, wid)
  }

  function GreetedLink(k: Option<Link>): Option<Link> {
    if k.Some? then Some(k.value.(greeted := true)) else None
  }

  function CloseWindow(w: World, wid: nat): World {
    w.(client := DropWindow(w.client, wid),
       dropped := w.dropped + (if wid in w.client.windows then LetGo(w.client, wid, {}) else {}))
  }

  /** How far a pane that should be at `want` should be after a frame. */
  function Advance(want: Option<nat>, f: Frame<nat>): Option<nat> {
    match f
    case Out(data) => if want.Some? then Some(want.value + |data|) else None
    case Resume(_) => want
    case Snap(at, _) => Some(at)
  }

  function HearFrame(w: World, p: nat, f: Frame<nat>): World {
    var want := Advance(Lookup(w.want, p), f);
    w.(client := OnFrame(w.client, p, f),
       want := if want.Some? then w.want[p := want.value] else w.want,
       lost := if !Keeps(w.client, p, f) then w.lost + {p} else if f.Snap? then w.lost - {p} else w.lost,
       dropped := if f.Snap? && Keeps(w.client, p, f) then w.dropped - {p} else w.dropped)
  }

  function Cut(k: Link, control: nat, streams: map<nat, nat>): Link {
    k.(attached := 0, request := None, control := k.control[..Min(control, |k.control|)],
       streams := map p | p in k.streams ::
         k.streams[p][..Min(if p in streams then streams[p] else 0, |k.streams[p]|)])
  }

  function Next(w: World, step: Step): World
    requires Enabled(w, step)
  {
    match step
    case NewPane(sid, wid) => AddPane(w, sid, wid)
    case Output(p, data) => PutOut(w, p, data)
    case PaneDies(p) => w.(daemon := w.daemon.(panes := w.daemon.panes - {p}))
    case SendControl(m) => w.(link := Some(w.link.value.(control := w.link.value.control + [m])))
    case Connect => w.(link := Some(Link([HelloOk(w.daemon.epoch)], map[], false, false, None, 0)))
    case AskAttach(sid) => w.(link := Some(w.link.value.(asked := true, request := Some(Request(sid, w.client.off)))))
    case ServeAttach(sizes) => Attach(w, sizes)
    case LastLook(p, size) => w.(link := Some(Send(w.link.value, p, [Snap(|w.logs[(w.daemon.epoch, p)]|, size)])))
    case RefuseAttach => w.(link := Some(w.link.value.(request := None)))
    case ReceiveControl =>
      var k := w.link.value;
      HearControl(w.(link := Some(k.(control := k.control[1..]))), k.control[0])
    case ReceiveFrame(p) =>
      var k := w.link.value;
      HearFrame(w.(link := Some(k.(streams := k.streams[p := Stream(k, p)[1..]]))), p, Stream(k, p)[0])
    case CloseStaleWindow(wid) => CloseWindow(w, wid)
    case StopSending(control, streams) => w.(link := Some(Cut(w.link.value, control, streams)))
    case Disconnect => w.(link := None)
    case Upgrade(epoch) =>
      w.(daemon := w.daemon.(epoch := epoch, panes := map p | p in w.daemon.panes :: w.daemon.panes[p].(ring := [], ringEnd := 0)),
         link := None, epochs := w.epochs + {epoch},
         logs := map key | key in w.logs.Keys + (set p | p in w.daemon.panes :: (epoch, p)) ::
                   if key in w.logs then w.logs[key] else [])
    case Replace(epoch) =>
      w.(daemon := Daemon(epoch, map[], 1, 1), link := None, epochs := w.epochs + {epoch},
         misfiled := w.misfiled + w.client.panes.Keys)
  }

  /** A run: every step enabled when it is taken. */
  predicate Run(w: World, steps: seq<Step>)
    decreases |steps|
  {
    steps == [] || (Enabled(w, steps[0]) && Run(Next(w, steps[0]), steps[1..]))
  }

  function After(w: World, steps: seq<Step>): World
    requires Run(w, steps)
    decreases |steps|
  {
    if steps == [] then w else After(Next(w, steps[0]), steps[1..])
  }
}
