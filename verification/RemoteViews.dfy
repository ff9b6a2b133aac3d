/**
  What a client keeps of the panes of a daemon: an offset into each pane's output, the
  panes it shows with their replicas, and the frames that came before their pane did.
  S is what a snapshot frame carries.
*/
module RemoteViews {
  import opened Bytes
  import opened Wrappers

  const EARLY_FRAMES: nat := 64
  const EARLY_MAX: nat := 0x80_0000

  /** A frame on a pane's channel. */
  datatype Frame<S> = Out(data: seq<byte>) | Resume(at: nat) | Snap(blob: S, size: nat)

  /** How a replica came about: its last snapshot, if any, and the output fed to it since. */
  datatype Replica<S> = Replica(start: Option<S>, chunks: seq<seq<byte>>)

  datatype Shown<S> = Shown(wid: nat, replica: Replica<S>)

  datatype View<S> = View(epoch: nat, off: map<nat, nat>, windows: set<nat>, panes: map<nat, Shown<S>>,
                          early: map<nat, seq<Frame<S>>>)

  function Blank<S>(): Replica<S> {
    Replica(None, [])
  }

  function Play<S>(r: Replica<S>, f: Frame<S>): Replica<S> {
    match f
    case Out(data) => r.(chunks := r.chunks + [data])
    case Resume(_) => r
    case Snap(blob, _) => Replica(Some(blob), [])
  }

  function PlayAll<S>(r: Replica<S>, fs: seq<Frame<S>>): Replica<S> {
    if fs == [] then r else Play(PlayAll(r, fs[..|fs| - 1]), fs[|fs| - 1])
  }

  function Parked<S>(v: View<S>, p: nat): seq<Frame<S>> {
    if p in v.early then v.early[p] else []
  }

  /** The replica of pane p, or what it would be were the pane created now. */
  function Content<S>(v: View<S>, p: nat): Replica<S> {
    if p in v.panes then v.panes[p].replica else PlayAll(Blank(), Parked(v, p))
  }

  function Size<S>(f: Frame<S>): nat {
    match f
    case Out(data) => |data|
    case Resume(_) => 8
    case Snap(_, size) => size
  }

  /** There is a place for the frame: its pane, or room to park it. */
  predicate Keeps<S>(v: View<S>, p: nat, f: Frame<S>) {
    f.Resume? || p in v.panes || (|Parked(v, p)| < EARLY_FRAMES && Size(f) < EARLY_MAX)
  }

  function Anchored<S>(off: map<nat, nat>, p: nat, f: Frame<S>): map<nat, nat> {
    match f
    case Out(data) => if p in off then off[p := off[p] + |data|] else off
    case Resume(at) => off[p := at]
    case Snap(_, _) => off - {p}
  }

  /** A frame on pane p's channel arrives. */
  function OnFrame<S>(v: View<S>, p: nat, f: Frame<S>): View<S> {
    var a := v.(off := Anchored(v.off, p, f));
    if f.Resume? then a
    else if p in v.panes then a.(panes := v.panes[p := v.panes[p].(replica := Play(v.panes[p].replica, f))])
    else a.(early := v.early[p := if Keeps(v, p, f) then Parked(v, p) + [f] else Parked(v, p)])
  }

  /** The daemon says which of its lives this is. */
  function OnHello<S>(v: View<S>, epoch: nat): View<S> {
    if epoch != v.epoch then v.(epoch := epoch, off := map[]) else v
  }

  function OnWindowAdded<S>(v: View<S>, wid: nat): View<S> {
    v.(windows := v.windows + {wid})
  }

  /** The panes that a layout of this window makes the client let go. */
  function LetGo<S>(v: View<S>, wid: nat, listed: set<nat>): set<nat> {
    set p | p in v.panes && v.panes[p].wid == wid && p !in listed
  }

  function NewPanes<S>(v: View<S>, drawable: set<nat>): set<nat> {
    set p | p in drawable && p !in v.panes
  }

  /** A layout names the panes of a window; those with room to be drawn are created, with what was parked for them. */
  function OnLayout<S>(v: View<S>, wid: nat, listed: set<nat>, drawable: set<nat>): View<S>
    requires drawable <= listed
  {
    if wid !in v.windows then v
    else v.(
      panes := (map p | p in v.panes.Keys + NewPanes(v, drawable) ::
                  if p in v.panes then v.panes[p] else Shown(wid, PlayAll(Blank(), Parked(v, p)))) - LetGo(v, wid, listed),
      early := v.early - NewPanes(v, drawable))
  }

  function OnPaneExited<S>(v: View<S>, p: nat): View<S> {
    v.(panes := v.panes - {p})
  }

  /** A window is gone, and its panes with it. */
  function DropWindow<S>(v: View<S>, wid: nat): View<S> {
    if wid !in v.windows then v
    else v.(windows := v.windows - {wid}, panes := v.panes - LetGo(v, wid, {}))
  }

  /** Several windows are gone at once. */
  function DropWindows<S>(v: View<S>, wids: set<nat>): View<S> {
    v.(windows := v.windows - wids, panes := v.panes - (set p | p in v.panes && v.panes[p].wid in wids))
  }

  lemma DropOneMore<S>(v: View<S>, wids: set<nat>, wid: nat)
    requires wid in v.windows && wid !in wids
    ensures DropWindow(DropWindows(v, wids), wid) == DropWindows(v, wids + {wid})
  {
  }

  // ---------- what happens to the content of a pane ----------

  lemma PlayOneMore<S>(r: Replica<S>, fs: seq<Frame<S>>, f: Frame<S>)
    ensures PlayAll(r, fs + [f]) == Play(PlayAll(r, fs), f)
  {
    assert (fs + [f])[..|fs|] == fs;
  }

  /** A kept frame is played on its pane's content, now or later; nothing else changes. */
  lemma FramePlaysOnContent<S>(v: View<S>, p: nat, f: Frame<S>, q: nat)
    ensures Content(OnFrame(v, p, f), q) == if q == p && Keeps(v, p, f) then Play(Content(v, p), f) else Content(v, q)
  {
    PlayOneMore(Blank(), Parked(v, p), f);
  }

  /** Creating a pane changes no content: what was parked is what the pane starts from. */
  lemma LayoutKeepsContent<S>(v: View<S>, wid: nat, listed: set<nat>, drawable: set<nat>, p: nat)
    requires drawable <= listed
    ensures p !in LetGo(v, wid, listed) ==> Content(OnLayout(v, wid, listed, drawable), p) == Content(v, p)
  {
    hide PlayAll;
  }

  /** A frame that finds no place is gone, though the offset has moved past it. */
  lemma DroppedFrameIsSkipped<S>(v: View<S>, p: nat, data: seq<byte>)
    requires p in v.off
    ensures var r := OnFrame(v, p, Out(data));
            r.off[p] == v.off[p] + |data| && (Content(r, p) == Content(v, p) <==> !Keeps(v, p, Out(data)))
  {
    FramePlaysOnContent(v, p, Out(data), p);
  }
}
