/** What every run of the attach and resume protocol keeps. */
module ReplicationTheorems {
  import opened Bytes
  import opened Wrappers
  import opened RemoteViews
  import opened Replication

  // ---------- one pane's stream ----------

  /** The replica was given a snapshot taken at some point of the output, and then exactly what followed up to `end`. */
  predicate Exact(r: Replica<nat>, log: seq<byte>, end: nat) {
    && r.start.Some? && r.start.value <= end <= |log|
    && Flatten(r.chunks) == log[r.start.value..end]
  }

  /** The frame makes sense to a pane that is at `want`. */
  predicate FrameOk(log: seq<byte>, want: Option<nat>, f: Frame<nat>) {
    match f
    case Snap(at, _) => at <= |log|
    case Resume(at) => want == Some(at)
    case Out(data) =>
      want.Some? ==> want.value + |data| <= |log| && data == log[want.value..want.value + |data|]
  }

  predicate StreamOk(log: seq<byte>, want: Option<nat>, fs: seq<Frame<nat>>)
    decreases |fs|
  {
    fs == [] || (FrameOk(log, want, fs[0]) && StreamOk(log, Advance(want, fs[0]), fs[1..]))
  }

  /** Where a pane will be when its stream is drained. */
  function EndOf(want: Option<nat>, fs: seq<Frame<nat>>): Option<nat>
    decreases |fs|
  {
    if fs == [] then want else EndOf(Advance(want, fs[0]), fs[1..])
  }

  lemma {:induction false} StreamAppend(log: seq<byte>, want: Option<nat>, fs: seq<Frame<nat>>, f: Frame<nat>)
    requires StreamOk(log, want, fs) && FrameOk(log, EndOf(want, fs), f)
    ensures StreamOk(log, want, fs + [f]) && EndOf(want, fs + [f]) == Advance(EndOf(want, fs), f)
    decreases |fs|
  {
    hide FrameOk, Advance;
    if fs == [] {
      assert (fs + [f])[1..] == [];
    } else {
      assert (fs + [f])[1..] == fs[1..] + [f];
      StreamAppend(log, Advance(want, fs[0]), fs[1..], f);
    }
  }

  lemma {:induction false} StreamGrows(log: seq<byte>, more: seq<byte>, want: Option<nat>, fs: seq<Frame<nat>>)
    requires StreamOk(log, want, fs)
    ensures StreamOk(log + more, want, fs)
    decreases |fs|
  {
    if fs != [] { StreamGrows(log, more, Advance(want, fs[0]), fs[1..]); }
  }

  lemma {:induction false} StreamPrefix(log: seq<byte>, want: Option<nat>, fs: seq<Frame<nat>>, n: nat)
    requires StreamOk(log, want, fs) && n <= |fs|
    ensures StreamOk(log, want, fs[..n])
    decreases |fs|
  {
    if n > 0 {
      assert fs[..n][1..] == fs[1..][..n - 1];
      StreamPrefix(log, Advance(want, fs[0]), fs[1..], n - 1);
    }
  }

  lemma ExactGrows(r: Replica<nat>, log: seq<byte>, more: seq<byte>, end: nat)
    requires Exact(r, log, end)
    ensures Exact(r, log + more, end)
  {
  }

  lemma PlayKeepsExact(r: Replica<nat>, log: seq<byte>, want: Option<nat>, f: Frame<nat>)
    requires FrameOk(log, want, f) && Advance(want, f).Some?
    requires f.Snap? || Exact(r, log, want.value)
    ensures Exact(Play(r, f), log, Advance(want, f).value)
  {
    if f.Out? {
      FlattenConcat(r.chunks, [f.data]);
      assert Flatten([f.data]) == f.data by { assert [f.data][1..] == []; }
    }
  }

  /** A greeting takes a client that really is at `want` to the end of the output, whatever it claims to know. */
  lemma GreetingOk(ref: PaneRef, log: seq<byte>, want: Option<nat>, known: Option<nat>, size: nat)
    requires RingOk(ref, log) && (known.Some? ==> want == known)
    ensures StreamOk(log, want, Greeting(ref, known, size))
    ensures EndOf(want, Greeting(ref, known, size)) == Some(|log|)
  {
    var g := Greeting(ref, known, size);
    if known.Some? && InRing(ref, known.value) {
      var gap := ref.ring[known.value - (ref.ringEnd - |ref.ring|)..];
      assert gap == log[known.value..];
      if gap == [] {
        assert g == [Resume(known.value)] && g[1..] == [];
      } else {
        assert g == [Resume(known.value), Out(gap)] && g[1..] == [Out(gap)] && g[1..][1..] == [];
        assert EndOf(want, g) == EndOf(want, g[1..]) == EndOf(Some(|log|), []);
      }
    } else {
      assert g[1..] == [Resume(ref.ringEnd)] && g[1..][1..] == [];
      assert EndOf(want, g) == EndOf(Some(ref.ringEnd), g[1..]) == EndOf(Some(ref.ringEnd), []);
    }
  }

  /** The ring is the end of the output, never longer than its limit. */
  predicate RingOk(ref: PaneRef, log: seq<byte>) {
    && ref.ringEnd == |log| && |ref.ring| <= Min(|log|, RING_MAX)
    && ref.ring == log[|log| - |ref.ring|..]
  }

  lemma RecordedOk(ref: PaneRef, log: seq<byte>, data: seq<byte>)
    requires RingOk(ref, log)
    ensures RingOk(Recorded(ref, data), log + data)
    ensures |Recorded(ref, data).ring| == Min(RING_MAX, |ref.ring| + |data|)
  {
    assert ref.ring + data == (log + data)[|log| - |ref.ring|..];
  }

  // ---------- the invariant ----------

  predicate LogsOk(w: World) {
    && w.daemon.epoch in w.epochs && w.client.epoch in w.epochs
    && (forall key | key in w.logs :: key.0 in w.epochs && (key.0 == w.daemon.epoch ==> key.1 < w.daemon.nextPane))
  }

  predicate PaneOk(w: World, p: nat) {
    p in w.daemon.panes ==>
      && p < w.daemon.nextPane && w.daemon.panes[p].wid < w.daemon.nextWindow && w.daemon.panes[p].sid != 0
      && (w.daemon.epoch, p) in w.logs && RingOk(w.daemon.panes[p], w.logs[(w.daemon.epoch, p)])
  }

  predicate DaemonOk(w: World) {
    LogsOk(w) && forall p | p in w.daemon.panes :: PaneOk(w, p)
  }

  predicate HeldOk(w: World, p: nat) {
    && (p in w.client.off ==> p in w.want && w.client.off[p] == w.want[p])
    && (p in w.want ==>
          && (w.client.epoch, p) in w.logs && w.want[p] <= |w.logs[(w.client.epoch, p)]|
          && (p !in w.lost && p !in w.dropped ==>
                Exact(Content(w.client, p), w.logs[(w.client.epoch, p)], w.want[p])))
  }

  ghost predicate ClientOk(w: World) {
    forall p: nat :: HeldOk(w, p)
  }

  /** What is on its way to the client continues what it has; a pane it is attached to will be current. */
  predicate ChannelOk(w: World, p: nat)
    requires w.link.Some?
  {
    var k := w.link.value;
    var log := LogOf(w, w.daemon.epoch, p);
    && (p in k.streams ==> (w.daemon.epoch, p) in w.logs)
    && StreamOk(log, Lookup(w.want, p), Stream(k, p))
    && (p in w.daemon.panes && k.attached == w.daemon.panes[p].sid ==>
          EndOf(Lookup(w.want, p), Stream(k, p)) in {None, Some(|log|)})
  }

  predicate Idle(k: Link) {
    k.streams == map[] && k.attached == 0
  }

  ghost predicate LinkOk(w: World) {
    w.link.Some? ==>
      var k := w.link.value;
      if !k.greeted then
        k == Link([HelloOk(w.daemon.epoch)], map[], false, false, None, 0)
      else
        && w.client.epoch == w.daemon.epoch
        && (!k.asked ==> Idle(k) && k.request.None?)
        && (k.request.Some? ==> Idle(k) && k.request.value.resume == w.client.off && k.request.value.sid != 0)
        && forall p: nat :: ChannelOk(w, p)
  }

  /** A pane the client shows is filed under its own window, unless its number was reused by a new daemon. */
  predicate FiledOk(w: World, p: nat) {
    p in w.client.panes && p !in w.misfiled ==>
      p < w.daemon.nextPane && (p in w.daemon.panes ==> w.daemon.panes[p].wid == w.client.panes[p].wid)
  }

  predicate DroppedOk(w: World, p: nat) {
    p in w.dropped && p !in w.misfiled && w.client.epoch == w.daemon.epoch ==>
      p < w.daemon.nextPane && p !in w.daemon.panes
  }

  predicate MessageOk(w: World, m: Control) {
    match m
    case HelloOk(_) => false
    case WindowAdded(_) => true
    case Layout(wid, listed, drawable, upto) =>
      && drawable <= listed && upto <= w.daemon.nextPane
      && (forall p | p in listed :: p < upto && (p in w.daemon.panes ==> w.daemon.panes[p].wid == wid))
      && (forall p | p in w.daemon.panes :: w.daemon.panes[p].wid == wid && p < upto ==> p in listed)
      && (forall p | p in w.client.panes :: p in w.misfiled || p < upto)
    case PaneExited(p) => p < w.daemon.nextPane && p !in w.daemon.panes
    case WindowClosed(wid) =>
      wid < w.daemon.nextWindow && forall p | p in w.daemon.panes :: w.daemon.panes[p].wid != wid
  }

  predicate Sorted(ms: seq<Control>) {
    forall i, j | 0 <= i < j < |ms| :: ms[i].Layout? && ms[j].Layout? ==> ms[i].upto <= ms[j].upto
  }

  predicate ControlOk(w: World) {
    w.link.Some? && w.link.value.greeted ==>
      Sorted(w.link.value.control) && forall i | 0 <= i < |w.link.value.control| :: MessageOk(w, w.link.value.control[i])
  }

  ghost predicate TablesOk(w: World) {
    (forall p: nat :: FiledOk(w, p)) && (forall p: nat :: DroppedOk(w, p)) && ControlOk(w)
  }

  ghost predicate Inv(w: World) {
    DaemonOk(w) && ClientOk(w) && LinkOk(w) && TablesOk(w)
  }

  // ---------- every step keeps it ----------

  lemma EmptyStreamOk(log: seq<byte>, want: Option<nat>)
    ensures StreamOk(log, want, []) && EndOf(want, []) == want
  {
  }

  /** Nothing is known or on its way about a pane number not yet given out. */
  lemma NewNumberIsUnused(w: World)
    requires Inv(w)
    ensures w.daemon.nextPane !in w.daemon.panes && (w.daemon.epoch, w.daemon.nextPane) !in w.logs
    ensures w.client.epoch == w.daemon.epoch ==> w.daemon.nextPane !in w.want
    ensures w.link.Some? && w.link.value.greeted ==> w.daemon.nextPane !in w.link.value.streams
  {
    hide Content, StreamOk, EndOf, Exact, RingOk, TablesOk;
    assert HeldOk(w, w.daemon.nextPane);
    assert w.daemon.nextPane in w.daemon.panes ==> PaneOk(w, w.daemon.nextPane);
    if w.link.Some? && w.link.value.greeted { assert ChannelOk(w, w.daemon.nextPane); }
  }

  lemma AddPaneDaemon(w: World, sid: nat, wid: nat)
    requires Inv(w) && Enabled(w, NewPane(sid, wid))
    ensures DaemonOk(AddPane(w, sid, wid))
  {
    NewNumberIsUnused(w);
    hide ClientOk, LinkOk, TablesOk;
    var r := AddPane(w, sid, wid);
    var n := w.daemon.nextPane;
    assert RingOk(r.daemon.panes[n], []);
    hide RingOk;
    assert LogsOk(r);
    hide LogsOk;
    forall p | p in r.daemon.panes ensures PaneOk(r, p) { assert p != n ==> PaneOk(w, p); }
  }

  lemma AddPaneLink(w: World, sid: nat, wid: nat)
    requires Inv(w) && sid != 0
    ensures LinkOk(AddPane(w, sid, wid))
  {
    NewNumberIsUnused(w);
    hide DaemonOk, ClientOk, TablesOk, StreamOk, EndOf;
    var r := AddPane(w, sid, wid);
    if w.link.Some? && w.link.value.greeted {
      forall p: nat ensures ChannelOk(r, p) {
        assert ChannelOk(w, p);
        EmptyStreamOk([], None);
      }
    }
  }

  lemma AddPaneKeeps(w: World, sid: nat, wid: nat)
    requires Inv(w) && Enabled(w, NewPane(sid, wid))
    ensures Inv(AddPane(w, sid, wid))
  {
    NewNumberIsUnused(w);
    AddPaneDaemon(w, sid, wid);
    AddPaneLink(w, sid, wid);
    hide Content, Exact, DaemonOk, LinkOk, MessageOk;
    var r := AddPane(w, sid, wid);
    forall p: nat ensures HeldOk(r, p) { assert HeldOk(w, p); }
    forall p: nat ensures FiledOk(r, p) { assert FiledOk(w, p); }
    forall p: nat ensures DroppedOk(r, p) { assert DroppedOk(w, p); }
    if w.link.Some? && w.link.value.greeted {
      forall i | 0 <= i < |w.link.value.control| ensures MessageOk(r, w.link.value.control[i]) {
        NewPaneMessage(w, sid, wid, w.link.value.control[i]);
      }
    }
  }

  lemma NewPaneMessage(w: World, sid: nat, wid: nat, m: Control)
    requires MessageOk(w, m) && Enabled(w, NewPane(sid, wid))
    ensures MessageOk(AddPane(w, sid, wid), m)
  {
  }

  lemma PutOutKeeps(w: World, p: nat, data: seq<byte>)
    requires Inv(w) && p in w.daemon.panes
    ensures Inv(PutOut(w, p, data))
  {
    hide Content, StreamOk, EndOf, Exact, RingOk, Recorded;
    var r := PutOut(w, p, data);
    var log := LogOf(w, w.daemon.epoch, p);
    assert PaneOk(w, p);
    RecordedOk(w.daemon.panes[p], log, data);
    assert Recorded(w.daemon.panes[p], data).wid == w.daemon.panes[p].wid by { RecordedKeeps(w.daemon.panes[p], data); }
    assert Recorded(w.daemon.panes[p], data).sid == w.daemon.panes[p].sid by { RecordedKeeps(w.daemon.panes[p], data); }
    forall q | q in r.daemon.panes ensures PaneOk(r, q) { assert PaneOk(w, q); }
    forall q: nat ensures HeldOk(r, q) {
      assert HeldOk(w, q);
      if q == p && q in w.want && Exact(Content(w.client, q), log, w.want[q]) { ExactGrows(Content(w.client, q), log, data, w.want[q]); }
    }
    if w.link.Some? && w.link.value.greeted {
      forall q: nat ensures ChannelOk(r, q) {
        assert ChannelOk(w, q);
        if q == p { OutputOnChannel(w, p, data); }
      }
    }
    forall q: nat ensures FiledOk(r, q) { assert FiledOk(w, q); }
    forall q: nat ensures DroppedOk(r, q) { assert DroppedOk(w, q); }
    if w.link.Some? && w.link.value.greeted {
      forall i | 0 <= i < |w.link.value.control| ensures MessageOk(r, w.link.value.control[i]) {
        assert MessageOk(w, w.link.value.control[i]);
      }
    }
  }

  lemma RecordedKeeps(ref: PaneRef, data: seq<byte>)
    ensures Recorded(ref, data).sid == ref.sid && Recorded(ref, data).wid == ref.wid
  {
  }

  lemma OutputOnChannel(w: World, p: nat, data: seq<byte>)
    requires p in w.daemon.panes && w.link.Some? && ChannelOk(w, p) && PaneOk(w, p)
    ensures ChannelOk(PutOut(w, p, data), p)
  {
    var r := PutOut(w, p, data);
    var log := LogOf(w, w.daemon.epoch, p);
    var (want, fs) := (Lookup(w.want, p), Stream(w.link.value, p));
    StreamGrows(log, data, want, fs);
    hide StreamOk, EndOf, RingOk, Recorded;
    RecordedKeeps(w.daemon.panes[p], data);
    if w.link.value.attached == w.daemon.panes[p].sid {
      assert FrameOk(log + data, EndOf(want, fs), Out(data));
      StreamAppend(log + data, want, fs, Out(data));
    }
  }

  lemma PaneDiesKeeps(w: World, p: nat)
    requires Inv(w) && p in w.daemon.panes
    ensures Inv(Next(w, PaneDies(p)))
  {
    hide Content, StreamOk, EndOf, Exact, RingOk;
    var r := Next(w, PaneDies(p));
    forall q | q in r.daemon.panes ensures PaneOk(r, q) { assert PaneOk(w, q); }
    forall q: nat ensures HeldOk(r, q) { assert HeldOk(w, q); }
    if w.link.Some? && w.link.value.greeted {
      forall q: nat ensures ChannelOk(r, q) { assert ChannelOk(w, q); }
      forall i | 0 <= i < |w.link.value.control| ensures MessageOk(r, w.link.value.control[i]) {
        assert MessageOk(w, w.link.value.control[i]);
      }
    }
    forall q: nat ensures FiledOk(r, q) { assert FiledOk(w, q); }
    forall q: nat ensures DroppedOk(r, q) { assert DroppedOk(w, q); }
  }

  /** What concerns the client and the daemon stays when only the connection changes. */
  lemma SameEnds(w: World, r: World)
    requires Inv(w) && r == w.(link := r.link)
    ensures DaemonOk(r) && ClientOk(r) && (forall p: nat :: FiledOk(r, p)) && (forall p: nat :: DroppedOk(r, p))
  {
    hide Content, Exact, RingOk;
    forall p | p in r.daemon.panes ensures PaneOk(r, p) { assert PaneOk(w, p); }
    forall p: nat ensures HeldOk(r, p) { assert HeldOk(w, p); }
    forall p: nat ensures FiledOk(r, p) { assert FiledOk(w, p); }
    forall p: nat ensures DroppedOk(r, p) { assert DroppedOk(w, p); }
  }

  lemma SendControlKeeps(w: World, m: Control)
    requires Inv(w) && Enabled(w, SendControl(m))
    ensures Inv(Next(w, SendControl(m)))
  {
    hide Content, StreamOk, EndOf, Exact, RingOk;
    var r := Next(w, SendControl(m));
    SameEnds(w, r);
    var (before, told) := (w.link.value.control, r.link.value.control);
    forall q: nat ensures ChannelOk(r, q) { assert ChannelOk(w, q); }
    forall i | 0 <= i < |told| ensures MessageOk(r, told[i]) {
      if i < |before| {
        assert MessageOk(w, before[i]);
      } else {
        forall p | p in w.client.panes ensures p in w.misfiled || p < w.daemon.nextPane { assert FiledOk(w, p); }
      }
    }
    forall i | 0 <= i < |before| ensures before[i].Layout? ==> before[i].upto <= w.daemon.nextPane { assert MessageOk(w, before[i]); }
  }

  lemma LinkStepKeeps(w: World, step: Step)
    requires Inv(w) && Enabled(w, step)
    requires step.Connect? || step.AskAttach? || step.RefuseAttach? || step.Disconnect?
    ensures Inv(Next(w, step))
  {
    hide Content, StreamOk, EndOf, Exact, RingOk;
    var r := Next(w, step);
    SameEnds(w, r);
    if r.link.Some? && r.link.value.greeted {
      forall q: nat ensures ChannelOk(r, q) { assert ChannelOk(w, q); }
      forall i | 0 <= i < |r.link.value.control| ensures MessageOk(r, r.link.value.control[i]) {
        assert MessageOk(w, w.link.value.control[i]);
      }
    }
  }

  lemma StopSendingKeeps(w: World, control: nat, streams: map<nat, nat>)
    requires Inv(w) && Enabled(w, StopSending(control, streams))
    ensures Inv(Next(w, StopSending(control, streams)))
  {
    hide Content, StreamOk, EndOf, Exact, RingOk;
    var r := Next(w, StopSending(control, streams));
    SameEnds(w, r);
    var (k, j) := (w.link.value, r.link.value);
    if !k.asked || k.request.Some? { assert j.streams == map[]; }
    forall q: nat ensures ChannelOk(r, q) {
      assert ChannelOk(w, q);
      assert q in r.daemon.panes ==> PaneOk(w, q);
      StreamPrefix(LogOf(w, w.daemon.epoch, q), Lookup(w.want, q), Stream(k, q), |Stream(j, q)|);
      assert Stream(j, q) == Stream(k, q)[..|Stream(j, q)|];
    }
    forall i | 0 <= i < |j.control| ensures MessageOk(r, j.control[i]) { assert MessageOk(w, k.control[i]); }
  }

  lemma AttachKeeps(w: World, sizes: map<nat, nat>)
    requires Inv(w) && Enabled(w, ServeAttach(sizes))
    ensures Inv(Attach(w, sizes))
  {
    hide Content, StreamOk, EndOf, Exact, RingOk, Greeting;
    var r := Attach(w, sizes);
    SameEnds(w, r);
    var k := w.link.value;
    forall q: nat ensures ChannelOk(r, q) {
      assert ChannelOk(w, q) && HeldOk(w, q);
      if q in r.link.value.streams {
        assert PaneOk(w, q);
        var known := Lookup(k.request.value.resume, q);
        GreetingOk(w.daemon.panes[q], LogOf(w, w.daemon.epoch, q), Lookup(w.want, q), known, SizeOf(sizes, q));
        assert [] + Greeting(w.daemon.panes[q], known, SizeOf(sizes, q)) == Greeting(w.daemon.panes[q], known, SizeOf(sizes, q));
      }
    }
    forall i | 0 <= i < |k.control| ensures MessageOk(r, k.control[i]) { assert MessageOk(w, k.control[i]); }
  }

  lemma LastLookKeeps(w: World, p: nat, size: nat)
    requires Inv(w) && Enabled(w, LastLook(p, size))
    ensures Inv(Next(w, LastLook(p, size)))
  {
    hide Content, StreamOk, EndOf, Exact, RingOk;
    var r := Next(w, LastLook(p, size));
    SameEnds(w, r);
    var k := w.link.value;
    var log := LogOf(w, w.daemon.epoch, p);
    forall q: nat ensures ChannelOk(r, q) {
      assert ChannelOk(w, q);
      if q == p { StreamAppend(log, Lookup(w.want, p), Stream(k, p), Snap(|log|, size)); }
    }
    forall i | 0 <= i < |k.control| ensures MessageOk(r, k.control[i]) { assert MessageOk(w, k.control[i]); }
  }

  lemma NewLifeKeeps(w: World, step: Step)
    requires Inv(w) && Enabled(w, step) && (step.Upgrade? || step.Replace?)
    ensures Inv(Next(w, step))
  {
    var r := Next(w, step);
    NewLifeDaemon(w, step);
    hide Content, Exact, RingOk, DaemonOk;
    assert LogsOk(w) by { LogsOfDaemon(w); }
    forall p: nat ensures HeldOk(r, p) { assert HeldOk(w, p); }
    forall p: nat ensures FiledOk(r, p) { assert FiledOk(w, p); }
  }

  lemma LogsOfDaemon(w: World)
    requires DaemonOk(w)
    ensures LogsOk(w)
  {
  }

  /** A new life starts with empty rings, and with an empty log for each pane that is carried over. */
  lemma NewLifeDaemon(w: World, step: Step)
    requires Inv(w) && Enabled(w, step) && (step.Upgrade? || step.Replace?)
    ensures DaemonOk(Next(w, step))
  {
    hide Content, Exact, ClientOk, LinkOk, TablesOk;
    var r := Next(w, step);
    forall p | p in r.daemon.panes ensures PaneOk(r, p) { assert PaneOk(w, p); }
  }

  // ---------- what the client hears ----------

  lemma HearFrameOther(w: World, p: nat, f: Frame<nat>, q: nat)
    requires HeldOk(w, q) && q != p
    ensures HeldOk(HearFrame(w, p, f), q)
  {
    hide Exact, Keeps, Advance;
    FramePlaysOnContent(w.client, p, f, q);
    hide Content, Play;
  }

  /** The frame is played where the pane really is; if it finds no place, the pane counts as lost. */
  lemma HearFrameOwn(w: World, p: nat, f: Frame<nat>)
    requires HeldOk(w, p) && FrameOk(LogOf(w, w.client.epoch, p), Lookup(w.want, p), f) && (w.client.epoch, p) in w.logs
    ensures HeldOk(HearFrame(w, p, f), p)
  {
    hide Exact;
    var log := w.logs[(w.client.epoch, p)];
    var (want, before) := (Lookup(w.want, p), Content(w.client, p));
    FramePlaysOnContent(w.client, p, f, p);
    if Advance(want, f).Some? && (f.Snap? || Exact(before, log, w.want[p])) { PlayKeepsExact(before, log, want, f); }
    hide Content, Play, Keeps;
  }

  lemma HearFrameHeld(w: World, p: nat, f: Frame<nat>, q: nat)
    requires HeldOk(w, q) && FrameOk(LogOf(w, w.client.epoch, p), Lookup(w.want, p), f)
    requires q == p ==> (w.client.epoch, p) in w.logs
    ensures HeldOk(HearFrame(w, p, f), q)
  {
    if q == p { HearFrameOwn(w, p, f); } else { HearFrameOther(w, p, f, q); }
  }

  lemma HearFrameChannel(w: World, p: nat, q: nat)
    requires Inv(w) && Enabled(w, ReceiveFrame(p))
    ensures ChannelOk(Next(w, ReceiveFrame(p)), q)
  {
    hide DaemonOk, ClientOk, TablesOk, Content, Keeps, FrameOk, OnFrame;
    assert ChannelOk(w, q);
    var r := Next(w, ReceiveFrame(p));
    assert Lookup(r.want, p) == Advance(Lookup(w.want, p), Stream(w.link.value, p)[0]);
    hide Advance;
  }

  lemma HearFrameKeeps(w: World, p: nat)
    requires Inv(w) && Enabled(w, ReceiveFrame(p))
    ensures Inv(Next(w, ReceiveFrame(p)))
  {
    hide Content, Exact, RingOk, Keeps, FrameOk, Advance;
    var k := w.link.value;
    var f := Stream(k, p)[0];
    var u := w.(link := Some(k.(streams := k.streams[p := Stream(k, p)[1..]])));
    var r := Next(w, ReceiveFrame(p));
    assert r == HearFrame(u, p, f);
    assert ChannelOk(w, p);
    forall q | q in r.daemon.panes ensures PaneOk(r, q) { assert PaneOk(w, q); }
    forall q: nat ensures HeldOk(r, q) {
      assert HeldOk(w, q);
      HearFrameHeld(u, p, f, q);
    }
    forall q: nat ensures ChannelOk(r, q) { HearFrameChannel(w, p, q); }
    hide ChannelOk;
    HearFrameTables(w, p);
  }

  lemma HearFrameTables(w: World, p: nat)
    requires Inv(w) && Enabled(w, ReceiveFrame(p))
    ensures TablesOk(Next(w, ReceiveFrame(p)))
  {
    hide Content, Exact, RingOk, Keeps, FrameOk, Advance, DaemonOk, ClientOk, StreamOk, EndOf, Play, ChannelOk;
    var k := w.link.value;
    var r := Next(w, ReceiveFrame(p));
    forall q: nat ensures FiledOk(r, q) { assert FiledOk(w, q); }
    forall q: nat ensures DroppedOk(r, q) { assert DroppedOk(w, q); }
    forall i | 0 <= i < |k.control| ensures MessageOk(r, k.control[i]) { assert MessageOk(w, k.control[i]); }
  }

  /** A change of what is shown leaves offsets and channels in order, if panes let go are marked as dropped. */
  lemma ShownChanges(w: World, r: World)
    requires Inv(w) && w.link.Some? && w.link.value.greeted && r.link.Some?
    requires r == w.(client := r.client, dropped := r.dropped, link := r.link)
    requires r.link.value == w.link.value.(control := r.link.value.control)
    requires r.client.off == w.client.off && r.client.epoch == w.client.epoch && w.dropped <= r.dropped
    requires forall q: nat :: q in r.dropped || Content(r.client, q) == Content(w.client, q)
    ensures DaemonOk(r) && ClientOk(r) && LinkOk(r)
  {
    hide Content, Exact, RingOk, StreamOk, EndOf;
    forall q | q in r.daemon.panes ensures PaneOk(r, q) { assert PaneOk(w, q); }
    forall q: nat ensures HeldOk(r, q) { assert HeldOk(w, q); }
    forall q: nat ensures ChannelOk(r, q) { assert ChannelOk(w, q); }
  }

  /** The world once the first control message has been taken off the channel. */
  function Heard(w: World): World
    requires w.link.Some? && w.link.value.control != []
  {
    w.(link := Some(w.link.value.(control := w.link.value.control[1..])))
  }

  lemma HeardMessages(w: World)
    requires Inv(w) && Enabled(w, ReceiveControl) && w.link.value.greeted
    ensures Inv(Heard(w)) && MessageOk(Heard(w), w.link.value.control[0])
    ensures w.link.value.control[0].Layout? ==>
              forall i | 0 <= i < |Heard(w).link.value.control| ::
                Heard(w).link.value.control[i].Layout? ==> w.link.value.control[0].upto <= Heard(w).link.value.control[i].upto
  {
    hide Content, Exact, RingOk, StreamOk, EndOf;
    var r := Heard(w);
    SameEnds(w, r);
    forall q: nat ensures ChannelOk(r, q) { assert ChannelOk(w, q); }
    forall i | 0 <= i < |r.link.value.control| ensures MessageOk(r, r.link.value.control[i]) {
      assert MessageOk(w, w.link.value.control[i + 1]);
    }
    assert MessageOk(w, w.link.value.control[0]);
  }

  lemma CloseWindowKeeps(w: World, wid: nat)
    requires Inv(w) && w.link.Some? && w.link.value.greeted
    requires forall p | p in w.daemon.panes :: w.daemon.panes[p].wid != wid
    ensures Inv(CloseWindow(w, wid))
  {
    var r := CloseWindow(w, wid);
    ShownChanges(w, r);
    hide Content, Exact, DaemonOk, ClientOk, LinkOk;
    forall q: nat ensures FiledOk(r, q) { assert FiledOk(w, q); }
    forall q: nat ensures DroppedOk(r, q) { assert DroppedOk(w, q) && FiledOk(w, q); }
    forall i | 0 <= i < |w.link.value.control| ensures MessageOk(r, w.link.value.control[i]) {
      assert MessageOk(w, w.link.value.control[i]);
    }
  }

  lemma ExitedKeeps(w: World, p: nat)
    requires Inv(w) && w.link.Some? && w.link.value.greeted && MessageOk(w, PaneExited(p))
    ensures Inv(HearControl(w, PaneExited(p)))
  {
    var r := HearControl(w, PaneExited(p));
    ShownChanges(w, r);
    hide Content, Exact, DaemonOk, ClientOk, LinkOk;
    forall q: nat ensures FiledOk(r, q) { assert FiledOk(w, q); }
    forall q: nat ensures DroppedOk(r, q) { assert DroppedOk(w, q); }
    forall i | 0 <= i < |w.link.value.control| ensures MessageOk(r, w.link.value.control[i]) {
      assert MessageOk(w, w.link.value.control[i]);
    }
  }

  lemma LayoutKeeps(w: World, m: Control)
    requires Inv(w) && w.link.Some? && w.link.value.greeted && m.Layout? && MessageOk(w, m)
    requires forall i | 0 <= i < |w.link.value.control| ::
               w.link.value.control[i].Layout? ==> m.upto <= w.link.value.control[i].upto
    ensures Inv(HearControl(w, m))
  {
    hide PlayAll;
    var r := HearControl(w, m);
    forall q: nat ensures q in r.dropped || Content(r.client, q) == Content(w.client, q) {
      LayoutKeepsContent(w.client, m.wid, m.listed, m.drawable, q);
    }
    ShownChanges(w, r);
    hide Content, Exact, DaemonOk, ClientOk, LinkOk;
    forall q: nat ensures FiledOk(r, q) { assert FiledOk(w, q); }
    forall q: nat ensures DroppedOk(r, q) { assert DroppedOk(w, q) && FiledOk(w, q); }
    forall i | 0 <= i < |w.link.value.control| ensures MessageOk(r, w.link.value.control[i]) {
      assert MessageOk(w, w.link.value.control[i]);
    }
  }

  lemma HelloKeeps(w: World)
    requires Inv(w) && Enabled(w, ReceiveControl) && !w.link.value.greeted
    ensures Inv(Next(w, ReceiveControl))
  {
    hide Exact, RingOk, StreamOk, EndOf;
    var r := Next(w, ReceiveControl);
    assert r.client == OnHello(w.client, w.daemon.epoch) && r.link.value.control == [];
    forall q | q in r.daemon.panes ensures PaneOk(r, q) { assert PaneOk(w, q); }
    forall q: nat ensures HeldOk(r, q) {
      assert HeldOk(w, q);
      assert Content(r.client, q) == Content(w.client, q);
    }
    hide Content;
    forall q: nat ensures ChannelOk(r, q) {
      EmptyStreamOk(LogOf(r, r.daemon.epoch, q), Lookup(r.want, q));
      assert PaneOk(w, q);
    }
    forall q: nat ensures FiledOk(r, q) { assert FiledOk(w, q); }
    forall q: nat ensures DroppedOk(r, q) { assert DroppedOk(w, q); }
  }

  lemma HearControlKeeps(w: World)
    requires Inv(w) && Enabled(w, ReceiveControl)
    ensures Inv(Next(w, ReceiveControl))
  {
    if !w.link.value.greeted {
      HelloKeeps(w);
    } else {
      HeardMessages(w);
      var (h, m) := (Heard(w), w.link.value.control[0]);
      assert Next(w, ReceiveControl) == HearControl(h, m);
      match m {
        case WindowAdded(wid) => WindowAddedKeeps(h, wid);
        case Layout(_, _, _, _) => LayoutKeeps(h, m);
        case PaneExited(p) => ExitedKeeps(h, p);
        case WindowClosed(wid) => CloseWindowKeeps(h, wid);
        case HelloOk(_) => assert false;
      }
    }
  }

  lemma WindowAddedKeeps(w: World, wid: nat)
    requires Inv(w) && w.link.Some? && w.link.value.greeted
    ensures Inv(HearControl(w, WindowAdded(wid)))
  {
    var r := HearControl(w, WindowAdded(wid));
    ShownChanges(w, r);
    hide Content, Exact, DaemonOk, ClientOk, LinkOk;
    forall q: nat ensures FiledOk(r, q) { assert FiledOk(w, q); }
    forall q: nat ensures DroppedOk(r, q) { assert DroppedOk(w, q); }
    forall i | 0 <= i < |w.link.value.control| ensures MessageOk(r, w.link.value.control[i]) {
      assert MessageOk(w, w.link.value.control[i]);
    }
  }

  // ---------- all runs ----------

  lemma InitialInv(w: World)
    requires Initial(w)
    ensures Inv(w)
  {
  }

  lemma StepKeeps(w: World, step: Step)
    requires Inv(w) && Enabled(w, step)
    ensures Inv(Next(w, step))
  {
    hide Inv;
    match step {
      case NewPane(sid, wid) => AddPaneKeeps(w, sid, wid);
      case Output(p, data) => PutOutKeeps(w, p, data);
      case PaneDies(p) => PaneDiesKeeps(w, p);
      case SendControl(m) => SendControlKeeps(w, m);
      case ServeAttach(sizes) => AttachKeeps(w, sizes);
      case LastLook(p, size) => LastLookKeeps(w, p, size);
      case ReceiveControl => HearControlKeeps(w);
      case ReceiveFrame(p) => HearFrameKeeps(w, p);
      case CloseStaleWindow(wid) => CloseWindowKeeps(w, wid);
      case StopSending(control, streams) => StopSendingKeeps(w, control, streams);
      case Upgrade(_) => NewLifeKeeps(w, step);
      case Replace(_) => NewLifeKeeps(w, step);
      case _ => LinkStepKeeps(w, step);
    }
  }

  lemma {:induction false} RunKeeps(w: World, steps: seq<Step>)
    requires Inv(w) && Run(w, steps)
    ensures Inv(After(w, steps))
    decreases |steps|
  {
    hide Inv, Next, Enabled;
    if steps != [] {
      StepKeeps(w, steps[0]);
      RunKeeps(Next(w, steps[0]), steps[1..]);
    }
  }

  /** The daemon is upgraded at most, never replaced by one that starts from nothing. */
  predicate NeverReplaced(steps: seq<Step>) {
    forall i | 0 <= i < |steps| :: !steps[i].Replace?
  }

  lemma {:induction false} OnlyReplacingMisfiles(w: World, steps: seq<Step>)
    requires Run(w, steps) && NeverReplaced(steps)
    ensures After(w, steps).misfiled == w.misfiled
    decreases |steps|
  {
    if steps != [] {
      assert !steps[0].Replace?;
      assert forall i | 0 <= i < |steps[1..]| :: steps[1..][i] == steps[i + 1];
      OnlyReplacingMisfiles(Next(w, steps[0]), steps[1..]);
    }
  }

  /**
    The resume law. Whatever connected, broke, was attached, evicted, upgraded or replaced in
    between: if the client holds offset X for a pane it has not let go, and no frame of the pane
    was lost to a full parking queue since its last snapshot, then its replica is a snapshot of
    the pane followed by exactly the bytes up to the X-th: none skipped, none repeated.
  */
  lemma HeldOffsetsAreExact(w: World, steps: seq<Step>, p: nat)
    requires Initial(w) && Run(w, steps)
    requires var r := After(w, steps); p in r.client.off && p !in r.lost && p !in r.dropped
    ensures var r := After(w, steps);
            && (r.client.epoch, p) in r.logs
            && Exact(Content(r.client, p), r.logs[(r.client.epoch, p)], r.client.off[p])
  {
    InitialInv(w);
    RunKeeps(w, steps);
    assert HeldOk(After(w, steps), p);
  }

  /** Short of a new daemon reusing numbers, no pane the daemon still has is ever let go. */
  lemma LivePanesAreKept(w: World, steps: seq<Step>, p: nat)
    requires Initial(w) && Run(w, steps) && NeverReplaced(steps)
    requires var r := After(w, steps); r.client.epoch == r.daemon.epoch && p in r.daemon.panes
    ensures p !in After(w, steps).dropped
  {
    InitialInv(w);
    RunKeeps(w, steps);
    OnlyReplacingMisfiles(w, steps);
    assert DroppedOk(After(w, steps), p);
  }

  /** Once its stream is drained, an attached client is current: its offset is the end of the pane's output. */
  lemma DrainedIsCurrent(w: World, steps: seq<Step>, p: nat)
    requires Initial(w) && Run(w, steps)
    requires var r := After(w, steps);
             && p in r.daemon.panes && r.link.Some? && r.link.value.greeted
             && r.link.value.attached == r.daemon.panes[p].sid && Stream(r.link.value, p) == []
             && p in r.client.off
    ensures var r := After(w, steps); r.client.off[p] == r.daemon.panes[p].ringEnd
  {
    InitialInv(w);
    RunKeeps(w, steps);
    var r := After(w, steps);
    assert HeldOk(r, p) && ChannelOk(r, p) && PaneOk(r, p);
    EmptyStreamOk(LogOf(r, r.daemon.epoch, p), Lookup(r.want, p));
  }

  // ---------- the two exceptions, exactly ----------

  /** Output for a pane that is exact leaves it exact if and only if the frame found a place. */
  lemma LostFrameIff(v: View<nat>, p: nat, log: seq<byte>, data: seq<byte>)
    requires p in v.off && Exact(Content(v, p), log, v.off[p]) && data != []
    requires FrameOk(log, Some(v.off[p]), Out(data))
    ensures Exact(Content(OnFrame(v, p, Out(data)), p), log, OnFrame(v, p, Out(data)).off[p]) <==> Keeps(v, p, Out(data))
  {
    FramePlaysOnContent(v, p, Out(data), p);
    if Keeps(v, p, Out(data)) { PlayKeepsExact(Content(v, p), log, Some(v.off[p]), Out(data)); }
    hide Content, Keeps;
  }

  /** A layout makes the client let go of a live pane exactly when the pane's number was filed under
      that window in an earlier daemon's time and is in another window now. */
  lemma LayoutDropsLiveIff(w: World, p: nat)
    requires Inv(w) && Enabled(w, ReceiveControl) && w.link.value.greeted && w.link.value.control[0].Layout?
    requires p in w.daemon.panes && p in w.client.panes && p < w.link.value.control[0].upto
    ensures p !in Next(w, ReceiveControl).client.panes
       <==> var m := w.link.value.control[0];
            m.wid in w.client.windows && p in w.misfiled && w.client.panes[p].wid == m.wid != w.daemon.panes[p].wid
  {
    hide DaemonOk, ClientOk, LinkOk, PlayAll;
    assert MessageOk(w, w.link.value.control[0]) && FiledOk(w, p);
  }
}
