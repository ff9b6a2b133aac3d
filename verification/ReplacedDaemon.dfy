/**
  A run in which a client loses a pane that lives. The daemon's panes 1 and 2 are both in
  window 1; it is replaced, and now pane 2 is in window 2. The client still files pane 2 under
  window 1. It is brought up to date on pane 2's own stream, and then hears the layout of
  window 1, which does not list pane 2.
*/
module ReplacedDaemon {
  import opened Bytes
  import opened Wrappers
  import opened RemoteViews
  import opened Replication
  import opened ReplicationTheorems

  predicate Leads(w: World, step: Step, v: World) {
    Enabled(w, step) && Next(w, step) == v
  }

  /** One more step in front of a run. */
  lemma Before(w: World, step: Step, v: World, rest: seq<Step>)
    requires Leads(w, step, v) && Run(v, rest)
    ensures Run(w, [step] + rest) && After(w, [step] + rest) == After(v, rest)
  {
    var steps := [step] + rest;
    assert steps[0] == step && steps[1..] == rest;
    hide Enabled, Next;
  }

  /** A client on an open connection that has asked to attach to session 1, and perhaps been served. */
  function On(w: World, attached: nat, request: Option<Request>, control: seq<Control>, streams: map<nat, seq<Frame<nat>>>): World {
    w.(link := Some(Link(control, streams, true, true, request, attached)))
  }

  function Greeted(w: World): World {
    var h := w.(client := OnHello(w.client, w.daemon.epoch), link := Some(Link([], map[], true, false, None, 0)));
    if w.daemon.epoch == w.client.epoch then h else h.(want := map[], lost := {}, dropped := {})
  }

  function Asking(w: World): World {
    On(Greeted(w), 0, Some(Replication.Request(1, Greeted(w).client.off)), [], map[])
  }

  const CONNECT: seq<Step> := [Connect, ReceiveControl, AskAttach(1), ServeAttach(map[])]

  function Linked(w: World): World {
    w.(link := Some(Link([HelloOk(w.daemon.epoch)], map[], false, false, None, 0)))
  }

  lemma Greets(w: World)
    requires w.link.None?
    ensures Leads(w, Connect, Linked(w)) && Leads(Linked(w), ReceiveControl, Greeted(w))
  {
    assert [HelloOk(w.daemon.epoch)][1..] == [];
    hide OnHello;
  }

  lemma Asks(w: World, streams: map<nat, seq<Frame<nat>>>)
    requires Replication.Attach(Asking(w), map[]) == On(Greeted(w), 1, None, [], streams)
    ensures Leads(Greeted(w), AskAttach(1), Asking(w)) && Leads(Asking(w), ServeAttach(map[]), On(Greeted(w), 1, None, [], streams))
  {
    hide OnHello, Replication.Attach;
  }

  /** A new connection, up to what the daemon sends to the client that attaches. */
  lemma Connects(w: World, streams: map<nat, seq<Frame<nat>>>)
    requires w.link.None?
    requires Replication.Attach(Asking(w), map[]) == On(Greeted(w), 1, None, [], streams)
    ensures Run(w, CONNECT) && After(w, CONNECT) == On(Greeted(w), 1, None, [], streams)
  {
    hide Enabled, Next, Leads, Greeted, Asking, On, Linked, OnHello;
    var a := Linked(w);
    var r := On(Greeted(w), 1, None, [], streams);
    Greets(w);
    Asks(w, streams);
    Before(Asking(w), ServeAttach(map[]), r, []);
    Before(Greeted(w), AskAttach(1), Asking(w), [ServeAttach(map[])]);
    Before(a, ReceiveControl, Greeted(w), [AskAttach(1), ServeAttach(map[])]);
    Before(w, Connect, a, [ReceiveControl, AskAttach(1), ServeAttach(map[])]);
  }

  /** The daemon tells of a window and its layout, and the client hears both. */
  function Telling(wid: nat, layout: Control): seq<Step> {
    [SendControl(WindowAdded(wid)), SendControl(layout), ReceiveControl, ReceiveControl]
  }

  lemma Tells(w: World, wid: nat, layout: Control, streams: map<nat, seq<Frame<nat>>>)
    requires w == On(w, 1, None, [], streams) && layout.Layout?
    requires Tellable(w.daemon, WindowAdded(wid)) && Tellable(w.daemon, layout)
    ensures Run(w, Telling(wid, layout))
    ensures After(w, Telling(wid, layout)) == HearControl(w.(client := OnWindowAdded(w.client, wid)), layout)
  {
    var added := WindowAdded(wid);
    var a := On(w, 1, None, [added], streams);
    var b := On(w, 1, None, [added, layout], streams);
    var c := On(w.(client := OnWindowAdded(w.client, wid)), 1, None, [layout], streams);
    var d := HearControl(w.(client := OnWindowAdded(w.client, wid)), layout);
    assert [] + [added] == [added] && [added] + [layout] == [added, layout];
    assert Leads(w, SendControl(added), a) && Leads(a, SendControl(layout), b);
    assert [added, layout][1..] == [layout] && [layout][1..] == [];
    assert Leads(b, ReceiveControl, c);
    assert Leads(c, ReceiveControl, d);
    hide Leads, On, HearControl, Tellable;
    Before(c, ReceiveControl, d, []);
    Before(b, ReceiveControl, c, [ReceiveControl]);
    Before(a, SendControl(layout), b, [ReceiveControl, ReceiveControl]);
    Before(w, SendControl(added), a, [SendControl(layout), ReceiveControl, ReceiveControl]);
  }

  lemma {:induction false} RunConcat(w: World, a: seq<Step>, b: seq<Step>)
    requires Run(w, a) && Run(After(w, a), b)
    ensures Run(w, a + b) && After(w, a + b) == After(After(w, a), b)
    decreases |a|
  {
    hide Enabled, Next;
    if a == [] {
      assert a + b == b;
    } else {
      assert (a + b)[0] == a[0] && (a + b)[1..] == a[1..] + b;
      RunConcat(Next(w, a[0]), a[1..], b);
    }
  }

  lemma TwoSteps(w: World, s: Step, v: World, t: Step, u: World)
    requires Leads(w, s, v) && Leads(v, t, u)
    ensures Run(w, [s, t]) && After(w, [s, t]) == u
  {
    hide Leads;
    Before(v, t, u, []);
    Before(w, s, v, [t]);
  }

  // ---------- the run ----------

  const ANCHORED: seq<Frame<nat>> := [Snap(0, 0), Resume(0)]

  function Pane(wid: nat): PaneRef {
    PaneRef(1, wid, [], 0)
  }

  lemma GreetsAnew(wid: nat)
    ensures [] + Greeting(Pane(wid), None, 0) == ANCHORED
  {
  }

  /** A client that holds no offsets is sent both panes anew. */
  lemma Serves(w: World)
    requires w.daemon.panes.Keys == {1, 2} && (forall p | p in w.daemon.panes :: w.daemon.panes[p] == Pane(w.daemon.panes[p].wid))
    requires Greeted(w).client.off == map[]
    ensures Attach(Asking(w), map[]) == On(Greeted(w), 1, None, [], map[1 := ANCHORED, 2 := ANCHORED])
  {
    var k := Asking(w).link.value;
    var served := set p | p in w.daemon.panes && w.daemon.panes[p].sid == 1;
    assert k.streams.Keys + served == {1, 2};
    forall p | p in w.daemon.panes ensures Stream(k, p) + Greeting(w.daemon.panes[p], None, 0) == ANCHORED {
      GreetsAnew(w.daemon.panes[p].wid);
    }
    hide Greeting, OnHello, Greeted, Pane, Stream;
    assert Attach(Asking(w), map[]).link.value.streams == map[1 := ANCHORED, 2 := ANCHORED];
  }

  /** A daemon that has just started, and a client that has never connected. */
  function Begin(): World {
    World(Daemon(1, map[], 1, 1), View(1, map[], {}, map[], map[]), None, map[], {1}, map[], {}, {}, {})
  }

  const OPENED: seq<Step> := [NewPane(1, 1), NewPane(1, 1)]
  const OLD_LAYOUT := Layout(1, {1, 2}, {1, 2}, 3)

  /** Both panes are in window 1, and the client shows them. */
  function FirstLife(): World {
    Begin().(daemon := Daemon(1, map[1 := Pane(1), 2 := Pane(1)], 3, 2), logs := map[(1, 1) := [], (1, 2) := []])
  }

  function Showing(): World {
    On(FirstLife().(client := View(1, map[], {1}, map[1 := Shown(1, Blank()), 2 := Shown(1, Blank())], map[])),
       1, None, [], map[1 := ANCHORED, 2 := ANCHORED])
  }

  lemma Opens()
    ensures Run(Begin(), OPENED) && After(Begin(), OPENED) == FirstLife()
  {
    var one := Begin().(daemon := Daemon(1, map[1 := Pane(1)], 2, 2), logs := map[(1, 1) := []]);
    assert 1 in one.daemon.panes && one.daemon.panes[1].wid == 1;
    TwoSteps(Begin(), NewPane(1, 1), one, NewPane(1, 1), FirstLife());
  }

  lemma HearsOldLayout()
    ensures var v := On(FirstLife(), 1, None, [], map[1 := ANCHORED, 2 := ANCHORED]);
            HearControl(v.(client := OnWindowAdded(v.client, 1)), OLD_LAYOUT) == Showing()
  {
    var c := OnWindowAdded(FirstLife().client, 1);
    assert NewPanes(c, {1, 2}) == {1, 2};
    assert PlayAll(Blank<nat>(), Parked(c, 1)) == Blank() == PlayAll(Blank<nat>(), Parked(c, 2));
    assert OnLayout(c, 1, {1, 2}, {1, 2}).panes == Showing().client.panes;
    assert LetGo(c, 1, {1, 2}) == {};
  }

  lemma Attaches()
    ensures Run(FirstLife(), CONNECT + Telling(1, OLD_LAYOUT))
    ensures After(FirstLife(), CONNECT + Telling(1, OLD_LAYOUT)) == Showing()
  {
    var w := FirstLife();
    var streams := map[1 := ANCHORED, 2 := ANCHORED];
    var v := On(w, 1, None, [], streams);
    assert Greeted(w).(link := None) == w;
    Serves(w);
    hide HearControl;
    Connects(w, streams);
    HearsOldLayout();
    Tells(v, 1, OLD_LAYOUT, streams);
    hide Run, After, Telling;
    RunConcat(w, CONNECT, Telling(1, OLD_LAYOUT));
  }

  const REOPENED: seq<Step> := [Replace(2)] + [NewPane(1, 1), NewPane(1, 2)]
  const NEW_LAYOUT := Layout(1, {1}, {1}, 3)

  /** Another daemon, in which pane 2 is in window 2; the client does not know yet. */
  function SecondLife(): World {
    Showing().(daemon := Daemon(2, map[1 := Pane(1), 2 := Pane(2)], 3, 3), link := None, epochs := {1, 2}, misfiled := {1, 2},
               logs := map[(1, 1) := [], (1, 2) := [], (2, 1) := [], (2, 2) := []])
  }

  lemma Reopens()
    ensures Run(Showing(), REOPENED) && After(Showing(), REOPENED) == SecondLife()
  {
    var a := Showing().(daemon := Daemon(2, map[], 1, 1), link := None, epochs := {1, 2}, misfiled := {1, 2});
    var b := a.(daemon := Daemon(2, map[1 := Pane(1)], 2, 2), logs := map[(1, 1) := [], (1, 2) := [], (2, 1) := []]);
    assert Leads(Showing(), Replace(2), a);
    assert Leads(a, NewPane(1, 1), b);
    TwoSteps(a, NewPane(1, 1), b, NewPane(1, 2), SecondLife());
    Before(Showing(), Replace(2), a, [NewPane(1, 1), NewPane(1, 2)]);
  }

  /** The client has heard pane 2's stream: it holds its offset and its snapshot. */
  function UpToDate(): World {
    On(SecondLife().(client := View(2, map[2 := 0], {1}, map[1 := Shown(1, Blank()), 2 := Shown(1, Replica(Some(0), []))], map[]),
                     want := map[2 := 0]),
       1, None, [], map[1 := ANCHORED, 2 := []])
  }

  /** The client between the snapshot of pane 2 and its anchor. */
  function Unanchored(streams: map<nat, seq<Frame<nat>>>): World {
    On(UpToDate().(client := UpToDate().client.(off := map[])), 1, None, [], streams)
  }

  function Resumed(): World {
    On(Greeted(SecondLife()), 1, None, [], map[1 := ANCHORED, 2 := ANCHORED])
  }

  lemma HearsSnapshot()
    ensures Leads(Resumed(), ReceiveFrame(2), Unanchored(map[1 := ANCHORED, 2 := [Resume(0)]]))
  {
    var v := Resumed();
    var streams := map[1 := ANCHORED, 2 := [Resume(0)]];
    assert ANCHORED[1..] == [Resume(0)];
    assert v.link.value.streams[2 := [Resume(0)]] == streams;
    assert v.client == View(2, map[], {1}, Showing().client.panes, map[]) && v.want == map[];
    var x := On(v, 1, None, [], streams);
    assert x.want[2 := 0] == map[2 := 0] && x.lost - {2} == {} == x.dropped - {2} && x.client.off - {2} == map[];
    assert x.client.panes[2 := Shown(1, Replica(Some(0), []))] == UpToDate().client.panes;
    assert HearFrame(x, 2, Snap(0, 0)) == Unanchored(streams);
  }

  lemma AnchorHeard(streams: map<nat, seq<Frame<nat>>>)
    ensures HearFrame(Unanchored(streams), 2, Resume(0)) == On(UpToDate(), 1, None, [], streams)
  {
    var x := Unanchored(streams);
    assert x.want[2 := 0] == x.want && x.client.off[2 := 0] == map[2 := 0];
  }

  lemma HearsAnchor()
    ensures Leads(Unanchored(map[1 := ANCHORED, 2 := [Resume(0)]]), ReceiveFrame(2), UpToDate())
  {
    var u := Unanchored(map[1 := ANCHORED, 2 := [Resume(0)]]);
    var streams := map[1 := ANCHORED, 2 := []];
    assert u.link.value.streams[2][1..] == [];
    assert u.link.value.streams[2 := []] == streams;
    assert On(UpToDate(), 1, None, [], streams) == UpToDate();
    AnchorHeard(streams);
    hide HearFrame, SecondLife, Showing, FirstLife, Begin;
  }

  lemma Resumes()
    ensures Run(SecondLife(), CONNECT + [ReceiveFrame(2), ReceiveFrame(2)])
    ensures After(SecondLife(), CONNECT + [ReceiveFrame(2), ReceiveFrame(2)]) == UpToDate()
  {
    var w := SecondLife();
    Serves(w);
    Connects(w, map[1 := ANCHORED, 2 := ANCHORED]);
    HearsSnapshot();
    HearsAnchor();
    hide Run, After, Leads, Unanchored, UpToDate, SecondLife;
    TwoSteps(Resumed(), ReceiveFrame(2), Unanchored(map[1 := ANCHORED, 2 := [Resume(0)]]), ReceiveFrame(2), UpToDate());
    RunConcat(w, CONNECT, [ReceiveFrame(2), ReceiveFrame(2)]);
  }

  lemma HearsNewLayout()
    ensures var w := UpToDate();
            var r := HearControl(w.(client := OnWindowAdded(w.client, 1)), NEW_LAYOUT);
            && r.daemon == w.daemon && r.logs == w.logs && r.lost == {} && r.dropped == {2}
            && r.client == w.client.(panes := map[1 := Shown(1, Blank())])
  {
    var c := OnWindowAdded(UpToDate().client, 1);
    assert c == UpToDate().client;
    assert NewPanes(c, {1}) == {} && LetGo(c, 1, {1}) == {2};
    assert OnLayout(c, 1, {1}, {1}).panes == map[1 := Shown(1, Blank())];
    assert c.early - {} == c.early;
  }

  lemma LetsGo()
    ensures Run(UpToDate(), Telling(1, NEW_LAYOUT))
    ensures var r := After(UpToDate(), Telling(1, NEW_LAYOUT));
            && r.daemon == UpToDate().daemon && r.logs == UpToDate().logs && r.lost == {} && r.dropped == {2}
            && r.client == UpToDate().client.(panes := map[1 := Shown(1, Blank())])
  {
    HearsNewLayout();
    hide HearControl, OnWindowAdded, Telling, Run, After;
    Tells(UpToDate(), 1, NEW_LAYOUT, map[1 := ANCHORED, 2 := []]);
  }

  function Whole(): seq<Step> {
    OPENED + (CONNECT + Telling(1, OLD_LAYOUT)) + REOPENED + (CONNECT + [ReceiveFrame(2), ReceiveFrame(2)])
    + Telling(1, NEW_LAYOUT)
  }

  /** In this run the client ends up with the offset of a pane the daemon has, of which it lost no frame, and yet
      without its content: the resume law needs its proviso about panes let go. */
  lemma LivePaneIsLetGo(w: World, steps: seq<Step>)
    requires w == Begin() && steps == Whole()
    ensures Initial(w) && Run(w, steps)
    ensures var r := After(w, steps);
            && r.client.epoch == r.daemon.epoch && 2 in r.daemon.panes && 2 in r.client.off && 2 !in r.lost
            && (2, 2) in r.logs && !Exact(Content(r.client, 2), r.logs[(2, 2)], r.client.off[2])
  {
    Opens();
    Attaches();
    Reopens();
    Resumes();
    LetsGo();
    hide Run, After, Telling;
    RunConcat(w, OPENED, CONNECT + Telling(1, OLD_LAYOUT));
    RunConcat(w, OPENED + (CONNECT + Telling(1, OLD_LAYOUT)), REOPENED);
    RunConcat(w, OPENED + (CONNECT + Telling(1, OLD_LAYOUT)) + REOPENED, CONNECT + [ReceiveFrame(2), ReceiveFrame(2)]);
    RunConcat(w, OPENED + (CONNECT + Telling(1, OLD_LAYOUT)) + REOPENED + (CONNECT + [ReceiveFrame(2), ReceiveFrame(2)]),
              Telling(1, NEW_LAYOUT));
  }
}
