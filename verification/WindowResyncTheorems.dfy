/** Window resync converges, and never drops a live window on the way. */
module WindowResyncTheorems {
  import opened Bytes
  import opened Wrappers
  import opened WindowResync

  // ---------- draining the channel ----------

  lemma {:induction false} HearAllAppend(c: Client, ms: seq<Message>, more: seq<Message>)
    ensures HearAll(c, ms + more) == HearAll(HearAll(c, ms), more)
    decreases |ms|
  {
    hide Hear;
    if ms == [] {
      assert ms + more == more;
    } else {
      assert (ms + more)[1..] == ms[1..] + more;
      HearAllAppend(Hear(c, ms[0]), ms[1..], more);
    }
  }

  lemma {:induction false} HarmlessAppend(c: Client, D: set<nat>, ms: seq<Message>, more: seq<Message>)
    requires AllHarmless(c, D, ms) && AllHarmless(HearAll(c, ms), D, more)
    ensures AllHarmless(c, D, ms + more)
    decreases |ms|
  {
    hide Hear, Harmless;
    if ms == [] {
      assert ms + more == more;
    } else {
      assert (ms + more)[1..] == ms[1..] + more;
      HarmlessAppend(Hear(c, ms[0]), D, ms[1..], more);
    }
  }

  lemma {:induction false} HarmlessShrinks(c: Client, D: set<nat>, E: set<nat>, ms: seq<Message>)
    requires AllHarmless(c, D, ms) && E <= D
    ensures AllHarmless(c, E, ms)
    decreases |ms|
  {
    hide Hear;
    if ms != [] {
      assert (c.windows - Hear(c, ms[0]).windows) * E <= (c.windows - Hear(c, ms[0]).windows) * D;
      HarmlessShrinks(Hear(c, ms[0]), D, E, ms[1..]);
    }
  }

  predicate Announces(ms: seq<Message>, wid: nat) {
    exists i | 0 <= i < |ms| :: ms[i].WindowAdded? && ms[i].wid == wid
  }

  predicate Below(ms: seq<Message>, n: nat) {
    forall i | 0 <= i < |ms| :: ms[i].WindowAdded? ==> ms[i].wid < n
  }

  /** A window nobody has heard of cannot be dropped by what is already on its way. */
  lemma {:induction false} HarmlessToNew(c: Client, D: set<nat>, ms: seq<Message>, n: nat)
    requires AllHarmless(c, D, ms) && n !in c.windows && Below(ms, n)
    ensures AllHarmless(c, D + {n}, ms)
    decreases |ms|
  {
    if ms != [] {
      assert n !in Hear(c, ms[0]).windows;
      hide Hear;
      assert Below(ms[1..], n) by { assert forall i | 0 <= i < |ms[1..]| :: ms[1..][i] == ms[i + 1]; }
      HarmlessToNew(Hear(c, ms[0]), D, ms[1..], n);
    }
  }

  lemma NewsTail(ms: seq<Message>, sid: nat)
    requires OnlyNews(ms, sid) && ms != []
    ensures OnlyNews(ms[1..], sid) && WindowNews(ms[0], sid) && (ms[1..] != [] ==> WindowNews(ms[1..][0], sid))
  {
    assert forall i | 0 <= i < |ms[1..]| :: ms[1..][i] == ms[i + 1];
  }

  lemma {:induction false} StaysAttached(c: Client, sid: nat, ms: seq<Message>)
    requires (c.gone || Attached(c, sid)) && OnlyNews(ms, sid)
    ensures var d := HearAll(c, ms); (d.gone || Attached(d, sid)) && (!c.resyncing ==> !d.resyncing)
    decreases |ms|
  {
    if ms != [] {
      NewsTail(ms, sid);
      StaysAttached(Hear(c, ms[0]), sid, ms[1..]);
    }
  }

  function SetOf(order: seq<nat>): set<nat> {
    set i | 0 <= i < |order| :: order[i]
  }

  lemma {:induction false} AnnouncementsHeard(c: Client, sid: nat, order: seq<nat>, D: set<nat>)
    requires c.sid == sid && c.resyncing && !c.gone
    ensures HearAll(c, Announcements(sid, order))
         == c.(announced := c.announced + SetOf(order), windows := c.windows + SetOf(order))
    ensures AllHarmless(c, D, Announcements(sid, order))
    decreases |order|
  {
    var ms := Announcements(sid, order);
    if order == [] {
      assert SetOf(order) == {};
    } else {
      assert ms[0] == WindowAdded(sid, order[0]) && ms[1..] == Announcements(sid, order[1..]);
      var d := Hear(c, ms[0]);
      AnnouncementsHeard(d, sid, order[1..], D);
      assert SetOf(order) == {order[0]} + SetOf(order[1..]) by {
        forall x | x in SetOf(order) ensures x == order[0] || x in SetOf(order[1..]) {
          var i :| 0 <= i < |order| && order[i] == x;
          if i > 0 { assert order[1..][i - 1] == x; }
        }
        forall x | x in SetOf(order[1..]) ensures x in SetOf(order) {
          var i :| 0 <= i < |order[1..]| && order[1..][i] == x;
          assert order[i + 1] == x;
        }
      }
      assert Harmless(c, D, ms[0]);
      hide Hear;
      assert c.announced + {order[0]} + SetOf(order[1..]) == c.announced + SetOf(order);
      assert c.windows + {order[0]} + SetOf(order[1..]) == c.windows + SetOf(order);
    }
  }

  // ---------- the invariant ----------

  predicate IdsOk(w: World) {
    && w.nextSid >= 1 && w.client.sid < w.nextSid
    && (forall s | s in w.sessions :: 0 < s < w.nextSid && w.sessions[s] != {} && forall x | x in w.sessions[s] :: x < w.nextWid)
    && (forall x | x in w.client.windows :: x < w.nextWid) && (forall x | x in w.client.announced :: x < w.nextWid)
  }

  predicate ClientOk(c: Client) {
    && (c.gone ==> c.windows == {} && !c.active && !c.resyncing)
    && (c.sid == 0 ==> c.windows == {} && c.announced == {} && !c.resyncing && !c.active && !c.reconnecting)
    && (c.reconnecting ==> c.target == Session(c.sid) && !c.active)
    && (c.target.Session? ==> c.target.sid != 0)
  }

  /** Before Attach is served one request or reply goes back and forth; a returning client only asks to attach. */
  predicate GreetingOk(w: World, k: Link) {
    var c := w.client;
    && |k.up| + |k.down| <= 1
    && (c.gone || c.sid == 0 || c.reconnecting)
    && (k.up != [] ==> c.gone || c.sid == 0 || k.up[0] == AttachTo(c.sid))
    && (k.down != [] ==>
          match k.down[0]
          case HelloOk => true
          case NoSuchSession => c.gone || c.sid == 0 || c.sid !in w.sessions
          case SessionList(_) => c.gone || c.sid == 0
          case SessionCreated(_, _) => c.gone || c.sid == 0
          case _ => false)
  }

  predicate Unheard(k: Link) {
    k.down != [] && k.down[0] == AttachOk(k.session)
  }

  /** What the client will have once it has heard everything that is on its way. */
  predicate Settles(c: Client, sid: nat, D: set<nat>) {
    c.gone || (Attached(c, sid) && (if c.resyncing then c.windows * c.announced == D else c.windows == D))
  }

  predicate ServedOk(w: World, k: Link) {
    var (c, s, D) := (w.client, k.session, WindowsOf(w, k.session));
    var d := HearAll(c, k.down);
    && 0 < s < w.nextSid
    && Below(k.down, w.nextWid)
    && (if Unheard(k) then OnlyNews(k.down[1..], s) && (c.gone || c.sid == 0 || (c.sid == s && c.reconnecting))
        else OnlyNews(k.down, s) && (c.gone || Attached(c, s)))
    && Settles(d, s, D) && (d.gone && !c.gone ==> D == {})
    && AllHarmless(c, D, k.down)
    && (Unheard(k) && !c.gone ==> k.up == [])
    && (forall i | 0 <= i < |k.up| :: k.up[i] == ListSessions)
    && (!d.gone ==> |k.up| <= 1 && (d.resyncing <==> (Unheard(k) || k.up != [])))
  }

  predicate Inv(w: World) {
    && IdsOk(w) && ClientOk(w.client)
    && match w.link
       case None => w.client.gone || w.client.sid == 0 || w.client.reconnecting
       case Some(k) => if k.served then ServedOk(w, k) else GreetingOk(w, k)
  }

  // ---------- what the daemon does ----------

  lemma EndOfNews(k: Link, ms: seq<Message>)
    requires k.down + ms != [] && (Unheard(k) ==> OnlyNews(k.down[1..], k.session)) && (!Unheard(k) ==> OnlyNews(k.down, k.session))
    requires OnlyNews(ms, k.session)
    ensures var j := k.(down := k.down + ms);
            Unheard(j) == Unheard(k) && (if Unheard(j) then OnlyNews(j.down[1..], k.session) else OnlyNews(j.down, k.session))
  {
    if Unheard(k) { assert (k.down + ms)[1..] == k.down[1..] + ms; }
  }

  /** A served connection after news of its session; the rest of the world may have moved on as well. */
  lemma NewsKeeps(w: World, k: Link, r: World, ms: seq<Message>)
    requires ServedOk(w, k) && r.client == w.client && ms != [] && OnlyNews(ms, k.session)
    requires r.nextSid >= w.nextSid && r.nextWid >= w.nextWid && Below(ms, r.nextWid)
    requires AllHarmless(w.client, WindowsOf(r, k.session), k.down)
    requires AllHarmless(HearAll(w.client, k.down), WindowsOf(r, k.session), ms)
    requires var d := HearAll(HearAll(w.client, k.down), ms);
             Settles(d, k.session, WindowsOf(r, k.session)) && (d.gone || d.resyncing == HearAll(w.client, k.down).resyncing)
    requires HearAll(w.client, k.down).gone ==> HearAll(HearAll(w.client, k.down), ms).gone
    requires HearAll(HearAll(w.client, k.down), ms).gone && !w.client.gone ==> WindowsOf(r, k.session) == {}
    ensures ServedOk(r, k.(down := k.down + ms))
  {
    hide Hear, Settles, OnlyNews, HearAll, AllHarmless, Below, Unheard, WindowsOf;
    EndOfNews(k, ms);
    HearAllAppend(w.client, k.down, ms);
    HarmlessAppend(w.client, WindowsOf(r, k.session), k.down, ms);
    BelowAppend(k.down, w.nextWid, ms, r.nextWid);
  }

  lemma BelowAppend(a: seq<Message>, n: nat, b: seq<Message>, m: nat)
    requires Below(a, n) && Below(b, m) && n <= m
    ensures Below(a + b, m)
  {
  }

  lemma SameWindows(w: World, k: Link, r: World)
    requires ServedOk(w, k) && r.client == w.client && r.nextSid >= w.nextSid && r.nextWid >= w.nextWid
    requires WindowsOf(r, k.session) == WindowsOf(w, k.session)
    ensures ServedOk(r, k)
  {
    hide HearAll, AllHarmless, Settles, OnlyNews;
  }

  lemma OneHeard(c: Client, D: set<nat>, m: Message)
    ensures HearAll(c, [m]) == Hear(c, m) && (AllHarmless(c, D, [m]) <==> Harmless(c, D, m))
  {
    hide Hear, Harmless;
    assert [m][1..] == [];
  }

  lemma OpenWindowKeeps(w: World, sid: nat)
    requires Inv(w) && Enabled(w, OpenWindow(sid))
    ensures Inv(Next(w, OpenWindow(sid)))
  {
    hide HearAll, AllHarmless;
    var r := Next(w, OpenWindow(sid));
    var n := w.nextWid;
    if w.link.Some? && w.link.value.served {
      var k := w.link.value;
      if k.session == sid {
        var d := HearAll(w.client, k.down);
        var m := WindowAdded(sid, n);
        HarmlessToNew(w.client, WindowsOf(w, sid), k.down, n);
        OneHeard(d, WindowsOf(r, sid), m);
        assert r.sessions[sid] == WindowsOf(w, sid) + {n};
        if !d.gone && d.resyncing { assert (d.windows + {n}) * (d.announced + {n}) == d.windows * d.announced + {n}; }
        NewsKeeps(w, k, r, [m]);
      } else {
        SameWindows(w, k, r);
      }
    }
  }

  lemma OpenSessionKeeps(w: World)
    requires Inv(w)
    ensures Inv(Next(w, OpenSession))
  {
    var r := Next(w, OpenSession);
    if w.link.Some? && w.link.value.served { SameWindows(w, w.link.value, r); }
    hide ServedOk;
  }

  lemma ClosingKeeps(w: World, step: Step)
    requires Inv(w) && Enabled(w, step) && (step.CloseWindow? || step.KillSession?)
    ensures Inv(Next(w, step))
  {
    hide HearAll, AllHarmless;
    var r := Next(w, step);
    if w.link.Some? && w.link.value.served {
      var k := w.link.value;
      var d := HearAll(w.client, k.down);
      if k.session == step.sid {
        HarmlessShrinks(w.client, WindowsOf(w, k.session), WindowsOf(r, k.session), k.down);
        if step.KillSession? {
          OneHeard(d, {}, SessionClosed(step.sid));
          NewsKeeps(w, k, r, [SessionClosed(step.sid)]);
        } else {
          var (m, x) := (WindowClosed(step.sid, step.wid), SessionClosed(step.sid));
          OneHeard(d, WindowsOf(r, k.session), m);
          if w.sessions[step.sid] - {step.wid} == {} {
            OneHeard(Hear(d, m), {}, x);
            HearAllAppend(d, [m], [x]);
            HarmlessAppend(d, {}, [m], [x]);
            assert [m] + [x] == [m, x];
            NewsKeeps(w, k, r, [m, x]);
          } else {
            if !d.gone && d.resyncing { assert (d.windows - {step.wid}) * d.announced == d.windows * d.announced - {step.wid}; }
            NewsKeeps(w, k, r, [m]);
          }
        }
      } else {
        SameWindows(w, k, r);
      }
    }
  }

  lemma AttachServed(w: World, order: seq<nat>, sid: nat)
    requires Inv(w) && w.link.Some? && !w.link.value.served && w.link.value.up == [AttachTo(sid)] && w.link.value.down == []
    requires sid in w.sessions && Lists(order, w.sessions[sid])
    ensures ServedOk(Served(w, order, true), Served(w, order, true).link.value)
  {
    var r := Served(w, order, true);
    var k := r.link.value;
    var (c, D) := (w.client, w.sessions[sid]);
    var ms := Announcements(sid, order);
    assert k.down == [AttachOk(sid)] + ms && k.down[1..] == ms;
    assert SetOf(order) == D;
    var c1 := Hear(c, AttachOk(sid));
    if c.gone {
      GoneStays(c, k.down, D);
    } else {
      AnnouncementsHeard(c1, sid, order, D);
      assert (c.windows + D) * ({} + D) == D;
    }
    forall i | 0 <= i < |k.down| ensures k.down[i].WindowAdded? ==> k.down[i].wid < r.nextWid {
      if i > 0 { assert k.down[i] == WindowAdded(sid, order[i - 1]); }
    }
  }

  lemma {:induction false} GoneHasNothing(c: Client, ms: seq<Message>)
    requires c.gone ==> c.windows == {}
    ensures HearAll(c, ms).gone ==> HearAll(c, ms).windows == {}
    decreases |ms|
  {
    if ms != [] { GoneHasNothing(Hear(c, ms[0]), ms[1..]); }
  }

  lemma {:induction false} GoneStays(c: Client, ms: seq<Message>, D: set<nat>)
    requires c.gone
    ensures HearAll(c, ms) == c && AllHarmless(c, D, ms)
    decreases |ms|
  {
    if ms != [] { GoneStays(c, ms[1..], D); }
  }

  lemma ListServed(w: World, order: seq<nat>)
    requires Inv(w) && w.link.Some? && w.link.value.served && w.link.value.up != []
    ensures Inv(Served(w, order, true))
  {
    hide HearAll, AllHarmless;
    var k := w.link.value;
    assert k.up[0] == ListSessions;
    var r := Served(w, order, true);
    var j := k.(up := k.up[1..]);
    var m := SessionList(order);
    var d := HearAll(w.client, k.down);
    var D := WindowsOf(w, k.session);
    OneHeard(d, D, m);
    if w.client.gone { GoneStays(w.client, k.down, D); }
    EndOfNews(j, [m]);
    HearAllAppend(w.client, k.down, [m]);
    HarmlessAppend(w.client, D, k.down, [m]);
    var down := k.down + [m];
    forall i | 0 <= i < |down| ensures down[i].WindowAdded? ==> down[i].wid < r.nextWid {
      assert i < |k.down| ==> down[i] == k.down[i];
    }
  }

  lemma ServeKeeps(w: World, order: seq<nat>, spawned: bool)
    requires Inv(w) && Enabled(w, Serve(order, spawned))
    ensures Inv(Next(w, Serve(order, spawned)))
  {
    hide HearAll, AllHarmless;
    var k := w.link.value;
    if k.served {
      assert k.up[0] == ListSessions;
      ListServed(w, order);
    } else {
      hide ServedOk;
      assert k.down == [] && k.up == [k.up[0]];
      if k.up[0].AttachTo? && k.up[0].sid in w.sessions { AttachServed(w, order, k.up[0].sid); }
    }
  }

  // ---------- what the client does ----------

  lemma HeadHeard(c: Client, D: set<nat>, ms: seq<Message>)
    requires ms != []
    ensures HearAll(c, ms) == HearAll(Hear(c, ms[0]), ms[1..])
    ensures AllHarmless(c, D, ms) ==> Harmless(c, D, ms[0]) && AllHarmless(Hear(c, ms[0]), D, ms[1..])
  {
    hide Hear, Harmless;
  }

  lemma DeliverServed(w: World)
    requires Inv(w) && Enabled(w, Deliver) && w.link.value.served
    ensures Inv(Next(w, Deliver))
  {
    hide HearAll, AllHarmless;
    var k := w.link.value;
    var r := Next(w, Deliver);
    HeadHeard(w.client, WindowsOf(w, k.session), k.down);
    if !Unheard(k) { NewsTail(k.down, k.session); }
    assert k.down[1..] != [] ==> WindowNews(k.down[1..][0], k.session);
    assert Below(k.down[1..], w.nextWid) by { assert forall i | 0 <= i < |k.down[1..]| :: k.down[1..][i] == k.down[i + 1]; }
    assert k.down[0].WindowAdded? ==> k.down[0].wid < w.nextWid;
    if w.client.gone { GoneStays(w.client, k.down, {}); }
  }

  lemma DeliverGreeting(w: World)
    requires Inv(w) && Enabled(w, Deliver) && !w.link.value.served
    ensures Inv(Next(w, Deliver))
  {
    hide ServedOk;
    var k := w.link.value;
    assert k.down == [k.down[0]] && k.up == [];
  }

  lemma LinkStepKeeps(w: World, step: Step)
    requires Inv(w) && Enabled(w, step) && (step.Connect? || step.Disconnect? || step.GiveUp?)
    ensures Inv(Next(w, step))
  {
    hide HearAll, AllHarmless;
  }

  lemma StepKeeps(w: World, step: Step)
    requires Inv(w) && Enabled(w, step)
    ensures Inv(Next(w, step))
  {
    hide Inv;
    match step {
      case OpenSession => OpenSessionKeeps(w);
      case OpenWindow(sid) => OpenWindowKeeps(w, sid);
      case Serve(order, spawned) => ServeKeeps(w, order, spawned);
      case Deliver => if w.link.value.served { DeliverServed(w); } else { DeliverGreeting(w); }
      case CloseWindow(_, _) => ClosingKeeps(w, step);
      case KillSession(_) => ClosingKeeps(w, step);
      case _ => LinkStepKeeps(w, step);
    }
  }

  // ---------- all runs ----------

  lemma {:induction false} RunKeeps(w: World, steps: seq<Step>)
    requires Inv(w) && Run(w, steps)
    ensures Inv(After(w, steps))
    decreases |steps|
  {
    hide Inv, Next, Enabled;
    if steps != [] {
      StepKeeps(w, steps[0]);
      RunKeeps(Next(w, steps[0]), steps[1..]);
    }
  }

  lemma Reachable(w: World, steps: seq<Step>)
    requires Initial(w) && Run(w, steps)
    ensures Inv(After(w, steps))
  {
    assert Inv(w);
    hide Inv, Initial;
    RunKeeps(w, steps);
  }

  /** Whenever nothing is on its way, an attached client has exactly the windows of its session. */
  lemma QuietClientsAgree(w: World, steps: seq<Step>)
    requires Initial(w) && Run(w, steps)
    requires var r := After(w, steps);
             r.link.Some? && r.link.value.served && r.link.value.up == [] && r.link.value.down == [] && !r.client.gone
    ensures var r := After(w, steps);
            r.client.windows == WindowsOf(r, r.client.sid) && r.client.sid == r.link.value.session && !r.client.resyncing
  {
    Reachable(w, steps);
  }

  /** From the end mark on, the client's windows and what is on its way make up the session's windows. */
  lemma BarrierConverges(w: World, steps: seq<Step>)
    requires Initial(w) && Run(w, steps)
    requires var r := After(w, steps);
             Enabled(r, Deliver) && r.client.resyncing && r.link.value.served && r.link.value.down[0].SessionList?
    ensures var r := Next(After(w, steps), Deliver);
            && !r.client.resyncing
            && HearAll(r.client, r.link.value.down).windows == WindowsOf(r, r.link.value.session)
  {
    var u := After(w, steps);
    Reachable(w, steps);
    StepKeeps(u, Deliver);
    var r := Next(u, Deliver);
    hide AllHarmless, HearAll;
    var ms := r.link.value.down;
    NewsTail(u.link.value.down, u.link.value.session);
    StaysAttached(r.client, r.link.value.session, ms);
    GoneHasNothing(r.client, ms);
  }

  /** Nothing but giving up for good makes a client drop a window that its session still has. */
  lemma NoLiveWindowIsDropped(w: World, steps: seq<Step>, step: Step)
    requires Initial(w) && Run(w, steps) && Enabled(After(w, steps), step) && !step.GiveUp?
    ensures var (u, r) := (After(w, steps), Next(After(w, steps), step));
            (u.client.windows - r.client.windows) * WindowsOf(r, u.client.sid) == {}
  {
    var u := After(w, steps);
    Reachable(w, steps);
    var r := Next(u, step);
    if step.Deliver? {
      var k := u.link.value;
      if k.served {
        HeadHeard(u.client, WindowsOf(u, k.session), k.down);
        assert Harmless(u.client, WindowsOf(u, k.session), k.down[0]);
      } else {
        assert k.down == [k.down[0]];
      }
      hide HearAll, AllHarmless;
    }
  }
}
