/** Every handler of the daemon keeps its tables in agreement. */
module DaemonTableTheorems {
  import opened Bytes
  import opened Wrappers
  import opened RemoteViews
  import R = Replication
  import opened DaemonTables
  import L = Layouts
  import T = LayoutTheorems

  // ---------- windows by their number ----------

  lemma {:induction false} IndexOfOwn(windows: seq<Window>, i: nat)
    requires DistinctIds(windows) && i < |windows|
    ensures IndexOf(windows, windows[i].id) == i
    decreases |windows|
  {
    var j := IndexOf(windows, windows[i].id);
    assert i >= j;
    assert j < |windows| ==> j == i;
  }

  lemma HasWitness(windows: seq<Window>, i: nat, p: nat)
    requires DistinctIds(windows) && i < |windows| && p in windows[i].panes
    ensures Has(windows, windows[i].id, p)
  {
    IndexOfOwn(windows, i);
  }

  /** Appending a window with a new number loses none. */
  lemma HasAfterAppend(windows: seq<Window>, w: Window, wid: nat, p: nat)
    requires Has(windows, wid, p) && DistinctIds(windows + [w])
    ensures Has(windows + [w], wid, p)
  {
    HasWitness(windows + [w], IndexOf(windows, wid), p);
  }

  /** Replacing a window by one with the same number keeps every pane that the new one has. */
  lemma HasAfterUpdate(windows: seq<Window>, i: nat, w: Window, wid: nat, p: nat)
    requires DistinctIds(windows) && i < |windows| && w.id == windows[i].id
    requires Has(windows, wid, p) && (wid == w.id ==> p in w.panes)
    ensures DistinctIds(windows[i := w]) && Has(windows[i := w], wid, p)
  {
    assert DistinctIds(windows[i := w]);
    HasWitness(windows[i := w], IndexOf(windows, wid), p);
  }

  lemma HasAfterRemove(windows: seq<Window>, i: nat, wid: nat, p: nat)
    requires DistinctIds(windows) && i < |windows|
    requires Has(windows, wid, p) && wid != windows[i].id
    ensures DistinctIds(windows[..i] + windows[i + 1..]) && Has(windows[..i] + windows[i + 1..], wid, p)
  {
    var rest := windows[..i] + windows[i + 1..];
    DistinctAfterRemove(windows, i);
    var j := IndexOf(windows, wid);
    HasWitness(rest, if j < i then j else j - 1, p);
  }

  lemma DistinctAfterRemove(windows: seq<Window>, i: nat)
    requires DistinctIds(windows) && i < |windows|
    ensures DistinctIds(windows[..i] + windows[i + 1..])
  {
    var rest := windows[..i] + windows[i + 1..];
    forall a, b | 0 <= a < b < |rest| ensures rest[a].id != rest[b].id {
      assert rest[a] == windows[if a < i then a else a + 1] && rest[b] == windows[if b < i then b else b + 1];
    }
  }

  // ---------- broadcasts move nobody ----------

  lemma ToldStay(clients: map<nat, Client>, sid: nat, note: Note)
    ensures Told(clients, sid, note).Keys == clients.Keys
    ensures forall c | c in clients ::
              Told(clients, sid, note)[c].dead == clients[c].dead && Told(clients, sid, note)[c].attached == clients[c].attached
  {
  }

  // ---------- opening ----------

  lemma OpenWindowSessions(t: Tables, sid: nat, x: Pending)
    requires Agree(t, x) && sid in t.sessions && x.session in {None, Some(sid)}
    ensures SessionsOk(OpenWindow(t, sid), x.(session := None))
  {
    hide Told;
    var r := OpenWindow(t, sid);
    var y := x.(session := None);
    var windows := t.sessions[sid];
    assert SessionOk(t, sid, x);
    forall i | 0 <= i < |windows| ensures windows[i].id != t.nextWid { assert WindowOk(t, sid, windows[i], x); }
    var w := r.sessions[sid][|windows|];
    assert Shaped(w) by { assert w.panes == [t.nextPane] == L.Leaves(w.layout.value); }
    forall s | s in r.sessions ensures SessionOk(r, s, y) {
      if s in t.sessions { assert SessionOk(t, s, x); }
      forall i | 0 <= i < |r.sessions[s]| ensures WindowOk(r, s, r.sessions[s][i], y) {
        if s in t.sessions && i < |t.sessions[s]| {
          var v := t.sessions[s][i];
          assert WindowOk(t, s, v, x);
          forall k | 0 <= k < |v.panes| ensures PaneAt(r, v.panes[k], s, v.id, y) { assert PaneAt(t, v.panes[k], s, v.id, x); }
        }
      }
    }
  }

  lemma OpenWindowRefs(t: Tables, sid: nat, x: Pending)
    requires Agree(t, x) && sid in t.sessions && SessionsOk(OpenWindow(t, sid), x.(session := None))
    ensures RefsOk(OpenWindow(t, sid))
  {
    hide Told, Shaped, WindowOk;
    var r := OpenWindow(t, sid);
    var windows := r.sessions[sid];
    assert SessionOk(r, sid, x.(session := None));
    forall p | p in r.panes ensures RefOk(r, p) {
      if p == t.nextPane {
        HasWitness(windows, |windows| - 1, p);
      } else {
        assert RefOk(t, p);
        if t.panes[p].sid == sid { HasAfterAppend(t.sessions[sid], windows[|windows| - 1], t.panes[p].wid, p); }
      }
    }
  }

  lemma OpenWindowKeeps(t: Tables, sid: nat, x: Pending)
    requires Agree(t, x) && sid in t.sessions && x.session in {None, Some(sid)}
    ensures Agree(OpenWindow(t, sid), x.(session := None))
  {
    OpenWindowSessions(t, sid, x);
    OpenWindowRefs(t, sid, x);
    hide SessionsOk, RefsOk;
    assert forall c | c in t.clients :: ClientOk(t, c);
  }

  // ---------- splitting ----------

  lemma {:induction false} InsertAfterMembers<T>(s: seq<T>, y: T, x: T)
    requires y in s && x !in s && L.Distinct(s)
    ensures var r := T.InsertAfter(s, y, x);
            L.Distinct(r) && |r| == |s| + 1 && forall q :: q in r <==> q in s || q == x
  {
    DistinctTail(s);
    if s[0] != y {
      InsertAfterMembers(s[1..], y, x);
    }
    var tail := if s[0] == y then [x] + s[1..] else T.InsertAfter(s[1..], y, x);
    assert T.InsertAfter(s, y, x) == [s[0]] + tail;
    if s[0] == y {
      forall q ensures q in tail <==> q == x || q in s[1..] {}
      DistinctCons(x, s[1..]);
    }
    DistinctCons(s[0], tail);
    forall q ensures q in s <==> q == s[0] || q in s[1..] {}
  }

  lemma DistinctTail<T>(s: seq<T>)
    requires L.Distinct(s) && s != []
    ensures L.Distinct(s[1..]) && s[0] !in s[1..]
  {
    forall i, j | 0 <= i < j < |s[1..]| ensures s[1..][i] != s[1..][j] { assert s[i + 1] != s[j + 1]; }
  }

  lemma DistinctCons<T>(x: T, s: seq<T>)
    requires L.Distinct(s) && x !in s
    ensures L.Distinct([x] + s)
  {
  }

  lemma {:induction false} RemovedMembers<T>(s: seq<T>, x: T)
    requires x in s && L.Distinct(s)
    ensures var r := T.Removed(s, x);
            L.Distinct(r) && |r| == |s| - 1 && forall q :: q in r <==> q in s && q != x
  {
    DistinctTail(s);
    if s[0] != x {
      RemovedMembers(s[1..], x);
      DistinctCons(s[0], T.Removed(s[1..], x));
    }
    forall q ensures q in s <==> q == s[0] || q in s[1..] {}
  }

  lemma SplitShape(w: Window, target: nat, added: nat, dir: L.Dir, layout: L.Tree)
    requires Shaped(w) && added !in w.panes && L.SplitAt(w.layout.value, target, added, dir) == Some(layout)
    ensures Shaped(w.(layout := Some(layout), panes := w.panes + [added]))
  {
    T.SplitsIffHeld(w.layout.value, target, added, dir);
    T.SplitInsertsAfter(w.layout.value, target, added, dir);
    T.HoldsIsMember(w.layout.value, target);
    InsertAfterMembers(L.Leaves(w.layout.value), target, added);
  }

  /** Sessions after one window of a session has changed, its number staying the same. */
  lemma UpdateSessions(t: Tables, r: Tables, sid: nat, i: nat, w: Window, x: Pending, y: Pending)
    requires SessionsOk(t, x) && sid in t.sessions && i < |t.sessions[sid]|
    requires r.sessions == t.sessions[sid := t.sessions[sid][i := w]] && w.id == t.sessions[sid][i].id
    requires r.nextSid == t.nextSid && x.session == y.session && WindowOk(r, sid, w, y)
    requires forall s, j | s in t.sessions && 0 <= j < |t.sessions[s]| ::
               WindowOk(t, s, t.sessions[s][j], x) && (s != sid || j != i) ==> WindowOk(r, s, t.sessions[s][j], y)
    ensures SessionsOk(r, y)
  {
    hide WindowOk;
    forall s | s in r.sessions ensures SessionOk(r, s, y) {
      assert SessionOk(t, s, x);
      forall j | 0 <= j < |r.sessions[s]| ensures WindowOk(r, s, r.sessions[s][j], y) {
        assert WindowOk(t, s, t.sessions[s][j], x);
      }
    }
  }

  lemma SplitSessions(t: Tables, sid: nat, i: nat, target: nat, dir: L.Dir, layout: L.Tree)
    requires Agree(t, SETTLED) && sid in t.sessions && i < |t.sessions[sid]|
    requires var w := t.sessions[sid][i];
             w.layout.Some? && L.SplitAt(w.layout.value, target, t.nextPane, dir) == Some(layout)
             && i == IndexOf(t.sessions[sid], w.id)
    ensures SessionsOk(SplitPane(t, sid, t.sessions[sid][i].id, target, dir), SETTLED)
  {
    hide Told, Shaped;
    var r := SplitPane(t, sid, t.sessions[sid][i].id, target, dir);
    var (w, p) := (t.sessions[sid][i], t.nextPane);
    var w' := w.(layout := Some(layout), panes := w.panes + [p]);
    assert SessionOk(t, sid, SETTLED) && WindowOk(t, sid, w, SETTLED);
    forall k | 0 <= k < |w'.panes| ensures PaneAt(r, w'.panes[k], sid, w.id, SETTLED) {
      assert k < |w.panes| ==> PaneAt(t, w.panes[k], sid, w.id, SETTLED);
    }
    assert p !in w.panes;
    SplitShape(w, target, p, dir, layout);
    forall s, j | s in t.sessions && 0 <= j < |t.sessions[s]| && WindowOk(t, s, t.sessions[s][j], SETTLED)
      ensures WindowOk(r, s, t.sessions[s][j], SETTLED)
    {
      var v := t.sessions[s][j];
      forall k | 0 <= k < |v.panes| ensures PaneAt(r, v.panes[k], s, v.id, SETTLED) { assert PaneAt(t, v.panes[k], s, v.id, SETTLED); }
    }
    UpdateSessions(t, r, sid, i, w', SETTLED, SETTLED);
  }

  lemma SplitRefs(t: Tables, r: Tables, sid: nat, i: nat, w: Window)
    requires RefsOk(t) && NumbersOk(t) && sid in t.sessions && i < |t.sessions[sid]| && DistinctIds(t.sessions[sid])
    requires r.sessions == t.sessions[sid := t.sessions[sid][i := w]] && w.id == t.sessions[sid][i].id
    requires w.panes == t.sessions[sid][i].panes + [t.nextPane] && r.nextPane == t.nextPane + 1 && r.deadPanes == t.deadPanes
    requires r.panes == t.panes[t.nextPane := R.PaneRef(sid, w.id, [], 0)] && r.home == t.home[t.nextPane := (sid, w.id)]
    ensures RefsOk(r)
  {
    var windows := t.sessions[sid];
    forall p | p in r.panes ensures RefOk(r, p) {
      if p == t.nextPane {
        assert DistinctIds(windows[i := w]);
        HasWitness(windows[i := w], i, p);
      } else {
        assert RefOk(t, p);
        if t.panes[p].sid == sid {
          HasWitness(windows, IndexOf(windows, t.panes[p].wid), p);
          assert t.panes[p].wid == w.id ==> IndexOf(windows, w.id) == i by { IndexOfOwn(windows, i); }
          HasAfterUpdate(windows, i, w, t.panes[p].wid, p);
        }
      }
    }
  }

  lemma SplitKeeps(t: Tables, sid: nat, wid: nat, target: nat, dir: L.Dir)
    requires Agree(t, SETTLED) && sid in t.sessions
    ensures Agree(SplitPane(t, sid, wid, target, dir), SETTLED)
  {
    hide Told, Has;
    var windows := t.sessions[sid];
    var i := IndexOf(windows, wid);
    var r := SplitPane(t, sid, wid, target, dir);
    assert SessionOk(t, sid, SETTLED);
    if i < |windows| && r.sessions != t.sessions {
      var w := windows[i];
      assert WindowOk(t, sid, w, SETTLED);
      var layout := L.SplitAt(w.layout.value, target, t.nextPane, dir).value;
      SplitSessions(t, sid, i, target, dir, layout);
      SplitRefs(t, r, sid, i, w.(layout := Some(layout), panes := w.panes + [t.nextPane]));
      ToldStay(t.clients, sid, Laid(sid, wid, w.panes + [t.nextPane]));
      hide SessionsOk, RefsOk, WindowOk, Shaped, DistinctIds;
      forall c | c in r.clients ensures ClientOk(r, c) { assert ClientOk(t, c); }
    } else {
      SameButNumbers(t, r);
    }
  }

  /** Taking a pane number out of use changes nothing else. */
  lemma SameButNumbers(t: Tables, r: Tables)
    requires Agree(t, SETTLED) && r == t.(nextPane := r.nextPane, nextSid := r.nextSid)
    requires r.nextPane >= t.nextPane && r.nextSid >= t.nextSid
    ensures Agree(r, SETTLED)
  {
    hide Shaped;
    forall s | s in r.sessions ensures SessionOk(r, s, SETTLED) {
      assert SessionOk(t, s, SETTLED);
      forall j | 0 <= j < |r.sessions[s]| ensures WindowOk(r, s, r.sessions[s][j], SETTLED) {
        assert WindowOk(t, s, t.sessions[s][j], SETTLED);
      }
    }
    forall p | p in r.panes ensures RefOk(r, p) { assert RefOk(t, p); }
    forall c | c in r.clients ensures ClientOk(r, c) { assert ClientOk(t, c); }
  }

  // ---------- closing ----------

  lemma ReleasedStay(clients: map<nat, Client>, sid: nat)
    ensures Released(clients, sid).Keys == clients.Keys
    ensures forall c | c in clients ::
              && Released(clients, sid)[c].dead == clients[c].dead
              && Released(clients, sid)[c].attached == if Hears(clients[c], sid) then 0 else clients[c].attached
  {
  }

  lemma PaneIn(windows: seq<Window>, i: nat, k: nat)
    requires i < |windows| && k < |windows[i].panes|
    ensures windows[i].panes[k] in PanesOf(windows)
  {
  }

  lemma PaneOfSession(t: Tables, sid: nat, p: nat, x: Pending)
    requires SessionsOk(t, x) && sid in t.sessions && p in PanesOf(t.sessions[sid])
    ensures p in t.home && t.home[p].0 == sid
  {
    hide Shaped;
    assert SessionOk(t, sid, x);
    var i, k :| 0 <= i < |t.sessions[sid]| && 0 <= k < |t.sessions[sid][i].panes| && t.sessions[sid][i].panes[k] == p;
    assert WindowOk(t, sid, t.sessions[sid][i], x);
    assert PaneAt(t, p, sid, t.sessions[sid][i].id, x);
  }

  /** A session ends; a window of it may have been on its way out, or the session be without any. */
  lemma EndSessionKeeps(t: Tables, sid: nat, x: Pending)
    requires Agree(t, x) && sid in t.sessions && x.session in {None, Some(sid)}
    requires x.window.Some? ==> forall s | s in t.sessions && s != sid ::
               forall j | 0 <= j < |t.sessions[s]| :: t.sessions[s][j].id != x.window.value
    ensures Agree(EndSession(t, sid), Pending(None, None, x.pane))
  {
    hide Released, Shaped, Has, PanesOf;
    var r := EndSession(t, sid);
    var y := Pending(None, None, x.pane);
    forall s | s in r.sessions ensures SessionOk(r, s, y) {
      assert SessionOk(t, s, x);
      forall j | 0 <= j < |r.sessions[s]| ensures WindowOk(r, s, r.sessions[s][j], y) {
        var v := t.sessions[s][j];
        assert WindowOk(t, s, v, x);
        forall k | 0 <= k < |v.panes| ensures PaneAt(r, v.panes[k], s, v.id, y) {
          assert PaneAt(t, v.panes[k], s, v.id, x);
          if v.panes[k] in PanesOf(t.sessions[sid]) { PaneOfSession(t, sid, v.panes[k], x); }
        }
      }
    }
    forall p | p in r.panes ensures RefOk(r, p) {
      assert RefOk(t, p);
      if t.panes[p].sid == sid { HasIsIn(t.sessions[sid], t.panes[p].wid, p); }
    }
    ReleasedStay(t.clients, sid);
    forall c | c in r.clients ensures ClientOk(r, c) { assert ClientOk(t, c); }
  }

  lemma HasIsIn(windows: seq<Window>, wid: nat, p: nat)
    requires Has(windows, wid, p)
    ensures p in PanesOf(windows)
  {
    var i := IndexOf(windows, wid);
    var k :| 0 <= k < |windows[i].panes| && windows[i].panes[k] == p;
    PaneIn(windows, i, k);
  }

  /** The tables right after a window has been taken out, before an emptied session is ended. */
  function WindowTaken(t: Tables, sid: nat, i: nat): Tables
    requires sid in t.sessions && i < |t.sessions[sid]|
  {
    var windows := t.sessions[sid];
    t.(panes := t.panes - PanesOf([windows[i]]), clients := Told(t.clients, sid, Closed(sid, windows[i].id)),
       sessions := t.sessions[sid := windows[..i] + windows[i + 1..]])
  }

  lemma PanesOfOne(w: Window, p: nat)
    ensures p in PanesOf([w]) <==> p in w.panes
  {
    if p in w.panes {
      var k :| 0 <= k < |w.panes| && w.panes[k] == p;
      PaneIn([w], 0, k);
    }
  }

  lemma TakenSessions(t: Tables, sid: nat, i: nat, x: Pending)
    requires Agree(t, x) && x.session.None? && sid in t.sessions && i < |t.sessions[sid]|
    requires x.window in {None, Some(t.sessions[sid][i].id)}
    ensures SessionsOk(WindowTaken(t, sid, i), Pending(Some(sid), None, x.pane))
  {
    hide Told, Shaped, PanesOf;
    var r := WindowTaken(t, sid, i);
    var y := Pending(Some(sid), None, x.pane);
    var gone := t.sessions[sid][i];
    assert SessionOk(t, sid, x) && WindowOk(t, sid, gone, x);
    DistinctAfterRemove(t.sessions[sid], i);
    forall s | s in r.sessions ensures SessionOk(r, s, y) {
      assert SessionOk(t, s, x);
      forall j | 0 <= j < |r.sessions[s]| ensures WindowOk(r, s, r.sessions[s][j], y) {
        var at := if s == sid && j >= i then j + 1 else j;
        var v := t.sessions[s][at];
        assert r.sessions[s][j] == v;
        assert WindowOk(t, s, v, x);
        assert v.id != gone.id;
        forall k | 0 <= k < |v.panes| ensures PaneAt(r, v.panes[k], s, v.id, y) {
          assert PaneAt(t, v.panes[k], s, v.id, x);
          PanesOfOne(gone, v.panes[k]);
        }
      }
    }
  }

  lemma TakenRefs(t: Tables, sid: nat, i: nat, x: Pending)
    requires Agree(t, x) && sid in t.sessions && i < |t.sessions[sid]|
    ensures RefsOk(WindowTaken(t, sid, i))
  {
    hide Told, Shaped, PanesOf, WindowOk;
    var r := WindowTaken(t, sid, i);
    var windows := t.sessions[sid];
    assert SessionOk(t, sid, x);
    forall p | p in r.panes ensures RefOk(r, p) {
      assert RefOk(t, p);
      PanesOfOne(windows[i], p);
      if t.panes[p].sid == sid {
        IndexOfOwn(windows, i);
        HasAfterRemove(windows, i, t.panes[p].wid, p);
      }
    }
  }

  lemma WindowTakenKeeps(t: Tables, sid: nat, i: nat, x: Pending)
    requires Agree(t, x) && x.session.None? && sid in t.sessions && i < |t.sessions[sid]|
    requires x.window in {None, Some(t.sessions[sid][i].id)}
    ensures Agree(WindowTaken(t, sid, i), Pending(Some(sid), None, x.pane))
  {
    hide Told, PanesOf, SessionsOk, RefsOk;
    var u := WindowTaken(t, sid, i);
    TakenSessions(t, sid, i, x);
    TakenRefs(t, sid, i, x);
    ToldStay(t.clients, sid, Closed(sid, t.sessions[sid][i].id));
    forall c | c in u.clients ensures ClientOk(u, c) { assert ClientOk(t, c); }
  }

  lemma CloseWindowKeeps(t: Tables, sid: nat, wid: nat, x: Pending)
    requires Agree(t, x) && x.session.None? && sid in t.sessions && x.window in {None, Some(wid)}
    requires IndexOf(t.sessions[sid], wid) == |t.sessions[sid]| ==> x.window.None?
    ensures Agree(CloseWindow(t, sid, wid), Pending(None, None, x.pane))
  {
    hide Agree, Told, PanesOf, EndSession;
    var windows := t.sessions[sid];
    var i := IndexOf(windows, wid);
    assert i < |windows| ==> windows[i].id == wid;
    if i < |windows| {
      var u := WindowTaken(t, sid, i);
      WindowTakenKeeps(t, sid, i, x);
      if |windows| == 1 {
        EndSessionKeeps(u, sid, Pending(Some(sid), None, x.pane));
      } else {
        SettleSession(u, sid, x.pane);
      }
    }
  }

  lemma SettleSession(t: Tables, sid: nat, loose: Option<nat>)
    requires Agree(t, Pending(Some(sid), None, loose)) && sid in t.sessions && t.sessions[sid] != []
    ensures Agree(t, Pending(None, None, loose))
  {
    hide Shaped, Has, RefsOk, ClientsOk, NumbersOk;
    var (x, y) := (Pending(Some(sid), None, loose), Pending(None, None, loose));
    forall s | s in t.sessions ensures SessionOk(t, s, y) {
      assert SessionOk(t, s, x);
      forall j | 0 <= j < |t.sessions[s]| ensures WindowOk(t, s, t.sessions[s][j], y) {
        assert WindowOk(t, s, t.sessions[s][j], x);
        forall k | 0 <= k < |t.sessions[s][j].panes| ensures PaneAt(t, t.sessions[s][j].panes[k], s, t.sessions[s][j].id, y) {
          assert PaneAt(t, t.sessions[s][j].panes[k], s, t.sessions[s][j].id, x);
        }
      }
    }
  }

  // ---------- removing a pane ----------

  /** A window without one of its panes is in shape again, or empty. */
  lemma ShapeWithout(w: Window, p: nat)
    requires Shaped(w) && p in w.panes
    ensures var r := w.(layout := LayoutWithout(w.layout, p), panes := T.Removed(w.panes, p));
            (r.panes == [] || Shaped(r)) && (forall q :: q in r.panes <==> q in w.panes && q != p)
  {
    var l := w.layout.value;
    RemovedMembers(w.panes, p);
    if l == L.Leaf(p) {
      assert forall k | 0 <= k < |w.panes| :: w.panes[k] in L.Leaves(l);
      assert w.panes[0] == w.panes[|w.panes| - 1];
    } else {
      T.HoldsIsMember(l, p);
      assert l.Split?;
      T.WithoutRemovesLeaf(l, p);
      RemovedMembers(L.Leaves(l), p);
      hide L.Leaves, T.Removed, L.Without;
      assert L.Leaves(L.Without(l, p).value)[0] in T.Removed(w.panes, p);
    }
  }

  /** The tables right after a pane has left its window. */
  function PaneTaken(t: Tables, p: nat, sid: nat, i: nat): Tables
    requires HeldIn(t, p, sid, i)
  {
    var w := t.sessions[sid][i];
    t.(clients := Told(t.clients, sid, Exited(p)),
       sessions := t.sessions[sid := t.sessions[sid][i := w.(layout := LayoutWithout(w.layout, p), panes := T.Removed(w.panes, p))]])
  }

  lemma PaneTakenSessions(t: Tables, p: nat, sid: nat, i: nat)
    requires Agree(t, Pending(None, None, Some(p))) && HeldIn(t, p, sid, i)
    ensures var u := PaneTaken(t, p, sid, i);
            var w := u.sessions[sid][i];
            SessionsOk(u, Pending(None, if w.panes == [] then Some(w.id) else None, None))
  {
    hide Told, T.Removed, LayoutWithout, L.Leaves;
    var x := Pending(None, None, Some(p));
    var u := PaneTaken(t, p, sid, i);
    var (w, w') := (t.sessions[sid][i], u.sessions[sid][i]);
    var y := Pending(None, if w'.panes == [] then Some(w'.id) else None, None);
    assert SessionOk(t, sid, x) && WindowOk(t, sid, w, x);
    ShapeWithout(w, p);
    hide Shaped;
    forall k | 0 <= k < |w'.panes| ensures PaneAt(u, w'.panes[k], sid, w.id, y) {
      assert w'.panes[k] in w'.panes;
      var g :| 0 <= g < |w.panes| && w.panes[g] == w'.panes[k];
      assert PaneAt(t, w.panes[g], sid, w.id, x);
    }
    assert PaneAt(t, p, sid, w.id, x) by {
      var g :| 0 <= g < |w.panes| && w.panes[g] == p;
      assert PaneAt(t, w.panes[g], sid, w.id, x);
    }
    forall s, j | s in t.sessions && 0 <= j < |t.sessions[s]| && WindowOk(t, s, t.sessions[s][j], x) && (s != sid || j != i)
      ensures WindowOk(u, s, t.sessions[s][j], y)
    {
      var v := t.sessions[s][j];
      assert v.id != w.id by { assert s == sid ==> DistinctIds(t.sessions[s]); }
      forall k | 0 <= k < |v.panes| ensures PaneAt(u, v.panes[k], s, v.id, y) {
        assert PaneAt(t, v.panes[k], s, v.id, x);
      }
    }
    UpdateSessions(t, u, sid, i, w', x, y);
  }

  lemma PaneTakenRefs(t: Tables, p: nat, sid: nat, i: nat)
    requires Agree(t, Pending(None, None, Some(p))) && HeldIn(t, p, sid, i) && p !in t.panes
    ensures RefsOk(PaneTaken(t, p, sid, i))
  {
    hide Told, T.Removed, LayoutWithout, L.Leaves;
    var x := Pending(None, None, Some(p));
    var u := PaneTaken(t, p, sid, i);
    var windows := t.sessions[sid];
    assert SessionOk(t, sid, x) && WindowOk(t, sid, windows[i], x);
    ShapeWithout(windows[i], p);
    hide Shaped, SessionsOk;
    forall q | q in u.panes ensures RefOk(u, q) {
      assert RefOk(t, q);
      if t.panes[q].sid == sid {
        IndexOfOwn(windows, i);
        HasAfterUpdate(windows, i, u.sessions[sid][i], t.panes[q].wid, q);
      }
    }
  }

  lemma DropPaneKeeps(t: Tables, p: nat, sid: nat, i: nat)
    requires Agree(t, Pending(None, None, Some(p))) && HeldIn(t, p, sid, i) && p !in t.panes
    ensures Agree(DropPane(t, p, sid, i), SETTLED)
  {
    PaneTakenSessions(t, p, sid, i);
    PaneTakenRefs(t, p, sid, i);
    hide Told, T.Removed, LayoutWithout, RefsOk, Shaped;
    var u := PaneTaken(t, p, sid, i);
    var w := u.sessions[sid][i];
    ToldStay(t.clients, sid, Exited(p));
    forall c | c in u.clients ensures ClientOk(u, c) { assert ClientOk(t, c); }
    if w.panes == [] {
      var y := Pending(None, Some(w.id), None);
      assert SessionOk(u, sid, y);
      IndexOfOwn(u.sessions[sid], i);
      CloseWindowKeeps(u, sid, w.id, y);
    } else {
      var note := Laid(sid, w.id, w.panes);
      ToldStay(u.clients, sid, note);
      OnlyTold(u, sid, note);
    }
  }

  lemma OnlyTold(t: Tables, sid: nat, note: Note)
    requires Agree(t, SETTLED)
    ensures Agree(t.(clients := Told(t.clients, sid, note)), SETTLED)
  {
    hide Told;
    ToldStay(t.clients, sid, note);
    OnlyClients(t, t.(clients := Told(t.clients, sid, note)));
  }

  /** Clients may come, go, be sent things and be attached to any session there is. */
  lemma OnlyClients(t: Tables, r: Tables)
    requires Agree(t, SETTLED) && r == t.(clients := r.clients)
    requires forall c | c in r.clients ::
               r.clients[c].dead || r.clients[c].attached == 0 || r.clients[c].attached in t.sessions
               || (c in t.clients && r.clients[c].dead == t.clients[c].dead && r.clients[c].attached == t.clients[c].attached)
    ensures Agree(r, SETTLED)
  {
    hide Shaped, Has;
    forall s | s in r.sessions ensures SessionOk(r, s, SETTLED) {
      assert SessionOk(t, s, SETTLED);
      forall j | 0 <= j < |r.sessions[s]| ensures WindowOk(r, s, r.sessions[s][j], SETTLED) {
        assert WindowOk(t, s, t.sessions[s][j], SETTLED);
        forall k | 0 <= k < |r.sessions[s][j].panes| ensures PaneAt(r, r.sessions[s][j].panes[k], s, r.sessions[s][j].id, SETTLED) {
          assert PaneAt(t, t.sessions[s][j].panes[k], s, t.sessions[s][j].id, SETTLED);
        }
      }
    }
    forall p | p in r.panes ensures RefOk(r, p) { assert RefOk(t, p); }
    forall c | c in r.clients ensures ClientOk(r, c) { assert c in t.clients ==> ClientOk(t, c); }
  }

  /** A pane that is in no window is not missed. */
  lemma NobodyMisses(t: Tables, p: nat)
    requires Agree(t, Pending(None, None, Some(p)))
    requires p in t.home && t.home[p].0 in t.sessions ==> !Has(t.sessions[t.home[p].0], t.home[p].1, p)
    ensures Agree(t, SETTLED)
  {
    var x := Pending(None, None, Some(p));
    hide Shaped, RefsOk, ClientsOk;
    forall s | s in t.sessions ensures SessionOk(t, s, SETTLED) {
      assert SessionOk(t, s, x);
      forall j | 0 <= j < |t.sessions[s]| ensures WindowOk(t, s, t.sessions[s][j], SETTLED) {
        var v := t.sessions[s][j];
        assert WindowOk(t, s, v, x);
        forall k | 0 <= k < |v.panes| ensures PaneAt(t, v.panes[k], s, v.id, SETTLED) {
          assert PaneAt(t, v.panes[k], s, v.id, x);
          if v.panes[k] == p { HasWitness(t.sessions[s], j, p); }
        }
      }
    }
  }

  lemma RemoveDeadKeeps(t: Tables, p: nat)
    requires Agree(t, Pending(None, None, Some(p))) && p !in t.panes
    ensures Agree(RemoveDead(t, p), SETTLED)
  {
    hide Agree, DropPane;
    if p in t.home && t.home[p].0 in t.sessions && Has(t.sessions[t.home[p].0], t.home[p].1, p) {
      DropPaneKeeps(t, p, t.home[p].0, IndexOf(t.sessions[t.home[p].0], t.home[p].1));
    } else {
      NobodyMisses(t, p);
    }
  }

  /** One pane fewer in the index or in the queue leaves just that pane to be removed. */
  lemma Loosened(t: Tables, r: Tables, p: nat)
    requires Agree(t, SETTLED) && r == t.(panes := r.panes, deadPanes := r.deadPanes)
    requires r.panes.Keys <= t.panes.Keys && (forall q | q in r.panes :: r.panes[q] == t.panes[q])
    requires forall q :: q in r.deadPanes ==> q in t.deadPanes || (q == p && q !in r.panes && q < t.nextPane)
    requires forall q | q != p :: (q in t.panes ==> q in r.panes) && (q in t.deadPanes ==> q in r.deadPanes)
    ensures Agree(r, Pending(None, None, Some(p)))
  {
    var x := Pending(None, None, Some(p));
    hide Shaped, Has;
    forall s | s in r.sessions ensures SessionOk(r, s, x) {
      assert SessionOk(t, s, SETTLED);
      forall j | 0 <= j < |r.sessions[s]| ensures WindowOk(r, s, r.sessions[s][j], x) {
        var v := t.sessions[s][j];
        assert WindowOk(t, s, v, SETTLED);
        forall k | 0 <= k < |v.panes| ensures PaneAt(r, v.panes[k], s, v.id, x) { assert PaneAt(t, v.panes[k], s, v.id, SETTLED); }
      }
    }
    forall q | q in r.panes ensures RefOk(r, q) { assert RefOk(t, q); }
    forall c | c in r.clients ensures ClientOk(r, c) { assert ClientOk(t, c); }
    forall k | 0 <= k < |r.deadPanes| ensures r.deadPanes[k] < r.nextPane { assert r.deadPanes[k] in r.deadPanes; }
  }

  lemma {:induction false} SweepKeeps(t: Tables)
    requires Agree(t, SETTLED)
    ensures Agree(Sweep(t), SETTLED) && Sweep(t).deadPanes == []
    decreases |t.deadPanes|
  {
    if t.deadPanes != [] {
      var (p, rest) := (t.deadPanes[0], t.deadPanes[1..]);
      hide RemoveDead;
      var u := t.(deadPanes := rest);
      assert t.deadPanes == [p] + rest;
      Loosened(t, u, p);
      assert p in t.panes ==> RefOk(t, p);
      RemoveDeadKeeps(u, p);
      QueueIsNotRead(t, p, rest);
      SweepKeeps(RemoveDead(u, p));
    }
  }

  lemma QueueIsNotRead(t: Tables, p: nat, queue: seq<nat>)
    ensures RemoveDead(t.(deadPanes := queue), p) == RemoveDead(t, p).(deadPanes := queue)
  {
    hide Told, Released, LayoutWithout, PanesOf, IndexOf, DropPane;
    if p in t.home && t.home[p].0 in t.sessions && HeldIn(t, p, t.home[p].0, IndexOf(t.sessions[t.home[p].0], t.home[p].1)) {
      DropReadsNoQueue(t, p, t.home[p].0, IndexOf(t.sessions[t.home[p].0], t.home[p].1), queue);
    }
  }

  lemma DropReadsNoQueue(t: Tables, p: nat, sid: nat, i: nat, queue: seq<nat>)
    requires HeldIn(t, p, sid, i)
    ensures DropPane(t.(deadPanes := queue), p, sid, i) == DropPane(t, p, sid, i).(deadPanes := queue)
  {
    hide Told, Released, LayoutWithout, PanesOf, IndexOf, CloseWindow;
    var u := PaneTaken(t, p, sid, i);
    TakenReadsNoQueue(t, p, sid, i, queue);
    CloseReadsNoQueue(u, sid, u.sessions[sid][i].id, queue);
  }

  lemma TakenReadsNoQueue(t: Tables, p: nat, sid: nat, i: nat, queue: seq<nat>)
    requires HeldIn(t, p, sid, i)
    ensures PaneTaken(t.(deadPanes := queue), p, sid, i) == PaneTaken(t, p, sid, i).(deadPanes := queue)
  {
    hide Told, LayoutWithout, T.Removed;
  }

  lemma CloseReadsNoQueue(t: Tables, sid: nat, wid: nat, queue: seq<nat>)
    requires sid in t.sessions
    ensures CloseWindow(t.(deadPanes := queue), sid, wid) == CloseWindow(t, sid, wid).(deadPanes := queue)
  {
    hide Told, Released, PanesOf, IndexOf;
  }

  // ---------- everything that can happen ----------

  lemma SidsKnown(t: Tables)
    requires Agree(t, SETTLED)
    ensures forall p | p in t.panes :: t.panes[p].sid in t.sessions
  {
    forall p | p in t.panes ensures t.panes[p].sid in t.sessions { assert RefOk(t, p); }
  }

  lemma CreateSessionKeeps(t: Tables, c: nat)
    requires Agree(t, SETTLED) && c in t.clients
    ensures Agree(CreateSession(t, c), SETTLED)
  {
    var s := t.nextSid;
    var u := SessionMade(t);
    SessionMadeKeeps(t);
    OpenWindowKeeps(u, s, Pending(Some(s), None, None));
    OpenedClients(u, s);
    hide Agree, OpenWindow;
    OnlyClients(OpenWindow(u, s), CreateSession(t, c));
  }

  lemma SessionMadeKeeps(t: Tables)
    requires Agree(t, SETTLED)
    ensures Agree(SessionMade(t), Pending(Some(t.nextSid), None, None))
  {
    hide Shaped, Has;
    var s := t.nextSid;
    var u := SessionMade(t);
    var x := Pending(Some(s), None, None);
    forall q | q in u.sessions ensures SessionOk(u, q, x) {
      if q != s {
        assert SessionOk(t, q, SETTLED);
        forall j | 0 <= j < |u.sessions[q]| ensures WindowOk(u, q, u.sessions[q][j], x) {
          assert WindowOk(t, q, t.sessions[q][j], SETTLED);
          forall k | 0 <= k < |u.sessions[q][j].panes| ensures PaneAt(u, u.sessions[q][j].panes[k], q, u.sessions[q][j].id, x) {
            assert PaneAt(t, t.sessions[q][j].panes[k], q, t.sessions[q][j].id, SETTLED);
          }
        }
      }
    }
    assert s in t.sessions ==> SessionOk(t, s, SETTLED);
    forall p | p in u.panes ensures RefOk(u, p) { assert RefOk(t, p); }
    forall d | d in u.clients ensures ClientOk(u, d) { assert ClientOk(t, d); }
  }

  lemma OpenedClients(t: Tables, sid: nat)
    requires sid in t.sessions
    ensures OpenWindow(t, sid).clients.Keys == t.clients.Keys
  {
  }

  lemma HandleKeeps(t: Tables, c: nat, r: Request)
    requires Agree(t, SETTLED) && c in t.clients && !t.clients[c].dead
    requires forall p | p in t.panes :: t.panes[p].sid in t.sessions
    ensures Agree(Handle(t, c, r), SETTLED)
  {
    hide Agree, OpenWindow, CloseWindow, EndSession, SplitPane, RemoveDead, CreateSession, WindowNotes, PaneNotes, AllPanes;
    var sid := t.clients[c].attached;
    match r {
      case NewSession(spawned) =>
        if spawned {
          CreateSessionKeeps(t, c);
        } else {
          var u := t.(nextSid := t.nextSid + 1, nextPane := t.nextPane + 1);
          SameButNumbers(t, u);
          OnlyClients(u, Handle(t, c, r));
        }
      case Attach(_, _) => OnlyClients(t, Handle(t, c, r));
      case Detach => OnlyClients(t, Handle(t, c, r));
      case Split(p, dir, spawned) =>
        if MayName(t, c, p) {
          if spawned { SplitKeeps(t, sid, t.panes[p].wid, p, dir); } else { SameButNumbers(t, Handle(t, c, r)); }
        }
      case ClosePane(p) =>
        if MayName(t, c, p) {
          var u := t.(panes := t.panes - {p});
          Loosened(t, u, p);
          RemoveDeadKeeps(u, p);
        }
      case NewWindow(spawned) =>
        if sid in t.sessions {
          if spawned { OpenWindowKeeps(t, sid, SETTLED); } else { SameButNumbers(t, Handle(t, c, r)); }
        }
      case CloseTab(wid) => if sid in t.sessions { CloseWindowKeeps(t, sid, wid, SETTLED); }
      case KillSession(s) => if s in t.sessions { EndSessionKeeps(t, s, SETTLED); }
    }
  }

  lemma OutputKeeps(t: Tables, p: nat, data: seq<byte>)
    requires Agree(t, SETTLED) && p in t.panes
    ensures Agree(Recorded(t, p, data), SETTLED)
  {
    hide Told, Shaped, Has;
    var r := Recorded(t, p, data);
    forall s | s in r.sessions ensures SessionOk(r, s, SETTLED) {
      assert SessionOk(t, s, SETTLED);
      forall j | 0 <= j < |r.sessions[s]| ensures WindowOk(r, s, r.sessions[s][j], SETTLED) {
        assert WindowOk(t, s, t.sessions[s][j], SETTLED);
        forall k | 0 <= k < |r.sessions[s][j].panes| ensures PaneAt(r, r.sessions[s][j].panes[k], s, r.sessions[s][j].id, SETTLED) {
          assert PaneAt(t, t.sessions[s][j].panes[k], s, t.sessions[s][j].id, SETTLED);
        }
      }
    }
    forall q | q in r.panes ensures RefOk(r, q) { assert RefOk(t, q); }
    ToldStay(t.clients, t.panes[p].sid, OnPane(p, Out(data)));
    forall c | c in r.clients ensures ClientOk(r, c) { assert ClientOk(t, c); }
  }

  lemma DeathKeeps(t: Tables, p: nat)
    requires Agree(t, SETTLED) && p in t.panes
    ensures Agree(t.(panes := t.panes - {p}, deadPanes := t.deadPanes + [p]), SETTLED)
  {
    var r := t.(panes := t.panes - {p}, deadPanes := t.deadPanes + [p]);
    assert RefOk(t, p);
    Loosened(t, r, p);
    hide Shaped, Has;
    var x := Pending(None, None, Some(p));
    forall s | s in r.sessions ensures SessionOk(r, s, SETTLED) {
      assert SessionOk(r, s, x);
      forall j | 0 <= j < |r.sessions[s]| ensures WindowOk(r, s, r.sessions[s][j], SETTLED) {
        assert WindowOk(r, s, r.sessions[s][j], x);
        forall k | 0 <= k < |r.sessions[s][j].panes| ensures PaneAt(r, r.sessions[s][j].panes[k], s, r.sessions[s][j].id, SETTLED) {
          assert PaneAt(r, r.sessions[s][j].panes[k], s, r.sessions[s][j].id, x);
        }
      }
    }
  }

  lemma NextKeeps(t: Tables, step: Step)
    requires Agree(t, SETTLED)
    requires forall p | p in t.panes :: t.panes[p].sid in t.sessions
    ensures Agree(Next(t, step), SETTLED)
  {
    hide Agree, Handle, Recorded, Sweep;
    match step {
      case Ask(c, r) => if c in t.clients && !t.clients[c].dead { HandleKeeps(t, c, r); }
      case PaneOutput(p, data) => if p in t.panes { OutputKeeps(t, p, data); }
      case PaneDeath(p) => if p in t.panes { DeathKeeps(t, p); }
      case SweepPanes => SweepKeeps(t);
      case _ => OnlyClients(t, Next(t, step));
    }
  }


  /** A daemon that has just started. */
  function Start(): (t: Tables)
    ensures Agree(t, SETTLED)
  {
    Tables(map[], map[], [], map[], 1, 1, 1, map[], map[])
  }

  /** The tables after any run of arrivals, requests, output, deaths and sweeps: they always agree. */
  function After(t: Tables, steps: seq<Step>): (r: Tables)
    requires Agree(t, SETTLED)
    ensures Agree(r, SETTLED)
    decreases |steps|
  {
    if steps == [] then t
    else
      SidsKnown(t);
      NextKeeps(t, steps[0]);
      After(Next(t, steps[0]), steps[1..])
  }

  /** What agreement means for one pane of one window, in every run of the daemon. */
  lemma PaneIsWhereItSays(steps: seq<Step>, sid: nat, i: nat, p: nat)
    requires HeldIn(After(Start(), steps), p, sid, i)
    ensures var t := After(Start(), steps);
            var w := t.sessions[sid][i];
            && w.layout.Some? && L.Holds(w.layout.value, p)
            && (p in t.panes || p in t.deadPanes)
            && (p in t.panes ==> t.panes[p].sid == sid && t.panes[p].wid == w.id)
            && forall s, j {:trigger HeldIn(t, p, s, j)} :: HeldIn(t, p, s, j) ==> s == sid && j == i
  {
    var t := After(Start(), steps);
    PaneIsHome(t, p, sid, i);
    T.HoldsIsMember(t.sessions[sid][i].layout.value, p);
    if p in t.panes { assert RefOk(t, p); }
    forall s, j | HeldIn(t, p, s, j) ensures s == sid && j == i {
      PaneIsHome(t, p, s, j);
      assert SessionOk(t, sid, SETTLED);
    }
  }

  lemma PaneIsHome(t: Tables, p: nat, sid: nat, i: nat)
    requires Agree(t, SETTLED) && HeldIn(t, p, sid, i)
    ensures var w := t.sessions[sid][i];
            PaneAt(t, p, sid, w.id, SETTLED) && w.layout.Some? && p in L.Leaves(w.layout.value)
  {
    var w := t.sessions[sid][i];
    assert SessionOk(t, sid, SETTLED) && WindowOk(t, sid, w, SETTLED);
    var k :| 0 <= k < |w.panes| && w.panes[k] == p;
    assert PaneAt(t, w.panes[k], sid, w.id, SETTLED);
  }

  /** The search through all sessions and windows finds a pane exactly where its home says. */
  lemma HomeIsWhereHeld(t: Tables, p: nat, sid: nat, i: nat)
    requires Agree(t, Pending(None, None, Some(p))) && HeldIn(t, p, sid, i)
    ensures p in t.home && t.home[p] == (sid, t.sessions[sid][i].id) && IndexOf(t.sessions[sid], t.home[p].1) == i
  {
    var x := Pending(None, None, Some(p));
    var w := t.sessions[sid][i];
    assert SessionOk(t, sid, x) && WindowOk(t, sid, w, x);
    var k :| 0 <= k < |w.panes| && w.panes[k] == p;
    assert PaneAt(t, w.panes[k], sid, w.id, x);
    IndexOfOwn(t.sessions[sid], i);
  }
}
