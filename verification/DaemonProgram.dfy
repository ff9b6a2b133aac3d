/** The daemon's handlers, updating its tables in place; each does exactly what its specification says. */
module DaemonProgram {
  import opened Bytes
  import opened Wrappers
  import opened RemoteViews
  import R = Replication
  import opened DaemonTables
  import L = Layouts
  import T = LayoutTheorems
  import A = DaemonTableTheorems

  class Daemon {
    var sessions: map<nat, seq<Window>>
    var panes: map<nat, R.PaneRef>
    var deadPanes: seq<nat>
    var clients: map<nat, Client>
    var nextSid: nat
    var nextWid: nat
    var nextPane: nat
    ghost var home: map<nat, (nat, nat)>
    ghost var owner: map<nat, nat>

    ghost function View(): Tables
      reads this
    {
      Tables(sessions, panes, deadPanes, clients, nextSid, nextWid, nextPane, home, owner)
    }

    constructor ()
      ensures View() == A.Start()
    {
      sessions, panes, deadPanes, clients := map[], map[], [], map[];
      nextSid, nextWid, nextPane := 1, 1, 1;
      home, owner := map[], map[];
    }

    // ---------- telling clients ----------

    method Broadcast(sid: nat, note: Note)
      modifies this`clients
      ensures clients == Told(old(clients), sid, note)
    {
      var left := clients.Keys;
      while left != {}
        invariant left <= clients.Keys == old(clients).Keys
        invariant forall c | c in clients ::
          clients[c] == if c in left then old(clients)[c] else Told(old(clients), sid, note)[c]
      {
        var c :| c in left;
        if !clients[c].dead && clients[c].attached == sid {
          clients := clients[c := clients[c].(sent := clients[c].sent + [note])];
        }
        left := left - {c};
      }
    }

    method Release(sid: nat)
      modifies this`clients
      ensures clients == Released(old(clients), sid)
    {
      var left := clients.Keys;
      while left != {}
        invariant left <= clients.Keys == old(clients).Keys
        invariant forall c | c in clients ::
          clients[c] == if c in left then old(clients)[c] else Released(old(clients), sid)[c]
      {
        var c :| c in left;
        if !clients[c].dead && clients[c].attached == sid {
          clients := clients[c := clients[c].(sent := clients[c].sent + [Ended(sid)], attached := 0)];
        }
        left := left - {c};
      }
    }

    method Send(c: nat, note: Note)
      requires c in clients
      modifies this`clients
      ensures clients == Answered(old(clients), c, [note])
    {
      if clients[c].dead { return; }
      clients := clients[c := clients[c].(sent := clients[c].sent + [note])];
    }

    static method FindWindow(windows: seq<Window>, wid: nat) returns (i: nat)
      ensures i == IndexOf(windows, wid)
    {
      i := 0;
      while i < |windows| && windows[i].id != wid
        invariant 0 <= i <= |windows| && IndexOf(windows, wid) == i + IndexOf(windows[i..], wid)
      {
        i := i + 1;
      }
    }

    // ---------- opening ----------

    /** A window with one fresh pane; 0 if no shell could be started, which uses up a pane number. */
    method AddWindow(sid: nat, spawned: bool) returns (pid: nat)
      requires sid in sessions
      modifies this
      ensures View() == if spawned then OpenWindow(old(View()), sid) else old(View()).(nextPane := old(nextPane) + 1)
      ensures pid == if spawned then old(nextPane) else 0
    {
      hide Told;
      pid := nextPane;
      nextPane := nextPane + 1;
      if !spawned { return 0; }
      var w := Window(nextWid, Some(L.Leaf(pid)), [pid]);
      nextWid := nextWid + 1;
      panes := panes[pid := R.PaneRef(sid, w.id, [], 0)];
      sessions := sessions[sid := sessions[sid] + [w]];
      home, owner := home[pid := (sid, w.id)], owner[w.id := sid];
      Broadcast(sid, Added(sid, w.id));
      Broadcast(sid, Laid(sid, w.id, w.panes));
    }

    /** A session with one window; without a shell the session goes again. */
    method OpenSession(spawned: bool) returns (sid: nat, pid: nat)
      requires nextSid !in sessions && nextPane >= 1
      modifies this
      ensures sid == old(nextSid) && pid == if spawned then old(nextPane) else 0
      ensures View() == if spawned then OpenWindow(SessionMade(old(View())), sid)
                        else old(View()).(nextSid := old(nextSid) + 1, nextPane := old(nextPane) + 1)
    {
      hide OpenWindow;
      sid := nextSid;
      nextSid := nextSid + 1;
      sessions := sessions[sid := []];
      assert View() == SessionMade(old(View()));
      pid := AddWindow(sid, spawned);
      if pid == 0 {
        sessions := sessions - {sid};
        assert sessions == old(sessions);
      }
    }

    method NewSession(c: nat, spawned: bool)
      requires c in clients && !clients[c].dead
      requires Agree(View(), SETTLED)
      modifies this
      ensures View() == Handle(old(View()), c, DaemonTables.NewSession(spawned))
    {
      ghost var t := View();
      A.SidsKnown(t);
      FreshSession(t);
      A.OpenedClients(SessionMade(t), t.nextSid);
      hide Agree, OpenWindow;
      var sid, pid := OpenSession(spawned);
      if pid == 0 { Send(c, Created(0, 0)); } else { Send(c, Created(sid, pid)); }
    }

    static lemma FreshSession(t: Tables)
      requires Agree(t, SETTLED)
      ensures t.nextSid !in t.sessions && t.nextPane >= 1
    {
      assert t.nextSid in t.sessions ==> SessionOk(t, t.nextSid, SETTLED);
    }

    method SplitPane(sid: nat, wid: nat, target: nat, dir: L.Dir, spawned: bool)
      requires sid in sessions
      modifies this
      ensures View() == if spawned then DaemonTables.SplitPane(old(View()), sid, wid, target, dir)
                        else if IndexOf(old(sessions)[sid], wid) == |old(sessions)[sid]| then old(View())
                        else old(View()).(nextPane := old(nextPane) + 1)
    {
      hide Told;
      var i := FindWindow(sessions[sid], wid);
      if i == |sessions[sid]| { return; }
      var pid := nextPane;
      nextPane := nextPane + 1;
      if !spawned { return; }
      var w := sessions[sid][i];
      if w.layout.None? { return; }
      var layout := L.SplitAt(w.layout.value, target, pid, dir);
      if layout.None? { return; }
      w := w.(layout := layout, panes := w.panes + [pid]);
      panes := panes[pid := R.PaneRef(sid, wid, [], 0)];
      sessions := sessions[sid := sessions[sid][i := w]];
      home := home[pid := (sid, wid)];
      Broadcast(sid, Laid(sid, wid, w.panes));
    }

    // ---------- closing ----------

    method ErasePanes(w: Window)
      modifies this`panes
      ensures panes == old(panes) - PanesOf([w])
    {
      var k := 0;
      while k < |w.panes|
        invariant 0 <= k <= |w.panes|
        invariant panes == old(panes) - (set p | p in w.panes[..k])
      {
        panes := panes - {w.panes[k]};
        k := k + 1;
      }
      assert w.panes[..k] == w.panes;
      forall p ensures p in PanesOf([w]) <==> p in w.panes { A.PanesOfOne(w, p); }
      hide PanesOf;
    }

    static lemma OneMoreWindow(windows: seq<Window>, i: nat)
      requires i < |windows|
      ensures PanesOf(windows[..i + 1]) == PanesOf(windows[..i]) + PanesOf([windows[i]])
    {
      var (a, b) := (windows[..i], windows[..i + 1]);
      forall p | p in PanesOf(b) ensures p in PanesOf(a) + PanesOf([windows[i]]) {
        var j, k :| 0 <= j < |b| && 0 <= k < |b[j].panes| && b[j].panes[k] == p;
        if j < i { A.PaneIn(a, j, k); } else { A.PaneIn([windows[i]], 0, k); }
      }
      forall p | p in PanesOf(a) + PanesOf([windows[i]]) ensures p in PanesOf(b) {
        if p in PanesOf(a) {
          var j, k :| 0 <= j < |a| && 0 <= k < |a[j].panes| && a[j].panes[k] == p;
          A.PaneIn(b, j, k);
        } else {
          A.PanesOfOne(windows[i], p);
          var k :| 0 <= k < |windows[i].panes| && windows[i].panes[k] == p;
          A.PaneIn(b, i, k);
        }
      }
    }

    method CloseSession(sid: nat)
      requires sid in sessions
      modifies this`panes, this`clients, this`sessions
      ensures View() == EndSession(old(View()), sid)
    {
      hide PanesOf, Released;
      var windows := sessions[sid];
      EraseWindows(windows);
      Release(sid);
      sessions := sessions - {sid};
    }

    method EraseWindows(windows: seq<Window>)
      modifies this`panes
      ensures panes == old(panes) - PanesOf(windows)
    {
      assert PanesOf(windows[..0]) == {};
      hide PanesOf;
      var i := 0;
      while i < |windows|
        invariant 0 <= i <= |windows| && panes == old(panes) - PanesOf(windows[..i])
      {
        OneMoreWindow(windows, i);
        ErasePanes(windows[i]);
        i := i + 1;
      }
      assert windows[..i] == windows;
    }

    method CloseWindow(sid: nat, wid: nat)
      requires sid in sessions
      modifies this`panes, this`clients, this`sessions
      ensures View() == DaemonTables.CloseWindow(old(View()), sid, wid)
    {
      hide PanesOf, Told, EndSession;
      var windows := sessions[sid];
      var i := FindWindow(windows, wid);
      if i == |windows| { return; }
      ErasePanes(windows[i]);
      Broadcast(sid, Closed(sid, wid));
      sessions := sessions[sid := windows[..i] + windows[i + 1..]];
      if sessions[sid] == [] { CloseSession(sid); }
    }

    /** Looks through all windows of all sessions for the pane. */
    method Search(p: nat) returns (found: bool, sid: nat, i: nat)
      ensures found ==> HeldIn(View(), p, sid, i)
      ensures !found ==> forall s, j {:trigger HeldIn(View(), p, s, j)} :: !HeldIn(View(), p, s, j)
    {
      var left := sessions.Keys;
      found, sid, i := false, 0, 0;
      while left != {}
        invariant left <= sessions.Keys
        invariant forall s, j {:trigger HeldIn(View(), p, s, j)} :: HeldIn(View(), p, s, j) ==> s in left
      {
        sid :| sid in left;
        i := 0;
        while i < |sessions[sid]|
          invariant 0 <= i <= |sessions[sid]| && sid in left && left <= sessions.Keys
          invariant forall j | 0 <= j < i :: p !in sessions[sid][j].panes
        {
          if p in sessions[sid][i].panes { return true, sid, i; }
          i := i + 1;
        }
        left := left - {sid};
      }
    }

    /** Removes a pane whose program is gone from wherever it is. */
    method RemoveDeadPane(p: nat)
      requires Agree(View(), Pending(None, None, Some(p)))
      modifies this`panes, this`clients, this`sessions
      ensures View() == RemoveDead(old(View()), p)
    {
      ghost var t := View();
      var found, sid, i := Search(p);
      if !found {
        assert p in t.home && t.home[p].0 in t.sessions ==> !HeldIn(t, p, t.home[p].0, IndexOf(t.sessions[t.home[p].0], t.home[p].1));
        return;
      }
      A.HomeIsWhereHeld(t, p, sid, i);
      assert RemoveDead(t, p) == DropPane(t, p, sid, i);
      Drop(p, sid, i);
    }

    method Drop(p: nat, sid: nat, i: nat)
      requires HeldIn(View(), p, sid, i)
      modifies this`panes, this`clients, this`sessions
      ensures View() == DropPane(old(View()), p, sid, i)
    {
      hide Told, LayoutWithout, T.Removed, DaemonTables.CloseWindow;
      var w := sessions[sid][i];
      Broadcast(sid, Exited(p));
      w := w.(layout := LayoutWithout(w.layout, p), panes := T.Removed(w.panes, p));
      sessions := sessions[sid := sessions[sid][i := w]];
      if w.panes != [] {
        Broadcast(sid, Laid(sid, w.id, w.panes));
      } else {
        CloseWindow(sid, w.id);
      }
    }

    /** Every pane that has died since the last sweep is removed. */
    method SweepPanes()
      requires Agree(View(), SETTLED)
      modifies this
      ensures View() == Sweep(old(View()))
    {
      while deadPanes != []
        invariant Agree(View(), SETTLED) && Sweep(View()) == Sweep(old(View()))
        decreases |deadPanes|
      {
        ghost var t := View();
        var p := deadPanes[0];
        assert deadPanes == [p] + deadPanes[1..];
        assert p in t.panes ==> RefOk(t, p);
        deadPanes := deadPanes[1..];
        A.Loosened(t, View(), p);
        A.QueueIsNotRead(t, p, deadPanes);
        A.RemoveDeadKeeps(View(), p);
        hide Agree, RemoveDead;
        RemoveDeadPane(p);
      }
    }

    /** A pane's program ends by itself: it waits for the sweep. */
    method OnDead(p: nat)
      modifies this`panes, this`deadPanes
      ensures View() == if p in old(panes) then old(View()).(panes := old(panes) - {p}, deadPanes := old(deadPanes) + [p])
                        else old(View())
    {
      if p in panes {
        panes := panes - {p};
        deadPanes := deadPanes + [p];
      }
    }

    method ClosePane(c: nat, p: nat)
      requires c in clients && Agree(View(), SETTLED)
      modifies this
      ensures View() == if MayName(old(View()), c, p) then RemoveDead(old(View()).(panes := old(panes) - {p}), p) else old(View())
    {
      if p !in panes || panes[p].sid != clients[c].attached { return; }
      ghost var t := View();
      panes := panes - {p};
      A.Loosened(t, View(), p);
      hide Agree, RemoveDead;
      RemoveDeadPane(p);
    }

    // ---------- output ----------

    /** Output goes into the ring, which keeps its newest bytes, and to everyone attached. */
    method OnOutput(p: nat, data: seq<byte>)
      requires p in panes
      modifies this`panes, this`clients
      ensures View() == Recorded(old(View()), p, data)
    {
      hide Told;
      var ref := panes[p];
      var ring := ref.ring + data;
      if |ring| > R.RING_MAX { ring := ring[|ring| - R.RING_MAX..]; }
      panes := panes[p := ref.(ring := ring, ringEnd := ref.ringEnd + |data|)];
      Broadcast(ref.sid, OnPane(p, Out(data)));
    }

    // ---------- attaching ----------

    method Announce(sid: nat, windows: seq<Window>) returns (notes: seq<Note>)
      ensures notes == WindowNotes(sid, windows)
    {
      notes := [];
      var i := 0;
      while i < |windows|
        invariant 0 <= i <= |windows| && notes == WindowNotes(sid, windows[..i])
      {
        assert windows[..i + 1][..i] == windows[..i];
        notes := notes + [Added(sid, windows[i].id), Laid(sid, windows[i].id, windows[i].panes)];
        i := i + 1;
      }
      assert windows[..i] == windows;
    }

    /** A pane whose program is gone has no ring any more: its client gets a last look, and no anchor. */
    method GreetPanes(windows: seq<Window>, resume: map<nat, nat>) returns (notes: seq<Note>)
      ensures notes == PaneNotes(View(), AllPanes(windows), resume)
    {
      hide R.Greeting;
      notes := [];
      var i := 0;
      while i < |windows|
        invariant 0 <= i <= |windows| && notes == PaneNotes(View(), AllPanes(windows[..i]), resume)
      {
        assert windows[..i + 1][..i] == windows[..i];
        ghost var before := AllPanes(windows[..i]);
        var ps := windows[i].panes;
        assert before + ps[..0] == before;
        var k := 0;
        while k < |ps|
          invariant 0 <= k <= |ps| && notes == PaneNotes(View(), before + ps[..k], resume)
        {
          assert before + ps[..k + 1] == before + ps[..k] + [ps[k]];
          assert (before + ps[..k] + [ps[k]])[..|before| + k] == before + ps[..k];
          var p := ps[k];
          if p in panes {
            notes := notes + FrameNotes(p, R.Greeting(panes[p], Lookup(resume, p), 0));
          } else {
            notes := notes + [Unanchored(p)];
          }
          k := k + 1;
        }
        assert ps[..k] == ps;
        i := i + 1;
      }
      assert windows[..i] == windows;
    }

    /** Announces the windows, then brings every pane up to date: the gap if the ring has it, else a snapshot. */
    method Attach(c: nat, sid: nat, resume: map<nat, nat>)
      requires c in clients && !clients[c].dead
      modifies this`clients
      ensures View() == AttachClient(old(View()), c, sid, resume)
    {
      hide WindowNotes, PaneNotes, AllPanes;
      if sid !in sessions {
        Send(c, Refused);
        return;
      }
      var told := Announce(sid, sessions[sid]);
      var greeted := GreetPanes(sessions[sid], resume);
      clients := clients[c := clients[c].(attached := sid, sent := clients[c].sent + ([AttachedTo(sid)] + told + greeted))];
    }
  }
}
