/**
  The client's bookkeeping of windows and panes: the callbacks of the connection, updating
  tables in place. Each is proved to do what the protocol models say a client does.
*/
module RemoteControllers {
  import opened Bytes
  import opened Wrappers
  import opened RemoteViews
  import W = WindowResync

  type Blob = seq<byte>

  /** A pane of a layout: its size in cells. */
  datatype Geom = Geom(pane: nat, cols: int, rows: int)

  predicate Drawable(g: Geom) {
    g.cols >= 2 && g.rows >= 2
  }

  function ListedIn(panes: seq<Geom>): set<nat> {
    set i | 0 <= i < |panes| :: panes[i].pane
  }

  function DrawableIn(panes: seq<Geom>): (r: set<nat>)
    ensures r <= ListedIn(panes)
  {
    set i | 0 <= i < |panes| && Drawable(panes[i]) :: panes[i].pane
  }

  lemma OneMorePane(panes: seq<Geom>, n: nat)
    requires n < |panes|
    ensures ListedIn(panes[..n + 1]) == ListedIn(panes[..n]) + {panes[n].pane}
    ensures DrawableIn(panes[..n + 1]) == DrawableIn(panes[..n]) + (if Drawable(panes[n]) then {panes[n].pane} else {})
  {
    assert panes[..n + 1] == panes[..n] + [panes[n]];
    var (a, b) := (panes[..n], panes[..n + 1]);
    forall p | p in ListedIn(a) ensures p in ListedIn(b) {
      var i :| 0 <= i < |a| && a[i].pane == p;
      assert b[i].pane == p;
    }
    forall p | p in DrawableIn(a) ensures p in DrawableIn(b) {
      var i :| 0 <= i < |a| && Drawable(a[i]) && a[i].pane == p;
      assert b[i].pane == p;
    }
    assert b[n] == panes[n];
  }

  /** The panes of a window created one at a time, before any is let go. */
  function Created(v: View<Blob>, wid: nat, drawable: set<nat>): View<Blob> {
    With(v, wid, NewPanes(v, drawable))
  }

  function With(v: View<Blob>, wid: nat, ps: set<nat>): View<Blob> {
    v.(panes := map p | p in v.panes.Keys + ps :: if p in v.panes then v.panes[p] else Shown(wid, PlayAll(Blank(), Parked(v, p))),
       early := v.early - ps)
  }

  lemma WithOneMore(v: View<Blob>, wid: nat, ps: set<nat>, p: nat)
    requires p !in ps && p !in v.panes
    ensures With(With(v, wid, ps), wid, {p}) == With(v, wid, ps + {p})
  {
    hide PlayAll;
    var (a, b) := (With(With(v, wid, ps), wid, {p}), With(v, wid, ps + {p}));
    assert a.panes == b.panes;
    assert a.early == b.early;
  }

  lemma NoPanes()
    ensures ListedIn([]) == {} == DrawableIn([])
  {
  }

  class RemoteController {
    var target: W.Target
    var sid: nat
    var active: bool
    var reconnecting: bool
    var resyncing: bool
    var gone: bool
    var announced: set<nat>
    var windows: set<nat>
    var panes: map<nat, Shown<Blob>>
    var early: map<nat, seq<Frame<Blob>>>
    var requests: seq<W.Request>

    /** The window bookkeeping. */
    function Sync(): W.Client
      reads this
    {
      W.Client(target, sid, active, reconnecting, resyncing, announced, windows, gone)
    }

    /** The pane bookkeeping; offsets and the epoch are the connection's. */
    function Shows(): View<Blob>
      reads this
    {
      View(0, map[], windows, panes, early)
    }

    constructor (target: W.Target)
      ensures Sync() == W.Client(target, 0, false, false, false, {}, {}, false)
      ensures panes == map[] && early == map[] && requests == []
    {
      this.target, sid, active, reconnecting, resyncing, gone := target, 0, false, false, false, false;
      announced, windows, panes, early, requests := {}, {}, map[], map[], [];
    }

    method Exit()
      modifies this
      ensures Sync() == W.Exit(old(Sync())) && panes == map[] && early == map[] && requests == old(requests)
    {
      active, resyncing, gone := false, false, true;
      panes, early, windows, announced := map[], map[], {}, {};
    }

    method OnHelloOk()
      requires !gone
      modifies this`requests
      ensures requests == old(requests) + W.Reply(Sync(), W.HelloOk)
    {
      match target {
        case Newest => requests := requests + [W.ListSessions];
        case Session(s) => requests := requests + [W.AttachTo(s)];
        case Create => requests := requests + [W.CreateSession];
      }
    }

    /** A window goes, with its panes. */
    method DropWindow(wid: nat)
      modifies this`windows, this`panes
      ensures Shows() == RemoteViews.DropWindow(old(Shows()), wid)
    {
      if wid !in windows { return; }
      windows := windows - {wid};
      LetPanesGo(wid, {});
    }

    /** The panes filed under a window and not listed are let go, one by one. */
    method LetPanesGo(wid: nat, listed: set<nat>)
      modifies this`panes
      ensures panes == old(panes) - LetGo(old(Shows()), wid, listed)
    {
      ghost var gone := LetGo(old(Shows()), wid, listed);
      var left := panes.Keys;
      while left != {}
        invariant left <= old(panes).Keys
        invariant panes == old(panes) - (gone - left)
      {
        var p :| p in left;
        if panes[p].wid == wid && p !in listed { panes := panes - {p}; }
        left := left - {p};
      }
    }

    /** The reply that marks the end of the window announcements, or the list asked for to pick a session. */
    method OnSessionList(ids: seq<nat>)
      requires !gone
      modifies this
      ensures Sync() == W.Hear(old(Sync()), W.SessionList(ids))
      ensures requests == old(requests) + W.Reply(old(Sync()), W.SessionList(ids))
      ensures Shows() == if old(resyncing) then DropWindows(old(Shows()), old(windows - announced)) else old(Shows())
    {
      if resyncing {
        resyncing := false;
        var stale := windows - announced;
        announced := {};
        DropAll(stale);
        return;
      }
      if active || target != W.Newest { return; }
      requests := requests + [if ids == [] then W.CreateSession else W.AttachTo(ids[|ids| - 1])];
    }

    method DropAll(stale: set<nat>)
      requires stale <= windows
      modifies this`windows, this`panes
      ensures Shows() == DropWindows(old(Shows()), stale)
    {
      var left := stale;
      assert stale - left == {};
      while left != {}
        invariant left <= stale
        invariant Shows() == DropWindows(old(Shows()), stale - left)
      {
        var wid :| wid in left;
        DropOneMore(old(Shows()), stale - left, wid);
        assert stale - (left - {wid}) == stale - left + {wid};
        DropWindow(wid);
        left := left - {wid};
      }
      assert stale - left == stale;
    }

    method OnSessionCreated(created: nat, pane: nat)
      requires !gone
      modifies this
      ensures Sync() == W.Hear(old(Sync()), W.SessionCreated(created, pane != 0))
      ensures requests == old(requests) + W.Reply(old(Sync()), W.SessionCreated(created, pane != 0))
      ensures pane != 0 ==> Shows() == old(Shows())
    {
      if pane == 0 { Exit(); } else { requests := requests + [W.AttachTo(created)]; }
    }

    method OnAttachOk(session: nat)
      requires !gone
      modifies this`sid, this`active, this`reconnecting, this`announced, this`resyncing, this`requests
      ensures Sync() == W.Hear(old(Sync()), W.AttachOk(session))
      ensures requests == old(requests) + W.Reply(old(Sync()), W.AttachOk(session))
    {
      sid, active, reconnecting := session, true, false;
      announced, resyncing := {}, true;
      requests := requests + [W.ListSessions];
    }

    method OnWindowAdded(session: nat, wid: nat)
      requires !gone
      modifies this`announced, this`windows
      ensures Sync() == W.Hear(old(Sync()), W.WindowAdded(session, wid))
      ensures Shows() == if session == sid then RemoteViews.OnWindowAdded(old(Shows()), wid) else old(Shows())
    {
      if session != sid { return; }
      if resyncing { announced := announced + {wid}; }
      if wid in windows { return; }
      windows := windows + {wid};
    }

    method OnWindowClosed(session: nat, wid: nat)
      requires !gone
      modifies this`windows, this`panes
      ensures Sync() == W.Hear(old(Sync()), W.WindowClosed(session, wid))
      ensures Shows() == if session == sid then RemoteViews.DropWindow(old(Shows()), wid) else old(Shows())
    {
      if session != sid { return; }
      DropWindow(wid);
    }

    method OnSessionClosed(session: nat)
      requires !gone
      modifies this
      ensures Sync() == W.Hear(old(Sync()), W.SessionClosed(session))
      ensures session != old(sid) ==> Shows() == old(Shows())
    {
      if session == sid { Exit(); }
    }

    method OnError()
      requires !gone
      modifies this
      ensures Sync() == W.Hear(old(Sync()), W.NoSuchSession)
      ensures !old(reconnecting) ==> Shows() == old(Shows())
    {
      if reconnecting { Exit(); }
    }

    /** The connection is lost; an attached client keeps everything and will come back. */
    method OnDisconnect()
      requires !gone
      modifies this
      ensures Sync() == W.Lose(old(Sync()))
      ensures !gone ==> Shows() == old(Shows())
    {
      if reconnecting { return; }
      if active && sid != 0 {
        active, target, reconnecting := false, W.Session(sid), true;
      } else {
        Exit();
      }
    }

    // ---------- panes ----------

    /** A pane frame: to its pane, or parked until the pane exists. */
    method OnPaneFrame(p: nat, f: Frame<Blob>)
      modifies this`panes, this`early
      ensures Shows() == OnFrame(old(Shows()), p, f).(off := map[])
    {
      if f.Resume? { return; }
      if p in panes {
        panes := panes[p := panes[p].(replica := Play(panes[p].replica, f))];
        return;
      }
      if p !in early { early := early[p := []]; }
      if |early[p]| < EARLY_FRAMES && Size(f) < EARLY_MAX { early := early[p := early[p] + [f]]; }
    }

    /** The pane is created and what was parked for it is replayed, in order. */
    method CreateRemotePane(p: nat, wid: nat)
      requires p !in panes
      modifies this`panes, this`early
      ensures Shows() == Created(old(Shows()), wid, {p})
    {
      var replica: Replica<Blob> := Blank();
      if p in early {
        var fs := early[p];
        var i := 0;
        while i < |fs|
          invariant 0 <= i <= |fs| && replica == PlayAll(Blank(), fs[..i])
          invariant panes == old(panes) && early == old(early)
        {
          assert fs[..i + 1] == fs[..i] + [fs[i]];
          PlayOneMore(Blank(), fs[..i], fs[i]);
          replica := Play(replica, fs[i]);
          i := i + 1;
        }
        assert fs[..i] == fs;
        early := early - {p};
      }
      panes := panes[p := Shown(wid, replica)];
      CreatedOne(old(Shows()), wid, p);
    }

    lemma CreatedOne(v: View<Blob>, wid: nat, p: nat)
      requires p !in v.panes
      ensures Created(v, wid, {p}) == v.(panes := v.panes[p := Shown(wid, PlayAll(Blank(), Parked(v, p)))], early := v.early - {p})
    {
      hide PlayAll;
      assert NewPanes(v, {p}) == {p};
      assert Created(v, wid, {p}).panes == v.panes[p := Shown(wid, PlayAll(Blank(), Parked(v, p)))];
    }

    lemma CreatedNone(v: View<Blob>, wid: nat)
      ensures Created(v, wid, {}) == v
    {
      hide PlayAll;
      assert NewPanes(v, {}) == {};
      assert Created(v, wid, {}).panes == v.panes;
    }

    method OnLayout(session: nat, wid: nat, geoms: seq<Geom>)
      modifies this`panes, this`early
      ensures Shows() == if session == sid then RemoteViews.OnLayout(old(Shows()), wid, ListedIn(geoms), DrawableIn(geoms))
                         else old(Shows())
    {
      if session != sid { return; }
      ApplyLayout(wid, geoms);
    }

    method ApplyLayout(wid: nat, geoms: seq<Geom>)
      modifies this`panes, this`early
      ensures Shows() == RemoteViews.OnLayout(old(Shows()), wid, ListedIn(geoms), DrawableIn(geoms))
    {
      if wid !in windows { return; }
      CreatePanes(wid, geoms);
      var listed := PanesOf(geoms);
      LetPanesGo(wid, listed);
      LayoutIsCreateThenLetGo(old(Shows()), wid, geoms);
    }

    static method PanesOf(geoms: seq<Geom>) returns (listed: set<nat>)
      ensures listed == ListedIn(geoms)
    {
      listed := {};
      var i := 0;
      while i < |geoms|
        invariant 0 <= i <= |geoms| && listed == ListedIn(geoms[..i])
      {
        OneMorePane(geoms, i);
        listed := listed + {geoms[i].pane};
        i := i + 1;
      }
      assert geoms[..i] == geoms;
    }

    method CreatePanes(wid: nat, geoms: seq<Geom>)
      modifies this`panes, this`early
      ensures Shows() == Created(old(Shows()), wid, DrawableIn(geoms))
    {
      hide Created, ListedIn, DrawableIn;
      CreatedNone(old(Shows()), wid);
      assert geoms[..0] == [];
      NoPanes();
      var i := 0;
      while i < |geoms|
        invariant 0 <= i <= |geoms|
        invariant Shows() == Created(old(Shows()), wid, DrawableIn(geoms[..i]))
      {
        OneMorePane(geoms, i);
        assert DrawableIn(geoms[..i]) + {} == DrawableIn(geoms[..i]);
        var g := geoms[i];
        if Drawable(g) {
          CreateOneMore(old(Shows()), wid, DrawableIn(geoms[..i]), g.pane);
          if g.pane !in panes { CreateRemotePane(g.pane, wid); }
        }
        i := i + 1;
      }
      assert geoms[..i] == geoms;
    }

    lemma CreateOneMore(v: View<Blob>, wid: nat, drawable: set<nat>, p: nat)
      ensures var u := Created(v, wid, drawable);
              Created(v, wid, drawable + {p}) == if p in u.panes then u else Created(u, wid, {p})
    {
      hide PlayAll;
      var u := Created(v, wid, drawable);
      if p in u.panes {
        assert NewPanes(v, drawable + {p}) == NewPanes(v, drawable);
      } else {
        assert NewPanes(v, drawable + {p}) == NewPanes(v, drawable) + {p};
        assert NewPanes(u, {p}) == {p};
        WithOneMore(v, wid, NewPanes(v, drawable), p);
      }
      hide With;
    }

    lemma LayoutIsCreateThenLetGo(v: View<Blob>, wid: nat, geoms: seq<Geom>)
      requires wid in v.windows
      ensures RemoteViews.OnLayout(v, wid, ListedIn(geoms), DrawableIn(geoms))
           == (var u := Created(v, wid, DrawableIn(geoms)); u.(panes := u.panes - LetGo(u, wid, ListedIn(geoms))))
    {
      hide PlayAll;
      var u := Created(v, wid, DrawableIn(geoms));
      assert LetGo(u, wid, ListedIn(geoms)) == LetGo(v, wid, ListedIn(geoms));
    }

    method OnPaneExited(p: nat)
      modifies this`panes
      ensures Shows() == RemoteViews.OnPaneExited(old(Shows()), p)
    {
      if p !in panes { return; }
      panes := panes - {p};
    }
  }
}
