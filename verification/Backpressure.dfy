/**
  Backpressure: a pane whose output a QUIC client cannot take as fast as it comes is not
  read any more, until the client's queue has drained. What must not happen is that a pane
  stays paused with nobody left whose draining would wake it.
*/
module Backpressure {
  import opened Bytes

  const HIGH_WATER: nat := 0x30_0000
  const LOW_WATER: nat := 0x8_0000
  const HEADER: nat := 8

  /** A client that was dropped is dead, and still known until the next sweep; without QUIC connection once that closed. */
  datatype Peer = Peer(quic: bool, dead: bool, attached: nat, queued: nat)
  datatype Pane = Pane(sid: nat, paused: bool)
  datatype State = State(peers: map<nat, Peer>, panes: map<nat, Pane>)

  datatype Step =
    | Arrive(peer: nat, quic: bool)
    | OpenPane(pane: nat, sid: nat)
    | PaneGone(pane: nat)
    | Output(pane: nat, bytes: nat)
    | SendTo(peer: nat, bytes: nat)
    | Drain(peer: nat, bytes: nat)
    | Closed(peer: nat)
    | Attach(peer: nat, sid: nat, bytes: nat)
    | EndSession(sid: nat)
    | Detach(peer: nat)
    | Kill(peer: nat)
    | Sweep

  predicate Hears(p: Peer, sid: nat) {
    !p.dead && p.attached == sid
  }

  /** A live QUIC client attached to the session with more than so much queued. */
  predicate Above(s: State, sid: nat, water: nat) {
    exists c | c in s.peers :: Hears(s.peers[c], sid) && s.peers[c].quic && s.peers[c].queued > water
  }

  function Resumed(panes: map<nat, Pane>, sid: nat): map<nat, Pane> {
    map p | p in panes :: if panes[p].sid == sid then panes[p].(paused := false) else panes[p]
  }

  /** Wakes the session's panes, unless some attached client is still above the low mark. */
  function Resume(s: State, sid: nat): State {
    if sid == 0 || Above(s, sid, LOW_WATER) then s else s.(panes := Resumed(s.panes, sid))
  }

  function Sent(peers: map<nat, Peer>, sid: nat, bytes: nat): map<nat, Peer> {
    map c | c in peers ::
      if Hears(peers[c], sid) && peers[c].quic then peers[c].(queued := peers[c].queued + bytes) else peers[c]
  }

  predicate Enabled(s: State, step: Step) {
    match step
    case Arrive(c, _) => c !in s.peers
    case OpenPane(p, sid) => p !in s.panes && sid != 0
    case PaneGone(p) => p in s.panes
    case Output(p, _) => p in s.panes
    case SendTo(c, _) => c in s.peers && !s.peers[c].dead
    case Drain(c, n) => c in s.peers && s.peers[c].quic && n <= s.peers[c].queued
    case Closed(c) => c in s.peers && s.peers[c].quic
    case Attach(c, sid, _) => c in s.peers && !s.peers[c].dead && sid != 0
    case EndSession(sid) => sid != 0
    case Detach(c) => c in s.peers && !s.peers[c].dead
    case Kill(c) => c in s.peers
    case Sweep => true
  }

  function Next(s: State, step: Step): State
    requires Enabled(s, step)
  {
    match step
    case Arrive(c, quic) => s.(peers := s.peers[c := Peer(quic, false, 0, 0)])
    case OpenPane(p, sid) => s.(panes := s.panes[p := Pane(sid, false)])
    case PaneGone(p) => s.(panes := s.panes - {p})
    case Output(p, n) =>
      var sid := s.panes[p].sid;
      var t := s.(peers := Sent(s.peers, sid, HEADER + n));
      if Above(t, sid, HIGH_WATER) then t.(panes := t.panes[p := t.panes[p].(paused := true)]) else t
    case SendTo(c, n) => s.(peers := s.peers[c := s.peers[c].(queued := s.peers[c].queued + n)])
    case Drain(c, n) =>
      var peer := s.peers[c];
      var t := s.(peers := s.peers[c := peer.(queued := peer.queued - n)]);
      if peer.queued >= LOW_WATER > peer.queued - n then Resume(t, peer.attached) else t
    case Closed(c) =>
      var t := s.(peers := s.peers[c := s.peers[c].(quic := false)]);
      var u := Resume(t, s.peers[c].attached);
      u.(peers := u.peers[c := u.peers[c].(dead := true)])
    case Attach(c, sid, n) => s.(peers := s.peers[c := s.peers[c].(attached := sid, queued := s.peers[c].queued + n)])
    case EndSession(sid) =>
      State(map c | c in s.peers :: if Hears(s.peers[c], sid) then s.peers[c].(attached := 0) else s.peers[c],
            map p | p in s.panes && s.panes[p].sid != sid :: s.panes[p])
    case Detach(c) => s.(peers := s.peers[c := s.peers[c].(attached := 0)])
    case Kill(c) => s.(peers := s.peers[c := s.peers[c].(dead := true)])
    case Sweep => s.(peers := map c | c in s.peers && !s.peers[c].dead :: s.peers[c])
  }

  predicate Run(s: State, steps: seq<Step>)
    decreases |steps|
  {
    steps == [] || (Enabled(s, steps[0]) && Run(Next(s, steps[0]), steps[1..]))
  }

  function After(s: State, steps: seq<Step>): State
    requires Run(s, steps)
    decreases |steps|
  {
    if steps == [] then s else After(Next(s, steps[0]), steps[1..])
  }

  // ---------- nobody is stranded ----------

  /** Somebody attached to the session still has a callback coming: it has at least the low mark queued. */
  predicate Owed(s: State, sid: nat) {
    exists c | c in s.peers :: Owes(s.peers[c], sid)
  }

  /** A dropped client's connection drains on, and calls back, until the sweep. */
  predicate Owes(p: Peer, sid: nat) {
    p.attached == sid && p.quic && p.queued >= LOW_WATER
  }

  predicate NobodyStranded(s: State) {
    && (forall p | p in s.panes :: s.panes[p].sid != 0)
    && forall p | p in s.panes && s.panes[p].paused :: Owed(s, s.panes[p].sid)
  }

  predicate Pauses(s: State, sid: nat) {
    exists p | p in s.panes :: s.panes[p].paused && s.panes[p].sid == sid
  }

  /** By this step the client leaves the session it is attached to: it detaches, moves to another one or is swept. */
  predicate Leaves(s: State, step: Step, c: nat) {
    c in s.peers && s.peers[c].attached != 0 &&
    match step
    case Detach(d) => c == d
    case Attach(d, sid, _) => c == d && s.peers[c].attached != sid
    case Sweep => s.peers[c].dead
    case _ => false
  }

  /** Somebody leaves with the low mark or more still queued. */
  predicate Deserts(s: State, step: Step) {
    exists c | c in s.peers :: Leaves(s, step, c) && Owes(s.peers[c], s.peers[c].attached)
  }

  /** Waking a session strands nobody in it; other sessions are not touched. */
  lemma ResumeKeeps(s: State, sid: nat)
    requires forall p | p in s.panes :: s.panes[p].sid != 0
    requires forall p | p in s.panes && s.panes[p].paused && s.panes[p].sid != sid :: Owed(s, s.panes[p].sid)
    ensures NobodyStranded(Resume(s, sid))
  {
    var r := Resume(s, sid);
    if Above(s, sid, LOW_WATER) {
      var c :| c in s.peers && Hears(s.peers[c], sid) && s.peers[c].quic && s.peers[c].queued > LOW_WATER;
      assert Owes(s.peers[c], sid);
    }
    forall p | p in r.panes && r.panes[p].paused ensures Owed(r, r.panes[p].sid) {
      assert s.panes[p].paused;
      if s.panes[p].sid != sid { assert Owed(s, s.panes[p].sid); }
    }
  }

  lemma OutputKeeps(s: State, p: nat, n: nat)
    requires NobodyStranded(s) && Enabled(s, Output(p, n))
    ensures NobodyStranded(Next(s, Output(p, n)))
  {
    var t := Next(s, Output(p, n));
    var sid := s.panes[p].sid;
    var u := s.(peers := Sent(s.peers, sid, HEADER + n));
    forall q | q in t.panes && t.panes[q].paused ensures Owed(t, t.panes[q].sid) {
      if q == p && Above(u, sid, HIGH_WATER) {
        var c :| c in u.peers && Hears(u.peers[c], sid) && u.peers[c].quic && u.peers[c].queued > HIGH_WATER;
        assert Owes(t.peers[c], sid);
      } else {
        var c :| c in s.peers && Owes(s.peers[c], s.panes[q].sid);
        assert Owes(t.peers[c], s.panes[q].sid);
      }
    }
  }

  /** Steps that wake and pause nobody. */
  lemma QuietStepKeeps(s: State, step: Step)
    requires NobodyStranded(s) && Enabled(s, step) && !Deserts(s, step)
    requires !step.Output? && !step.Drain? && !step.Closed?
    ensures NobodyStranded(Next(s, step))
  {
    var t := Next(s, step);
    forall q | q in t.panes && t.panes[q].paused ensures Owed(t, t.panes[q].sid) {
      var d :| d in s.peers && Owes(s.peers[d], s.panes[q].sid);
      assert !Leaves(s, step, d);
      assert Owes(t.peers[d], s.panes[q].sid);
    }
  }

  lemma StepKeeps(s: State, step: Step)
    requires NobodyStranded(s) && Enabled(s, step) && !Deserts(s, step)
    ensures NobodyStranded(Next(s, step))
  {
    hide NobodyStranded, Next, Deserts;
    if step.Output? {
      OutputKeeps(s, step.pane, step.bytes);
    } else if step.Drain? {
      DrainKeeps(s, step.peer, step.bytes);
    } else if step.Closed? {
      ClosedKeeps(s, step.peer);
    } else {
      QuietStepKeeps(s, step);
    }
  }

  lemma DrainKeeps(s: State, c: nat, n: nat)
    requires NobodyStranded(s) && Enabled(s, Drain(c, n))
    ensures NobodyStranded(Next(s, Drain(c, n)))
  {
    var peer := s.peers[c];
    var t := s.(peers := s.peers[c := peer.(queued := peer.queued - n)]);
    var crossed := peer.queued >= LOW_WATER > peer.queued - n;
    forall q | q in t.panes && t.panes[q].paused && !(crossed && t.panes[q].sid == peer.attached) ensures Owed(t, t.panes[q].sid) {
      var d :| d in s.peers && Owes(s.peers[d], s.panes[q].sid);
      assert Owes(t.peers[d], s.panes[q].sid);
    }
    if crossed {
      ResumeKeeps(t, peer.attached);
    }
  }

  lemma ClosedKeeps(s: State, c: nat)
    requires NobodyStranded(s) && Enabled(s, Closed(c))
    ensures NobodyStranded(Next(s, Closed(c)))
  {
    var t := s.(peers := s.peers[c := s.peers[c].(quic := false)]);
    var sid := s.peers[c].attached;
    forall q | q in t.panes && t.panes[q].paused && t.panes[q].sid != sid ensures Owed(t, t.panes[q].sid) {
      var d :| d in s.peers && Owes(s.peers[d], s.panes[q].sid);
      assert Owes(t.peers[d], s.panes[q].sid);
    }
    ResumeKeeps(t, sid);
    var u := Resume(t, sid);
    var v := Next(s, Closed(c));
    forall q | q in v.panes && v.panes[q].paused ensures Owed(v, v.panes[q].sid) {
      var d :| d in u.peers && Owes(u.peers[d], u.panes[q].sid);
      assert Owes(v.peers[d], v.panes[q].sid);
    }
  }

  /** Nobody leaves its session in this run with the low mark or more still queued. */
  predicate Faithful(s: State, steps: seq<Step>)
    requires Run(s, steps)
    decreases |steps|
  {
    steps == [] || (!Deserts(s, steps[0]) && Faithful(Next(s, steps[0]), steps[1..]))
  }

  /** In any such run a paused pane always has a wake-up coming. */
  lemma {:induction false} RunStrandsNobody(s: State, steps: seq<Step>)
    requires NobodyStranded(s) && Run(s, steps) && Faithful(s, steps)
    ensures NobodyStranded(After(s, steps))
    decreases |steps|
  {
    hide NobodyStranded, Next, Enabled, Deserts;
    if steps != [] {
      StepKeeps(s, steps[0]);
      RunStrandsNobody(Next(s, steps[0]), steps[1..]);
    }
  }

  /** Somebody who stays has a callback coming. */
  predicate StayersOwe(s: State, step: Step, sid: nat) {
    exists d | d in s.peers && !Leaves(s, step, d) :: Owes(s.peers[d], sid)
  }

  /** Detaching, attaching elsewhere and sweeping the dropped clients strand panes exactly when a paused one is left
      in a session that nobody else is attached to with at least the low mark queued. */
  lemma DesertionStrandsIff(s: State, step: Step)
    requires NobodyStranded(s) && Enabled(s, step) && (step.Detach? || step.Attach? || step.Sweep?)
    ensures !NobodyStranded(Next(s, step))
       <==> exists p | p in s.panes :: s.panes[p].paused && !StayersOwe(s, step, s.panes[p].sid)
  {
    var t := Next(s, step);
    assert t.panes == s.panes;
    forall q | q in s.panes && s.panes[q].paused ensures StayersOwe(s, step, s.panes[q].sid) <==> Owed(t, s.panes[q].sid) {
      StayersAreOwed(s, step, s.panes[q].sid);
    }
  }

  lemma StayersAreOwed(s: State, step: Step, sid: nat)
    requires Enabled(s, step) && (step.Detach? || step.Attach? || step.Sweep?) && sid != 0 && Owed(s, sid)
    ensures StayersOwe(s, step, sid) <==> Owed(Next(s, step), sid)
  {
    var t := Next(s, step);
    if StayersOwe(s, step, sid) {
      var d :| d in s.peers && !Leaves(s, step, d) && Owes(s.peers[d], sid);
      assert Owes(t.peers[d], sid);
    }
    if Owed(t, sid) {
      var d :| d in t.peers && Owes(t.peers[d], sid);
      if step.Attach? && d == step.peer {
        var e :| e in s.peers && Owes(s.peers[e], sid);
        assert !Leaves(s, step, e);
      } else {
        assert !Leaves(s, step, d) && Owes(s.peers[d], sid);
      }
    }
  }

  /** A dropped client that drains before it is swept wakes the panes all the same: see DrainingWakes. */
  lemma DroppedStillDrains(s: State, c: nat, n: nat)
    requires c in s.peers && s.peers[c].quic && n <= s.peers[c].queued
    ensures Enabled(s, Kill(c)) && Enabled(Next(s, Kill(c)), Drain(c, n))
    ensures NobodyStranded(s) ==> NobodyStranded(Next(s, Kill(c)))
  {
    hide NobodyStranded;
    if NobodyStranded(s) { StepKeeps(s, Kill(c)); }
  }

  /** When a draining client falls below the low mark and nobody attached is above it, the session's panes are all awake. */
  lemma DrainingWakes(s: State, c: nat, n: nat)
    requires NobodyStranded(s) && Enabled(s, Drain(c, n)) && s.peers[c].attached != 0
    requires s.peers[c].queued >= LOW_WATER > s.peers[c].queued - n
    ensures var t := Next(s, Drain(c, n));
            Pauses(t, s.peers[c].attached) ==> Above(t, s.peers[c].attached, LOW_WATER)
  {
  }
}
