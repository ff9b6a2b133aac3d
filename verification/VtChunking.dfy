/** When does cutting a byte stream into different reads change what the parser does? */
module VtChunking {
  import opened Bytes
  import opened VtParsing

  /** The chunk ended on an ESC that a string state read without seeing what follows it. */
  predicate DanglingEscape(m: Machine, a: seq<byte>)
    requires m.Valid()
  {
    a != [] && a[|a| - 1] == ESC && InString(Run(m, a).machine.state)
  }

  /** The cut between a and b falls inside a string terminator. */
  predicate CutInsideTerminator(m: Machine, a: seq<byte>, b: seq<byte>)
    requires m.Valid()
  {
    DanglingEscape(m, a) && b != [] && b[0] == BACKSLASH
  }

  lemma HeadOfConcat(m: Machine, a: seq<byte>, b: seq<byte>)
    requires m.Valid() && a != [] && !CutInsideTerminator(m, a, b)
    ensures Head(m, a + b) == Head(m, a)
  {
    if |a| == 1 && InString(m.state) && a[0] == ESC {
      assert Run(m, a).machine == Step(m, ESC).machine == m;
    }
    hide Step, Terminate, Run;
  }

  /** Where the cut does not fall inside a terminator, two chunks are one. */
  lemma {:induction false} RunConcat(m: Machine, a: seq<byte>, b: seq<byte>)
    requires m.Valid()
    requires !CutInsideTerminator(m, a, b)
    ensures Run(m, a + b) == Then(Run(m, a), b)
    decreases |a|
  {
    if a == [] {
      assert a + b == b;
      assert [] + Run(m, b).calls == Run(m, b).calls;
    } else {
      var h := Head(m, a);
      var rest := a[h.0..];
      assert (a + b)[h.0..] == rest + b;
      HeadOfConcat(m, a, b);
      hide Head, Step;
      assert rest != [] ==> rest[|rest| - 1] == a[|a| - 1];
      RunConcat(h.1.machine, rest, b);
      AfterAssociative(h.1, Run(h.1.machine, rest), Run(Run(h.1.machine, rest).machine, b));
    }
  }

  lemma ButLast(a: seq<byte>, n: nat)
    requires n < |a|
    ensures a[n..][..|a[n..]| - 1] == a[..|a| - 1][n..] && a[n..][|a[n..]| - 1] == a[|a| - 1]
  {
  }

  /** Without its last byte a chunk begins with the same step, if there is more after that. */
  lemma SameHead(m: Machine, a: seq<byte>)
    requires m.Valid() && a != [] && Head(m, a).0 < |a|
    ensures Head(m, a[..|a| - 1]) == Head(m, a)
  {
    hide Step, Terminate;
  }

  /** A dangling ESC is the last thing its chunk did: it left the machine in place. */
  lemma {:induction false} DanglingIsLastStep(m: Machine, a: seq<byte>)
    requires m.Valid() && DanglingEscape(m, a)
    ensures var before := Run(m, a[..|a| - 1]);
            && InString(before.machine.state)
            && Run(m, a) == After(before, Step(before.machine, ESC))
            && Run(m, a).machine == before.machine
    decreases |a|
  {
    var h := Head(m, a);
    var rest := a[h.0..];
    var init := a[..|a| - 1];
    assert Run(m, a) == After(h.1, Run(h.1.machine, rest));
    if rest == [] {
      assert h.1.calls + [] == h.1.calls;
      if h.0 == 1 {
        assert init == [];
        assert [] + Step(m, ESC).calls == Step(m, ESC).calls;
        StepToString(m);
      }
    } else {
      ButLast(a, h.0);
      SameHead(m, a);
      hide Head, Step;
      DanglingIsLastStep(h.1.machine, rest);
      AfterAssociative(h.1, Run(h.1.machine, rest[..|rest| - 1]), Step(Run(m, init).machine, ESC));
    }
  }

  /** ESC never starts a string: only a string state is left in a string by it. */
  lemma StepToString(m: Machine)
    requires m.Valid()
    ensures InString(Step(m, ESC).machine.state) ==> InString(m.state)
  {
  }

  lemma RunTerminator(s: Machine, b: seq<byte>)
    requires s.Valid() && InString(s.state) && b != [] && b[0] == BACKSLASH
    ensures Run(s, [ESC] + b) == Then(Terminate(s), b[1..])
  {
    var d := [ESC] + b;
    assert d[2..] == b[1..];
    assert Head(s, d) == (2, Terminate(s));
  }

  lemma FedTogether(m: Machine, a: seq<byte>, b: seq<byte>)
    requires m.Valid() && InString(Run(m, a).machine.state)
    requires b != [] && b[0] == BACKSLASH
    ensures Run(m, a + ([ESC] + b)) == After(Run(m, a), Then(Terminate(Run(m, a).machine), b[1..]))
  {
    RunConcat(m, a, [ESC] + b);
    RunTerminator(Run(m, a).machine, b);
  }

  lemma FedApart(before: Outcome, b: seq<byte>)
    requires before.machine.Valid()
    ensures Then(After(before, Step(before.machine, ESC)), b) == After(before, Then(Step(before.machine, ESC), b))
  {
    var o := Step(before.machine, ESC);
    AfterAssociative(before, o, Run(o.machine, b));
  }

  /** What the two ways of feeding do when the cut falls inside a terminator. */
  lemma CutOutcomes(m: Machine, a: seq<byte>, b: seq<byte>)
    requires m.Valid() && CutInsideTerminator(m, a, b)
    ensures var before := Run(m, a[..|a| - 1]);
            && InString(before.machine.state)
            && Run(m, a + b) == After(before, Then(Terminate(before.machine), b[1..]))
            && Then(Run(m, a), b) == After(before, Then(Step(before.machine, ESC), b))
  {
    hide Step, Terminate, Head, Run;
    var init := a[..|a| - 1];
    assert a + b == init + ([ESC] + b);
    DanglingIsLastStep(m, a);
    var before := Run(m, init);
    assert Run(m, a + b) == After(before, Then(Terminate(before.machine), b[1..])) by {
      FedTogether(m, init, b);
    }
    assert Then(Run(m, a), b) == After(before, Then(Step(before.machine, ESC), b)) by {
      FedApart(before, b);
    }
  }

  /** A cut inside a terminator is visible at once: after the backslash the machines disagree. */
  lemma CutShowsAtBackslash(m: Machine, a: seq<byte>)
    requires m.Valid() && DanglingEscape(m, a)
    ensures Run(m, a + [BACKSLASH]) != Then(Run(m, a), [BACKSLASH])
  {
    var b := [BACKSLASH];
    var before := Run(m, a[..|a| - 1]).machine;
    assert b[1..] == [];
    CutOutcomes(m, a, b);
    StillInString(before);
    hide Step, Head, Run;
    RunEmpty(Terminate(before), b[1..]);
  }

  lemma StillInString(s: Machine)
    requires s.Valid() && InString(s.state)
    ensures InString(Then(Step(s, ESC), [BACKSLASH]).machine.state)
  {
    var still := Step(s, ESC).machine;
    assert still == s && InString(Step(s, BACKSLASH).machine.state);
    assert Head(still, [BACKSLASH]) == (1, Step(still, BACKSLASH));
    assert Run(still, [BACKSLASH]).machine == Run(Step(still, BACKSLASH).machine, [BACKSLASH][1..]).machine;
  }

  /** A chunk boundary after a is harmless for every continuation exactly when no ESC dangles there. */
  lemma BoundaryHarmlessIff(m: Machine, a: seq<byte>)
    requires m.Valid()
    ensures (forall b :: Run(m, a + b) == Then(Run(m, a), b)) <==> !DanglingEscape(m, a)
  {
    if DanglingEscape(m, a) {
      CutShowsAtBackslash(m, a);
    } else {
      forall b ensures Run(m, a + b) == Then(Run(m, a), b) {
        RunConcat(m, a, b);
      }
    }
  }

  // ---------- one cut, one continuation ----------

  // Every BEL byte makes exactly one call of four kinds, in every state, and but for the end of a
  // string nothing else makes one. So a run that has ended its string stays one such call ahead of
  // one that missed the end, up to the next ESC \, which brings both to Ground.

  predicate Rings(c: Call) {
    c == Execute(BEL) || c == DcsPut(BEL) || c.Osc? || c.Apc?
  }

  function Rung(calls: seq<Call>): nat {
    if calls == [] then 0 else Rung(calls[..|calls| - 1]) + (if Rings(calls[|calls| - 1]) then 1 else 0)
  }

  lemma {:induction false} RungConcat(a: seq<Call>, b: seq<Call>)
    ensures Rung(a + b) == Rung(a) + Rung(b)
    decreases |b|
  {
    if b == [] {
      assert a + b == a;
    } else {
      assert (a + b)[..|a + b| - 1] == a + b[..|b| - 1];
      RungConcat(a, b[..|b| - 1]);
    }
  }

  function Bells(data: seq<byte>): nat {
    if data == [] then 0 else (if data[0] == BEL then 1 else 0) + Bells(data[1..])
  }

  lemma BellRings(m: Machine, b: byte)
    requires m.Valid()
    ensures Rung(Step(m, b).calls) == if b == BEL then 1 else 0
  {
    var calls := Step(m, b).calls;
    assert calls == [] || (|calls| == 1 && (Rings(calls[0]) <==> b == BEL)) by { hide ParseParams; }
    assert b == BEL ==> calls != [];
    assert calls != [] ==> calls[..|calls| - 1] == [];
  }

  predicate NoTerminator(data: seq<byte>) {
    forall i | 0 <= i < |data| - 1 :: !(data[i] == ESC && data[i + 1] == BACKSLASH)
  }

  lemma {:induction false} BellsRing(m: Machine, data: seq<byte>)
    requires m.Valid() && NoTerminator(data)
    ensures Rung(Run(m, data).calls) == Bells(data)
    decreases |data|
  {
    if data != [] {
      var o := Step(m, data[0]);
      assert Head(m, data) == (1, o);
      BellRings(m, data[0]);
      hide Step;
      BellsRing(o.machine, data[1..]);
      RungConcat(o.calls, Run(o.machine, data[1..]).calls);
    }
  }

  /** What ESC \ can mean. */
  predicate EndsSomething(c: Call) {
    c.Osc? || c.Apc? || c.DcsEnd? || (c.Esc? && c.final == BACKSLASH)
  }

  /** Outside strings ESC goes to Escape, and the backslash from there to Ground. */
  lemma EscapeThenBackslash(m: Machine)
    requires m.Valid() && !InString(m.state)
    ensures var e := Step(m, ESC);
            && e == Quiet(e.machine) && e.machine.state == Escape
            && var o := Step(e.machine, BACKSLASH);
               o.machine.state == Ground && |o.calls| == 1 && EndsSomething(o.calls[0])
  {
  }

  /** ESC \ makes one call and leads to Ground, in every state. */
  lemma TerminatorToGround(m: Machine, rest: seq<byte>) returns (o: Outcome)
    requires m.Valid()
    ensures o.machine.Valid() && o.machine.state == Ground && |o.calls| == 1 && EndsSomething(o.calls[0])
    ensures Run(m, [ESC, BACKSLASH] + rest) == Then(o, rest)
  {
    var data := [ESC, BACKSLASH] + rest;
    assert data[2..] == rest && data[1..] == [BACKSLASH] + rest && data[1..][1..] == rest;
    if InString(m.state) {
      o := Terminate(m);
      assert Head(m, data) == (2, o);
    } else {
      var e := Step(m, ESC);
      EscapeThenBackslash(m);
      hide Step;
      o := Step(e.machine, BACKSLASH);
      assert Head(m, data) == (1, e) && Head(e.machine, data[1..]) == (1, o);
      hide Head;
      assert Run(e.machine, data[1..]) == Then(o, rest);
      assert e.calls + Run(e.machine, data[1..]).calls == Run(e.machine, data[1..]).calls;
    }
  }

  /** The machines agree in all that their state still reads. */
  predicate Alike(m: Machine, n: Machine) {
    && m.state == n.state
    && (m.state == Utf8 ==> m.utf8Codepoint == n.utf8Codepoint && m.utf8Remaining == n.utf8Remaining)
    && (m.state in {Escape, EscapeIntermediate} ==> m.escIntermediate == n.escIntermediate)
    && (m.state in {CsiEntry, CsiParam, CsiIntermediate} ==>
          m.csiParams == n.csiParams && m.csiIntermediate == n.csiIntermediate)
    && (m.state == OscString ==> m.osc == n.osc)
    && (m.state == ApcString ==> m.apc == n.apc)
  }

  predicate AlikeOutcomes(o: Outcome, r: Outcome) {
    o.calls == r.calls && Alike(o.machine, r.machine)
  }

  lemma AlikeInCsi(m: Machine, n: Machine, b: byte)
    requires m.Valid() && n.Valid() && Alike(m, n) && m.state in {CsiEntry, CsiParam, CsiIntermediate, CsiIgnore}
    ensures AlikeOutcomes(StepByState(m, b), StepByState(n, b))
  {
    hide ParseParams, StepGround, StepEscape, StepEscapeIntermediate, StepOsc, StepApc, StepDcsEntry;
  }

  lemma AlikeInString(m: Machine, n: Machine, b: byte)
    requires m.Valid() && n.Valid() && Alike(m, n) && m.state in {OscString, ApcString, DcsEntry, DcsPassthrough, DcsIgnore}
    ensures AlikeOutcomes(StepByState(m, b), StepByState(n, b))
  {
    hide OscCall, StepGround, StepEscape, StepEscapeIntermediate, StepCsi, StepCsiIntermediate;
  }

  lemma AlikeElsewhere(m: Machine, n: Machine, b: byte)
    requires m.Valid() && n.Valid() && Alike(m, n) && m.state in {Ground, Escape, EscapeIntermediate}
    ensures AlikeOutcomes(StepByState(m, b), StepByState(n, b))
  {
    hide StepOsc, StepApc, StepDcsEntry, StepCsi, StepCsiIntermediate, ParamText;
    if m.state == Ground { hide StepEscape, StepEscapeIntermediate; }
    else { AlikeInEscape(m, n, b); }
  }

  lemma AlikeInEscape(m: Machine, n: Machine, b: byte)
    requires m.Valid() && n.Valid() && Alike(m, n) && m.state in {Escape, EscapeIntermediate}
    ensures AlikeOutcomes(StepByState(m, b), StepByState(n, b))
  {
    hide StepOsc, StepApc, StepDcsEntry, StepCsi, StepCsiIntermediate, ParamText, StepGround;
    if m.state == Escape { hide StepEscapeIntermediate; } else { hide StepEscape; }
  }

  lemma AlikeByState(m: Machine, n: Machine, b: byte)
    requires m.Valid() && n.Valid() && Alike(m, n) && m.state != Utf8
    ensures AlikeOutcomes(StepByState(m, b), StepByState(n, b))
  {
    hide StepByState;
    if m.state in {CsiEntry, CsiParam, CsiIntermediate, CsiIgnore} {
      AlikeInCsi(m, n, b);
    } else if m.state in {Ground, Escape, EscapeIntermediate} {
      AlikeElsewhere(m, n, b);
    } else {
      AlikeInString(m, n, b);
    }
  }

  lemma AlikeStep(m: Machine, n: Machine, b: byte)
    requires m.Valid() && n.Valid() && Alike(m, n)
    ensures AlikeOutcomes(Step(m, b), Step(n, b))
  {
    hide StepByState;
    if m.state == Utf8 {
      AlikeByState(m.(state := Ground), n.(state := Ground), b);
    } else {
      AlikeByState(m, n, b);
    }
  }

  lemma AlikeHead(m: Machine, n: Machine, data: seq<byte>)
    requires m.Valid() && n.Valid() && Alike(m, n) && data != []
    ensures var (h, k) := (Head(m, data), Head(n, data));
            h.0 == k.0 && h.1.calls == k.1.calls && Alike(h.1.machine, k.1.machine)
  {
    AlikeStep(m, n, data[0]);
    hide Step;
  }

  lemma {:induction false} AlikeRun(m: Machine, n: Machine, data: seq<byte>)
    requires m.Valid() && n.Valid() && Alike(m, n)
    ensures Run(m, data).calls == Run(n, data).calls
    decreases |data|
  {
    if data != [] {
      AlikeHead(m, n, data);
      hide Head, Alike;
      var (h, k) := (Head(m, data), Head(n, data));
      AlikeRun(h.1.machine, k.1.machine, data[h.0..]);
    }
  }

  /** The bytes up to the first ESC \, which may be missing. */
  lemma {:induction false} FirstTerminator(data: seq<byte>) returns (n: nat)
    ensures n <= |data| && NoTerminator(data[..n])
    ensures n < |data| ==> n + 2 <= |data| && data == data[..n] + ([ESC, BACKSLASH] + data[n + 2..])
    decreases |data|
  {
    if |data| <= 1 {
      n := |data|;
    } else if data[0] == ESC && data[1] == BACKSLASH {
      n := 0;
    } else {
      var k := FirstTerminator(data[1..]);
      n := k + 1;
      assert data[..n] == [data[0]] + data[1..][..k];
      if n < |data| { assert data[1..][k + 2..] == data[n + 2..]; }
    }
  }

  lemma LastOf<T>(a: seq<T>, x: T, b: seq<T>, y: T)
    ensures a + [x] == b + [y] ==> a == b && x == y
  {
    if a + [x] == b + [y] {
      assert (a + [x])[..|a|] == a && (b + [y])[..|b|] == b;
      assert (a + [x])[|a|] == x && (b + [y])[|b|] == y;
    }
  }

  lemma SuffixCancels<T>(a: seq<T>, b: seq<T>, x: seq<T>)
    ensures a + x == b + x ==> a == b
  {
    if a + x == b + x {
      assert |a| == |b| && (a + x)[..|a|] == a && (b + x)[..|b|] == b;
    }
  }

  /** A run through the first ESC \: the calls before it, its one call, and what comes after. */
  lemma ThroughTerminator(m: Machine, p: seq<byte>, rest: seq<byte>) returns (c: Call, g: Machine)
    requires m.Valid() && NoTerminator(p)
    ensures g.Valid() && g.state == Ground
    ensures Run(m, p + ([ESC, BACKSLASH] + rest)).calls == Run(m, p).calls + [c] + Run(g, rest).calls
  {
    hide Head, Step, Terminate;
    var before := Run(m, p);
    var tail := [ESC, BACKSLASH] + rest;
    RunConcat(m, p, tail);
    var o := TerminatorToGround(before.machine, rest);
    hide Run;
    c, g := o.calls[0], o.machine;
    assert o.calls == [c];
    Associative(before.calls, [c], Run(g, rest).calls);
  }

  /** A run that is a ring ahead of another stays different from it, whatever both go on to read. */
  lemma AheadDiffers(m: Machine, n: Machine, c: Call, data: seq<byte>)
    requires m.Valid() && n.Valid() && Rings(c)
    ensures [c] + Run(m, data).calls != Run(n, data).calls
  {
    hide Run;
    assert Rung([c]) == 1 by { assert [c][..0] == []; }
    var k := FirstTerminator(data);
    var p := data[..k];
    BellsRing(m, p);
    BellsRing(n, p);
    var (x, y) := (Run(m, p).calls, Run(n, p).calls);
    RungConcat([c], x);
    if k == |data| {
      assert p == data;
    } else {
      var rest := data[k + 2..];
      var d, g := ThroughTerminator(m, p, rest);
      var e, h := ThroughTerminator(n, p, rest);
      AlikeRun(g, h, rest);
      hide Rung;
      var tail := Run(g, rest).calls;
      Associative([c], x + [d], tail);
      Associative([c], x, [d]);
      SuffixCancels([c] + x + [d], y + [e], tail);
      LastOf([c] + x, d, y, e);
    }
  }

  lemma PrefixCancels<T>(p: seq<T>, a: seq<T>, b: seq<T>)
    ensures p + a == p + b ==> a == b
  {
    assert (p + a)[|p|..] == a && (p + b)[|p|..] == b;
  }

  /** Past the dangling ESC, the calls made are not those that the terminator and what follows it make. */
  lemma MissedTerminator(s: Machine, b: seq<byte>)
    requires s.Valid() && InString(s.state) && b != [] && b[0] == BACKSLASH
    ensures Then(Terminate(s), b[1..]).calls != Then(Step(s, ESC), b).calls
  {
    var (t, e) := (Terminate(s), Step(s, ESC));
    if s.state == DcsPassthrough {
      assert t.calls == [DcsEnd] && e.calls == [DcsPut(ESC)];
      assert ([DcsEnd] + Run(t.machine, b[1..]).calls)[0] == DcsEnd;
      assert ([DcsPut(ESC)] + Run(e.machine, b).calls)[0] == DcsPut(ESC);
    } else {
      var next := Step(s, BACKSLASH).machine;
      assert e == Quiet(s) && Step(s, BACKSLASH) == Quiet(next) && Head(s, b) == (1, Quiet(next));
      assert t.calls == [t.calls[0]] && Rings(t.calls[0]);
      assert Run(s, b).calls == [] + Run(next, b[1..]).calls == Run(next, b[1..]).calls;
      assert Then(e, b).calls == [] + Run(s, b).calls == Run(s, b).calls;
      AheadDiffers(t.machine, next, t.calls[0], b[1..]);
    }
  }

  /** A cut inside a terminator changes the calls, whatever the string and whatever follows. */
  lemma CutChangesCalls(m: Machine, a: seq<byte>, b: seq<byte>)
    requires m.Valid() && CutInsideTerminator(m, a, b)
    ensures Run(m, a + b).calls != Then(Run(m, a), b).calls
  {
    hide Run, Step, Terminate, Head;
    CutOutcomes(m, a, b);
    var before := Run(m, a[..|a| - 1]);
    MissedTerminator(before.machine, b);
    PrefixCancels(before.calls, Then(Terminate(before.machine), b[1..]).calls, Then(Step(before.machine, ESC), b).calls);
  }

  /** Two chunks are one, in calls and in state, exactly when the cut does not fall inside a terminator. */
  lemma ConcatIff(m: Machine, a: seq<byte>, b: seq<byte>)
    requires m.Valid()
    ensures Run(m, a + b) == Then(Run(m, a), b) <==> !CutInsideTerminator(m, a, b)
    ensures Run(m, a + b).calls == Then(Run(m, a), b).calls <==> !CutInsideTerminator(m, a, b)
  {
    if CutInsideTerminator(m, a, b) {
      CutChangesCalls(m, a, b);
    } else {
      RunConcat(m, a, b);
    }
  }

  /** Such a cut is there to be met: ESC ] ESC, the beginning of an empty OSC string and of its end. */
  lemma EmptyOscCanBeCut()
    ensures CutInsideTerminator(INITIAL, [ESC, ']' as int, ESC], [BACKSLASH])
  {
    var data := [ESC, ']' as int, ESC];
    var m := INITIAL.(state := Escape);
    var n := m.(state := OscString);
    assert data[1..] == [']' as int, ESC] && data[1..][1..] == [ESC] && [ESC][1..] == [];
    assert Head(INITIAL, data) == (1, Quiet(m)) && Head(m, data[1..]) == (1, Quiet(n)) && Head(n, [ESC]) == (1, Quiet(n));
    assert Run(n, [ESC]).machine == n;
    assert Run(m, data[1..]).machine == n;
  }

  // ---------- a whole stream ----------

  function RunAll(m: Machine, chunks: seq<seq<byte>>): (r: Outcome)
    requires m.Valid()
    ensures r.machine.Valid()
    decreases |chunks|
  {
    if chunks == [] then Quiet(m)
    else
      var o := Run(m, chunks[0]);
      After(o, RunAll(o.machine, chunks[1..]))
  }

  /** No boundary of this chunking falls inside a terminator. */
  predicate CleanCuts(m: Machine, chunks: seq<seq<byte>>)
    requires m.Valid()
    decreases |chunks|
  {
    chunks == [] ||
    (!CutInsideTerminator(m, chunks[0], Flatten(chunks[1..])) && CleanCuts(Run(m, chunks[0]).machine, chunks[1..]))
  }

  /** However a stream is cut into reads, short of cutting a terminator, the result is the same. */
  lemma {:induction false} ChunkingIrrelevant(m: Machine, chunks: seq<seq<byte>>)
    requires m.Valid() && CleanCuts(m, chunks)
    ensures RunAll(m, chunks) == Run(m, Flatten(chunks))
    decreases |chunks|
  {
    if chunks != [] {
      ChunkingIrrelevant(Run(m, chunks[0]).machine, chunks[1..]);
      RunConcat(m, chunks[0], Flatten(chunks[1..]));
    }
  }
}
