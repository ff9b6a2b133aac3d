/**
  When a client's history does come apart from the daemon's. A snapshot of a pane with an inverted scroll
  region gives the client a proper one, and from there the same output can push different lines on the two
  sides; so can a gap replayed across a cut string terminator.
*/
module HistoryBreaks {
  import opened Bytes
  import opened Cells
  import opened VtParsing
  import opened Screens
  import opened ScreenHistory
  import opened Wrappers
  import opened Snapshots
  import opened SnapshotTheorems
  import opened Replicas
  import opened Wire
  import LH = LazyHistory
  import opened VtChunking
  import opened VtRoundTrips

  // ---------- reading control sequences ----------

  /** Parameter text and a final byte, read in a state that collects parameters. */
  lemma {:induction false} ParamsThenFinal(m: Machine, params: seq<byte>, final: byte)
    requires m.Valid() && m.state in {CsiEntry, CsiParam} && ParamText(params) && 0x40 <= final <= 0x7E
    ensures ParamText(m.csiParams + params)
    ensures Run(m, params + [final]).machine.state == Ground
    ensures Run(m, params + [final]).calls == [Csi(ParseParams(m.csiParams + params), m.csiIntermediate, final)]
    decreases |params|
  {
    hide ParseParams;
    var data := params + [final];
    if params == [] {
      assert m.csiParams + params == m.csiParams;
      assert data == [final] && data[1..] == [];
      assert Head(m, data) == (1, Step(m, final));
    } else {
      var b := params[0];
      assert IsDigit(b) || b == ';' as int || b == ':' as int;
      var n := m.(csiParams := m.csiParams + [b], state := CsiParam);
      assert Step(m, b) == Quiet(n);
      assert data[1..] == params[1..] + [final] && Head(m, data) == (1, Quiet(n));
      hide Step, Head;
      assert n.csiParams + params[1..] == m.csiParams + params;
      ParamsThenFinal(n, params[1..], final);
    }
  }

  /** What introduces a control sequence, private ones marked. */
  function Introducer(marked: bool): seq<byte> {
    if marked then [ESC, '[' as int, '?' as int] else [ESC, '[' as int]
  }

  function Sequence(marked: bool, params: seq<byte>, final: byte): seq<byte> {
    Introducer(marked) + (params + [final])
  }

  lemma Introduced(m: Machine, marked: bool, rest: seq<byte>) returns (n: Machine)
    requires m.Valid() && m.state == Ground
    ensures n.Valid() && n.state in {CsiEntry, CsiParam} && n.csiParams == [] && n.csiIntermediate == if marked then '?' as int else 0
    ensures Run(m, Introducer(marked) + rest) == Run(n, rest)
  {
    var e := Enter(m, Escape);
    var c := Enter(e, CsiEntry);
    n := if marked then c.(csiIntermediate := '?' as int, state := CsiParam) else c;
    var data := Introducer(marked) + rest;
    assert Step(m, ESC) == Quiet(e) && Step(e, '[' as int) == Quiet(c) && (marked ==> Step(c, '?' as int) == Quiet(n));
    assert Head(m, data) == (1, Quiet(e)) && Head(e, data[1..]) == (1, Quiet(c));
    assert marked ==> Head(c, data[1..][1..]) == (1, Quiet(n)) && data[1..][1..][1..] == rest;
    assert !marked ==> data[1..][1..] == rest;
    hide Step, Head;
    QuietFirst(m, e, data);
    QuietFirst(e, c, data[1..]);
    if marked { QuietFirst(c, n, data[1..][1..]); }
  }

  lemma QuietFirst(m: Machine, n: Machine, data: seq<byte>)
    requires m.Valid() && data != [] && Head(m, data) == (1, Quiet(n)) && n.Valid()
    ensures Run(m, data) == Run(n, data[1..])
  {
    assert [] + Run(n, data[1..]).calls == Run(n, data[1..]).calls;
  }

  lemma SequenceIsRead(m: Machine, marked: bool, params: seq<byte>, final: byte)
    requires m.Valid() && m.state == Ground && ParamText(params) && 0x40 <= final <= 0x7E
    ensures ReadAs(m, Sequence(marked, params, final), Csi(ParseParams(params), if marked then '?' as int else 0, final))
  {
    hide Run, ParseParams;
    var n := Introduced(m, marked, params + [final]);
    ParamsThenFinal(n, params, final);
    assert n.csiParams + params == params;
  }

  // ---------- the output ----------

  const SAVE := Esc(0, '7' as int)
  const TO_MAIN := Csi([Param(1049, [])], '?' as int, 'l' as int)
  const LETTER := Print('x' as int)
  const FEED := Execute(0x0A)
  const WHOLE_SCREEN := Csi([], 0, 'r' as int)

  /** The cursor to row n, counted from 1. */
  function ToRow(n: nat): Call {
    Csi([Param(n, [])], 0, 'H' as int)
  }

  function RowsUp(n: nat): Call {
    Csi([Param(n, [])], 0, 'S' as int)
  }

  /** A letter on row n of the main screen, a line feed there, and then n rows scrolled out; the bytes begin
      with what ends any string. */
  function Pieces(n: nat): seq<seq<byte>> {
    [[ESC, '7' as int], Sequence(true, Decimal(1049), 'l' as int), Sequence(false, Decimal(n), 'H' as int), ['x' as int],
     [0x0A], Sequence(false, [], 'r' as int), Sequence(false, Decimal(n), 'S' as int)]
  }

  function Breaking(n: nat): seq<byte> {
    [ESC, BACKSLASH] + Flatten(Pieces(n))
  }

  function CallsMade(n: nat): seq<Call> {
    [SAVE, TO_MAIN, ToRow(n), LETTER, FEED, WHOLE_SCREEN, RowsUp(n)]
  }

  lemma DecimalIsRead(n: nat)
    ensures ParamText(Decimal(n)) && ParseParams(Decimal(n)) == [Param(n, [])]
  {
    hide ParseParams;
    var ps := [Param(n, [])];
    ParamsRoundTrip(ps);
    assert RenderSubs([]) == [] && Decimal(n) + [] == Decimal(n);
    assert Render(ps) == Decimal(n);
  }

  lemma NothingIsRead()
    ensures ParamText([]) && ParseParams([]) == []
  {
  }

  /** The piece is read as the call, and the parser is ready for the next one. */
  predicate ReadAs(m: Machine, piece: seq<byte>, c: Call)
    requires m.Valid()
  {
    Run(m, piece).machine.state == Ground && Run(m, piece).calls == [c]
  }

  lemma PieceIsRead(m: Machine, n: nat, i: nat)
    requires m.Valid() && m.state == Ground && i < 7
    ensures ReadAs(m, Pieces(n)[i], CallsMade(n)[i])
  {
    hide Run, Sequence, ReadAs;
    SaveIsRead(m);
    OneByteIsRead(m, 'x' as int);
    OneByteIsRead(m, 0x0A);
    NumbersAreRead(m, n);
  }

  lemma NumbersAreRead(m: Machine, n: nat)
    requires m.Valid() && m.state == Ground
    ensures ReadAs(m, Sequence(true, Decimal(1049), 'l' as int), TO_MAIN)
    ensures ReadAs(m, Sequence(false, Decimal(n), 'H' as int), ToRow(n)) && ReadAs(m, Sequence(false, Decimal(n), 'S' as int), RowsUp(n))
    ensures ReadAs(m, Sequence(false, [], 'r' as int), WHOLE_SCREEN)
  {
    hide ParseParams, Sequence, Decimal, ParamText, ReadAs;
    DecimalIsRead(1049);
    DecimalIsRead(n);
    NothingIsRead();
    SequenceIsRead(m, true, Decimal(1049), 'l' as int);
    SequenceIsRead(m, false, Decimal(n), 'H' as int);
    SequenceIsRead(m, false, [], 'r' as int);
    SequenceIsRead(m, false, Decimal(n), 'S' as int);
  }

  lemma OneByte(m: Machine, b: byte)
    requires m.Valid() && (b == ESC ==> !VtParsing.InString(m.state))
    ensures Run(m, [b]) == Step(m, b)
  {
    assert [b][1..] == [] && Head(m, [b]) == (1, Step(m, b));
    hide Step;
    assert Step(m, b).calls + [] == Step(m, b).calls;
  }

  lemma SaveIsRead(m: Machine)
    requires m.Valid() && m.state == Ground
    ensures ReadAs(m, [ESC, '7' as int], SAVE)
  {
    var data := [ESC, '7' as int];
    var e := Enter(m, Escape);
    assert data[1..] == ['7' as int] && Head(m, data) == (1, Quiet(e));
    QuietFirst(m, e, data);
    OneByte(e, '7' as int);
    hide Run;
  }

  lemma OneByteIsRead(m: Machine, b: byte)
    requires m.Valid() && m.state == Ground && b in {'x' as int, 0x0A}
    ensures ReadAs(m, [b], if b == 0x0A then FEED else LETTER)
  {
    OneByte(m, b);
    hide Run;
  }

  lemma {:induction false} PiecesAreRead(m: Machine, n: nat, i: nat)
    requires m.Valid() && m.state == Ground && i <= 7
    ensures Run(m, Flatten(Pieces(n)[i..])).calls == CallsMade(n)[i..]
    decreases 7 - i
  {
    hide Run, Pieces, CallsMade;
    SevenPieces(n);
    if i == 7 {
      RunNothing(m);
    } else {
      var (piece, rest) := (Pieces(n)[i], Flatten(Pieces(n)[i + 1..]));
      assert Pieces(n)[i..][1..] == Pieces(n)[i + 1..];
      PieceIsRead(m, n, i);
      RunConcat(m, piece, rest);
      PiecesAreRead(Run(m, piece).machine, n, i + 1);
      assert CallsMade(n)[i..] == [CallsMade(n)[i]] + CallsMade(n)[i + 1..];
    }
  }

  lemma SevenPieces(n: nat)
    ensures |Pieces(n)| == 7 == |CallsMade(n)|
  {
  }

  lemma RunNothing(m: Machine)
    requires m.Valid()
    ensures Run(m, []).calls == []
  {
  }

  /** Whatever state the parser is in, it makes these calls, after one that ends what was going on. */
  lemma BreakingIsRead(m: Machine, n: nat) returns (c: Call)
    requires m.Valid()
    ensures EndsSomething(c) && Run(m, Breaking(n)).calls == [c] + CallsMade(n)
  {
    hide Run, Pieces, CallsMade;
    SevenPieces(n);
    var o := TerminatorToGround(m, Flatten(Pieces(n)));
    PiecesAreRead(o.machine, n, 0);
    assert Pieces(n)[0..] == Pieces(n) && CallsMade(n)[0..] == CallsMade(n);
    c := o.calls[0];
    assert o.calls == [c];
  }

  // ---------- its effect on one screen ----------

  /** Nothing pushed, and the same screen to scroll on. */
  predicate SamePlace(s: Screen, r: Screen) {
    r.WellFormed() && r.SameGeometry(s) && r.region == s.region && SameHistory(s, r)
  }

  lemma EndIsQuiet(s: Screen, c: Call)
    requires s.WellFormed() && EndsSomething(c)
    ensures SamePlace(s, Apply(s, c))
  {
  }

  lemma ToMain(s: Screen)
    requires s.WellFormed()
    ensures var t := Apply(s, SAVE);
            SamePlace(s, t) && SamePlace(s, Apply(t, TO_MAIN)) && !Apply(t, TO_MAIN).usingAlt
  {
    var t := Apply(s, SAVE);
    var ps := [Param(1049, [])];
    assert SetModes(t, ps, 0, false, true) == t;
    assert Apply(t, TO_MAIN) == SetModes(t, ps, 1, false, true) == LeaveAlternate(t);
  }

  /** The line carries a letter. */
  predicate Lettered(l: Line) {
    l.cells != [] && l.cells[0].codepoint != ' ' as int
  }

  lemma LetterOnRow(s: Screen, n: nat)
    requires s.WellFormed() && !s.usingAlt && 1 <= n <= s.rows
    ensures var t := Apply(s, ToRow(n));
            && SamePlace(s, t)
            && var r := Apply(t, LETTER);
               SamePlace(t, r) && !r.usingAlt && r.here.row == n - 1 && Lettered(r.grid[n - 1])
  {
    var t := Apply(s, ToRow(n));
    assert t == s.(here := s.here.(row := n - 1, col := 0));
    var cp := Translate(t.here.charset, 'x' as int);
    var u := t.(lastPrinted := cp);
    assert WrapAtMargin(u) == u && Apply(t, LETTER) == PutChar(u, cp);
  }

  /** The screen when the letter is on row n. */
  function Prepared(s: Screen, c: Call, n: nat): Screen
    requires s.WellFormed() && 1 <= n <= s.rows && EndsSomething(c)
  {
    EndIsQuiet(s, c);
    ToMain(Apply(s, c));
    LetterOnRow(Apply(Apply(Apply(s, c), SAVE), TO_MAIN), n);
    Apply(Apply(Apply(Apply(Apply(s, c), SAVE), TO_MAIN), ToRow(n)), LETTER)
  }

  lemma PreparedIs(s: Screen, c: Call, n: nat)
    requires s.WellFormed() && 1 <= n <= s.rows && EndsSomething(c)
    ensures var r := Prepared(s, c, n);
            SamePlace(s, r) && !r.usingAlt && r.here.row == n - 1 && Lettered(r.grid[n - 1])
  {
    hide Apply, SamePlace, Lettered;
    EndIsQuiet(s, c);
    ToMain(Apply(s, c));
    var t := Apply(Apply(Apply(s, c), SAVE), TO_MAIN);
    LetterOnRow(t, n);
    SamePlaceOn(s, Apply(s, c), t);
    SamePlaceOn(t, Apply(t, ToRow(n)), Prepared(s, c, n));
    SamePlaceOn(s, t, Prepared(s, c, n));
  }

  lemma SamePlaceOn(s: Screen, r: Screen, t: Screen)
    requires SamePlace(s, r) && SamePlace(r, t)
    ensures SamePlace(s, t)
  {
  }

  /** In an inverted region nothing scrolls. */
  lemma FeedDoesNothing(s: Screen)
    requires s.WellFormed() && s.region.top > s.region.bottom && s.here.row in {s.rows - 1, s.region.bottom}
    ensures Apply(s, FEED) == s
  {
  }

  /** At the bottom of a proper region the letter moves up, or out if the region is one row. */
  lemma FeedMoves(s: Screen)
    requires s.WellFormed() && !s.usingAlt && 0 <= s.region.top <= s.region.bottom == s.here.row
    ensures var r := Apply(s, FEED);
            && r.WellFormed() && r.SameGeometry(s) && !r.usingAlt && Grows(s, r)
            && !Lettered(r.grid[s.here.row])
            && r.history == s.history + (if s.region.top == 0 then [s.grid[0]] else [])
  {
    NewLineGrows(s);
    var (top, bottom) := (s.region.top, s.region.bottom);
    assert ScrollUp(s, top, bottom, 0) == s;
    assert Apply(s, FEED) == NewLine(s) == ScrollUp(s, top, bottom, 1) == ScrollUpOnce(s, top, bottom);
    hide Apply, NewLine, ScrollUp, Grows;
  }

  lemma OnceMore(s: Screen, n: nat)
    requires s.WellFormed() && 1 <= n <= s.rows
    ensures ScrollUp(s, 0, s.rows - 1, n) == ScrollUpOnce(ScrollUp(s, 0, s.rows - 1, n - 1), 0, s.rows - 1)
  {
    hide ScrollUpOnce, Screen.WellFormed, Screen.Framed;
  }

  lemma OnceKeepsMain(s: Screen)
    requires s.WellFormed()
    ensures var r := ScrollUpOnce(s, 0, s.rows - 1);
            r.usingAlt == s.usingAlt && r.limit == s.limit && (!s.usingAlt && s.limit >= 1 ==> r.scrollback != [])
  {
  }

  lemma {:induction false} HoldsTheLast(s: Screen, n: nat)
    requires s.WellFormed() && n <= s.rows
    ensures var r := ScrollUp(s, 0, s.rows - 1, n);
            && r.usingAlt == s.usingAlt && r.limit == s.limit
            && (!s.usingAlt && s.limit >= 1 && n >= 1 ==> r.scrollback != [])
  {
    hide ScrollUp, ScrollUpOnce, Screen.WellFormed, Screen.Framed;
    if n > 0 {
      HoldsTheLast(s, n - 1);
      OnceMore(s, n);
      OnceKeepsMain(ScrollUp(s, 0, s.rows - 1, n - 1));
    } else {
      NoScroll(s);
    }
  }

  lemma NoScroll(s: Screen)
    requires s.WellFormed()
    ensures ScrollUp(s, 0, s.rows - 1, 0) == s
  {
  }

  lemma RowsUpIs(s: Screen, n: nat)
    requires s.WellFormed() && s.region == Region(0, s.rows - 1) && 1 <= n
    ensures Apply(s, RowsUp(n)) == ScrollUp(s, 0, s.rows - 1, n)
  {
    hide ScrollUp, ScrollUpOnce, Screen.WellFormed, Screen.Framed;
  }

  lemma WholeScreenIs(s: Screen)
    requires s.WellFormed()
    ensures Apply(s, WHOLE_SCREEN) == s.(region := Region(0, s.rows - 1), here := s.here.(row := 0, col := 0))
  {
  }

  /** The first n rows go out, in order. */
  lemma RowsGoOut(s: Screen, n: nat)
    requires s.WellFormed() && !s.usingAlt && 1 <= n <= s.rows
    ensures var t := Apply(s, WHOLE_SCREEN);
            && t.WellFormed()
            && var r := Apply(t, RowsUp(n));
               r.WellFormed() && n <= |s.grid| && Grows(s, r) && r.history == s.history + s.grid[..n] && (s.limit >= 1 ==> r.scrollback != [])
  {
    var t := Apply(s, WHOLE_SCREEN);
    WholeScreenIs(s);
    WholeIsInside(t);
    hide Apply, ScrollUp, Screen.WellFormed, Screen.Framed, Window, WithinLimit;
    RowsUpIs(t, n);
    ScrollUpGrows(t, 0, s.rows - 1, n);
    ScrollUpIsSplice(t, 0, s.rows - 1, n);
    HoldsTheLast(t, n);
  }

  lemma WholeIsInside(s: Screen)
    requires s.WellFormed()
    ensures Inside(s, 0, s.rows - 1) && |s.grid| == s.rows
  {
  }

  // ---------- the calls as a run ----------

  lemma OneStep(s: Screen, c: Call, rest: seq<Call>)
    requires s.WellFormed() && Apply(s, c).WellFormed()
    ensures Ready(s, [c] + rest) <==> Ready(Apply(s, c), rest)
    ensures Ready(s, [c] + rest) ==> ApplyAll(s, [c] + rest) == ApplyAll(Apply(s, c), rest)
  {
    hide Apply;
    assert ([c] + rest)[0] == c && ([c] + rest)[1..] == rest;
  }

  lemma NothingLeft(s: Screen)
    requires s.WellFormed()
    ensures Ready(s, []) && ApplyAll(s, []) == s
  {
  }

  lemma LastCalls(s: Screen, a: Call, b: Call, c: Call)
    requires s.WellFormed() && Apply(s, a).WellFormed() && Apply(Apply(s, a), b).WellFormed()
    requires Apply(Apply(Apply(s, a), b), c).WellFormed()
    ensures Ready(s, [a, b, c]) && ApplyAll(s, [a, b, c]) == Apply(Apply(Apply(s, a), b), c)
  {
    hide *;
    var p := Apply(s, a);
    assert [a, b, c] == [a] + [b, c];
    LastTwo(p, b, c);
    OneStep(s, a, [b, c]);
  }

  lemma LastTwo(s: Screen, a: Call, b: Call)
    requires s.WellFormed() && Apply(s, a).WellFormed() && Apply(Apply(s, a), b).WellFormed()
    ensures Ready(s, [a, b]) && ApplyAll(s, [a, b]) == Apply(Apply(s, a), b)
  {
    hide *;
    assert [a, b] == [a] + [b] && [b] == [b] + [];
    NothingLeft(Apply(Apply(s, a), b));
    OneStep(Apply(s, a), b, []);
    OneStep(s, a, [b]);
  }

  lemma FirstCalls(s: Screen, c: Call, n: nat, rest: seq<Call>)
    requires s.WellFormed() && 1 <= n <= s.rows && EndsSomething(c)
    ensures Prepared(s, c, n).WellFormed()
    ensures Ready(Prepared(s, c, n), rest) ==>
              && Ready(s, [c, SAVE, TO_MAIN, ToRow(n), LETTER] + rest)
              && ApplyAll(s, [c, SAVE, TO_MAIN, ToRow(n), LETTER] + rest) == ApplyAll(Prepared(s, c, n), rest)
  {
    EndIsQuiet(s, c);
    ToMain(Apply(s, c));
    LetterOnRow(Apply(Apply(Apply(s, c), SAVE), TO_MAIN), n);
    hide Apply, Ready, ApplyAll, Lettered, Screen.WellFormed;
    var s1 := Apply(s, c);
    var s2 := Apply(s1, SAVE);
    var s3 := Apply(s2, TO_MAIN);
    var s4 := Apply(s3, ToRow(n));
    var (r1, r2, r3) := ([LETTER] + rest, [ToRow(n)] + ([LETTER] + rest), [TO_MAIN] + ([ToRow(n)] + ([LETTER] + rest)));
    OneStep(s4, LETTER, rest);
    OneStep(s3, ToRow(n), r1);
    OneStep(s2, TO_MAIN, r2);
    OneStep(s1, SAVE, r3);
    OneStep(s, c, [SAVE] + r3);
    assert [c, SAVE, TO_MAIN, ToRow(n), LETTER] + rest == [c] + ([SAVE] + r3);
  }

  /** The first n rows have gone out. */
  predicate RowsOut(f: Screen, r: Screen, n: nat) {
    Grows(f, r) && n <= |f.grid| && r.history == f.history + f.grid[..n] && (f.limit >= 1 ==> r.scrollback != [])
  }

  /** What the whole run comes to. */
  lemma RunIs(s: Screen, c: Call, n: nat)
    requires s.WellFormed() && 1 <= n <= s.rows && EndsSomething(c)
    requires var p := Prepared(s, c, n);
             p.WellFormed() && Apply(p, FEED).WellFormed() && !Apply(p, FEED).usingAlt && Apply(p, FEED).rows == s.rows
    ensures Ready(s, [c] + CallsMade(n))
    ensures RowsOut(Apply(Prepared(s, c, n), FEED), ApplyAll(s, [c] + CallsMade(n)), n)
  {
    hide Apply, Ready, ApplyAll, Prepared, Grows, Screen.WellFormed, Screen.Framed;
    var p := Prepared(s, c, n);
    RowsGoOut(Apply(p, FEED), n);
    LastCalls(p, FEED, WHOLE_SCREEN, RowsUp(n));
    FirstCalls(s, c, n, [FEED, WHOLE_SCREEN, RowsUp(n)]);
    assert [c] + CallsMade(n) == [c, SAVE, TO_MAIN, ToRow(n), LETTER] + [FEED, WHOLE_SCREEN, RowsUp(n)];
  }

  /** On a screen with an inverted region the last line pushed is the one with the letter. */
  lemma LetterIsPushed(a: Screen, c: Call, n: nat, calls: seq<Call>)
    requires a.WellFormed() && EndsSomething(c) && 1 <= n <= a.rows && calls == [c] + CallsMade(n)
    requires a.region.top > a.region.bottom && n - 1 in {a.rows - 1, a.region.bottom}
    ensures Ready(a, calls)
    ensures var r := ApplyAll(a, calls);
            a.history <= r.history && |r.history| == |a.history| + n && Lettered(r.history[|r.history| - 1])
  {
    PreparedIs(a, c, n);
    var p := Prepared(a, c, n);
    FeedDoesNothing(p);
    assert |p.grid| == p.rows;
    hide Apply, Ready, ApplyAll, Prepared, Lettered, Grows, CallsMade;
    RunIs(a, c, n);
  }

  /** One blank line was pushed last, and one line more than n rows if the region starts at the top. */
  predicate BlankOut(b: Screen, r: Screen, n: nat) {
    && (Window(b) ==> Window(r)) && (b.limit >= 1 ==> r.scrollback != [])
    && |r.history| == |b.history| + n + (if b.region.top == 0 then 1 else 0) >= 1
    && !Lettered(r.history[|r.history| - 1])
  }

  /** Where the region is proper and goes down to row n, the last line pushed is blank. */
  lemma LetterIsNotPushed(b: Screen, c: Call, n: nat, calls: seq<Call>)
    requires b.WellFormed() && EndsSomething(c) && calls == [c] + CallsMade(n)
    requires 0 <= b.region.top <= b.region.bottom == n - 1
    ensures Ready(b, calls) && BlankOut(b, ApplyAll(b, calls), n)
  {
    assert b.rows >= n;
    hide *;
    BlankBelow(b, c, n);
    RunIs(b, c, n);
    OutIs(b, Apply(Prepared(b, c, n), FEED), ApplyAll(b, calls), n);
  }

  lemma OutIs(b: Screen, f: Screen, r: Screen, n: nat)
    requires Cleared(b, f, n) && RowsOut(f, r, n)
    ensures BlankOut(b, r, n)
  {
    hide Window, Lettered, Screen.WellFormed;
    assert r.history[|r.history| - 1] == f.grid[n - 1];
  }

  /** The line feed left a blank row n on the main screen. */
  predicate Cleared(b: Screen, f: Screen, n: nat) {
    && f.WellFormed() && !f.usingAlt && f.rows == b.rows && f.limit == b.limit
    && (Window(b) ==> Window(f)) && 1 <= n <= |f.grid| && !Lettered(f.grid[n - 1])
    && |f.history| == |b.history| + (if b.region.top == 0 then 1 else 0)
  }

  lemma BlankBelow(b: Screen, c: Call, n: nat)
    requires b.WellFormed() && EndsSomething(c) && 0 <= b.region.top <= b.region.bottom == n - 1
    ensures n <= b.rows && Prepared(b, c, n).WellFormed()
    ensures var f := Apply(Prepared(b, c, n), FEED);
            f.WellFormed() && !f.usingAlt && f.rows == b.rows && Cleared(b, f, n)
  {
    PreparedIs(b, c, n);
    var p := Prepared(b, c, n);
    FeedMoves(p);
    assert |Apply(p, FEED).grid| == Apply(p, FEED).rows;
    hide Apply, Prepared, Lettered, Screen.WellFormed, Screen.Framed;
  }

  // ---------- the conversation that comes apart ----------

  /** A snapshot of a screen with an inverted region gives a proper one, down to the last row or to where
      the inverted one ended. */
  lemma RestoredIs(prior: Terminal, t: Terminal, max: int)
    requires Running(t) && FitsScreen(t.screen, max) && Window(t.screen) && !LH.Proper(t)
    ensures var (a, b) := (t.screen, Restored(prior, t, max).screen);
            && b.WellFormed() && Window(b) && |b.history| == |a.history| && b.limit == a.limit
            && 0 <= b.region.top <= b.region.bottom < a.rows && b.region.bottom in {a.rows - 1, a.region.bottom}
  {
    SnapshotMirrorsIff(prior, t, max);
    SmallSigned(t.screen.region.bottom);
    hide Mirrors, LineCodec.FitLines;
  }

  lemma CallsArePlain(c: Call, n: nat)
    requires EndsSomething(c)
    ensures LH.PlainCalls([c] + CallsMade(n))
  {
  }

  /** One step of a run. */
  lemma RunsOn(w: LH.World, steps: seq<LH.Step>, v: LH.World)
    requires LH.Sound(w) && steps != [] && LH.Enabled(w, steps[0]) && v == LH.Next(w, steps[0]) && LH.Run(v, steps[1..])
    ensures LH.Run(w, steps) && LH.After(w, steps) == LH.After(v, steps[1..])
    ensures LH.FaithfulRun(w, steps) <==> LH.Faithful(w, steps[0]) && LH.FaithfulRun(v, steps[1..])
  {
  }

  lemma Received(v: LH.World, data: seq<byte>)
    requires LH.Sound(v) && v.stream == [LH.Output(data)] && Safe(v.behind, data) && Safe(v.client, data)
    ensures LH.Run(v, [LH.Receive]) && LH.FaithfulRun(v, [LH.Receive])
    ensures var r := LH.After(v, [LH.Receive]);
            r.daemon == v.daemon && r.client == Fed(v.client, data)
  {
    hide Fed, Safe, Running;
    assert [LH.Receive][1..] == [];
  }

  lemma OneOut(w: LH.World, data: seq<byte>)
    requires LH.Sound(w) && w.stream == [] && LH.Plain(w.daemon, data)
    ensures LH.Enabled(w, LH.PutOut(data)) && LH.Faithful(w, LH.PutOut(data))
    ensures var v := LH.Next(w, LH.PutOut(data));
            v.stream == [LH.Output(data)] && v.behind == w.behind && v.client == w.client && v.daemon == Fed(w.daemon, data)
  {
    hide Fed, Safe, Running, LH.PlainCalls;
  }

  /** The daemon puts something out and the client receives it. */
  lemma OneChunk(w: LH.World, data: seq<byte>)
    requires LH.Sound(w) && w.stream == [] && LH.Plain(w.daemon, data) && Safe(w.behind, data) && Safe(w.client, data)
    ensures var steps := [LH.PutOut(data), LH.Receive];
            && LH.Run(w, steps) && LH.FaithfulRun(w, steps)
            && LH.After(w, steps).daemon == Fed(w.daemon, data) && LH.After(w, steps).client == Fed(w.client, data)
  {
    hide *;
    var steps := [LH.PutOut(data), LH.Receive];
    assert steps[1..] == [LH.Receive];
    OneOut(w, data);
    var v := LH.Next(w, LH.PutOut(data));
    Received(v, data);
    RunsOn(w, steps, v);
  }

  /** More lines numbered than there are, or another last line. */
  lemma NotContiguous(w: LH.World)
    requires var (c, history) := (w.client.screen, w.daemon.screen.history);
             && Window(c) && c.scrollback != [] && |c.history| >= |history| > 0
             && Lettered(history[|history| - 1]) && !Lettered(c.history[|c.history| - 1])
    ensures !LH.Contiguous(w)
  {
  }

  /** The two sides are about to part. */
  predicate Parting(t: Terminal, u: Terminal, n: nat)
    requires Running(t) && Running(u)
  {
    && u.parser == t.parser && 1 <= n <= t.screen.rows
    && t.screen.region.top > t.screen.region.bottom && n - 1 in {t.screen.rows - 1, t.screen.region.bottom}
    && 0 <= u.screen.region.top <= u.screen.region.bottom == n - 1
    && Window(u.screen) && |u.screen.history| == |t.screen.history| && u.screen.limit >= 1
  }

  /** Both sides fed the output that breaks them apart. */
  lemma LettersDiffer(t: Terminal, u: Terminal, n: nat)
    requires Running(t) && Running(u) && Parting(t, u, n)
    ensures LH.Plain(t, Breaking(n)) && Safe(u, Breaking(n))
    ensures var (c, history) := (Fed(u, Breaking(n)).screen, Fed(t, Breaking(n)).screen.history);
            && Window(c) && c.scrollback != [] && |c.history| >= |history| > 0
            && Lettered(history[|history| - 1]) && !Lettered(c.history[|c.history| - 1])
  {
    hide VtParsing.Run, ApplyAll, Ready, Window, Lettered, CallsMade, Breaking, LH.PlainCalls;
    var c := BreakingIsRead(t.parser, n);
    var calls := [c] + CallsMade(n);
    CallsArePlain(c, n);
    LetterIsPushed(t.screen, c, n, calls);
    LetterIsNotPushed(u.screen, c, n, calls);
  }

  lemma TheyPart(w: LH.World, n: nat, data: seq<byte>)
    requires LH.Sound(w) && w.stream == [] && w.behind == w.daemon && Parting(w.daemon, w.client, n) && data == Breaking(n)
    ensures var steps := [LH.PutOut(data), LH.Receive];
            LH.Run(w, steps) && LH.FaithfulRun(w, steps) && !LH.Contiguous(LH.After(w, steps))
  {
    hide Breaking, LH.Run, LH.FaithfulRun, LH.After, LH.Contiguous, Window, Lettered, Fed, Safe, LH.PlainCalls, Running;
    LettersDiffer(w.daemon, w.client, n);
    OneChunk(w, data);
    NotContiguous(LH.After(w, [LH.PutOut(data), LH.Receive]));
  }

  /** After a snapshot of a pane with an inverted region there is plain output that breaks contiguity, in
      whatever state pane and parser are. */
  lemma InvertedRegionBreaks(daemon: Terminal, prior: Terminal, max: int) returns (steps: seq<LH.Step>)
    requires Running(daemon) && Window(daemon.screen) && FitsScreen(daemon.screen, max) && daemon.screen.limit >= 1
    requires !LH.Proper(daemon)
    ensures var w := LH.Attached(daemon, prior, max);
            LH.Run(w, steps) && LH.FaithfulRun(w, steps) && !LH.Contiguous(LH.After(w, steps))
  {
    var w := LH.Attached(daemon, prior, max);
    RestoredIs(prior, daemon, max);
    LH.RestoredRuns(prior, daemon, max);
    hide FitsScreen, Restored, Window, Running, Breaking, LH.Contiguous, LH.Run, LH.FaithfulRun, LH.After;
    var n := w.client.screen.region.bottom + 1;
    TheyPart(w, n, Breaking(n));
    steps := [LH.PutOut(Breaking(n)), LH.Receive];
  }

  /** A pane whose client was just sent a snapshot: the client's history stays contiguous through every
      faithful run exactly when the scroll region was not inverted. */
  lemma ContiguousIff(daemon: Terminal, prior: Terminal, max: int)
    requires Running(daemon) && Window(daemon.screen) && FitsScreen(daemon.screen, max) && daemon.screen.limit >= 1
    ensures var w := LH.Attached(daemon, prior, max);
            LH.Proper(daemon) <==>
            (forall steps :: LH.Run(w, steps) && LH.FaithfulRun(w, steps) ==> LH.Contiguous(LH.After(w, steps)))
  {
    var w := LH.Attached(daemon, prior, max);
    hide Running, Window, FitsScreen, LH.Attached, LH.Run, LH.FaithfulRun, LH.Contiguous, LH.After;
    if LH.Proper(daemon) {
      forall steps | LH.Run(w, steps) && LH.FaithfulRun(w, steps) ensures LH.Contiguous(LH.After(w, steps)) {
        LH.HistoryIsContiguous(daemon, prior, max, steps);
      }
    } else {
      var steps := InvertedRegionBreaks(daemon, prior, max);
    }
  }

  // ---------- two small conversations ----------

  /** One cell, and some scrollback. */
  function Small(region: Region): (t: Terminal)
    requires 0 <= region.top && -1 <= region.bottom < 1
    ensures Running(t) && Window(t.screen) && t.screen.InRange(t.screen.saved) && t.screen.limit >= 1
  {
    Terminal(Fresh(1, 1, 10).(region := region), INITIAL)
  }

  lemma PartsFit()
    ensures LineCodec.FitLines(BlankGrid(1, 1)) && LineCodec.FitLines([])
    ensures FitsPosition(HOME) && FitsStack([]) && FitsLinks(NO_LINKS)
    ensures MODES.mouse < Range(2) && 10 < Range(4) && 0 < Range(2)
  {
    RangeValues();
    assert LineCodec.FitsLine(BlankLine(1));
  }

  lemma SmallFits(region: Region, max: int)
    requires 0 <= region.top && -1 <= region.bottom < 1
    ensures FitsScreen(Small(region).screen, max)
  {
    SmallIs(region, max);
    PartsFit();
    hide LineCodec.FitLines, FitsPosition, FitsStack, FitsLinks, Range, BlankGrid, Small, Tail, Included, Omitted, Screen.WellFormed;
  }

  lemma SmallIs(region: Region, max: int)
    requires 0 <= region.top && -1 <= region.bottom < 1
    ensures var s := Small(region).screen;
            && s.WellFormed() && s.cols == 1 == s.rows && s.limit == 10 && s.grid == BlankGrid(1, 1) == s.alt
            && Tail(s, max) == [] && Included(s, max) == 0 == Omitted(s, max)
            && s.here == HOME == s.saved && s.modes == MODES && s.lastPrinted == 0
            && s.keyboard == Keyboard([], []) && s.links == NO_LINKS
  {
    hide BlankGrid;
  }

  /** CSI 0 ; 0 r on a fresh screen. */
  lemma RegionOfZeros()
    ensures Apply(Fresh(1, 1, 10), Csi([Param(0, []), Param(0, [])], 0, 'r' as int)) == Small(Region(0, -1)).screen
  {
  }

  lemma FeedIsRead()
    ensures Run(INITIAL, [0x0A]) == Outcome(INITIAL, [FEED])
  {
    OneByte(INITIAL, 0x0A);
  }

  lemma FeedOnce(t: Terminal)
    requires Running(t) && t.parser == INITIAL && t.screen.rows == 1 && !t.screen.usingAlt
    ensures Safe(t, [0x0A]) && Fed(t, [0x0A]).screen == NewLine(t.screen)
  {
    FeedIsRead();
    assert [FEED][1..] == [];
    hide NewLine, VtParsing.Run;
  }

  /** What a snapshot makes of the region that CSI 0 ; 0 r leaves. */
  lemma SmallRestored(prior: Terminal, max: int)
    ensures var r := Restored(prior, Small(Region(0, -1)), max);
            && r.parser == INITIAL && r.screen.rows == 1 && !r.screen.usingAlt && r.screen.region == Region(0, 0)
            && r.screen.scrollback == [] && r.screen.limit == 10 && r.screen.here.row == 0
  {
    SmallSigned(-1);
    SmallSigned(0);
  }

  lemma OneLineOut(s: Screen)
    requires s.WellFormed() && s.rows == 1 && !s.usingAlt && s.region == Region(0, 0)
    requires s.scrollback == [] && s.limit == 10 && s.here.row == 0
    ensures |NewLine(s).scrollback| == 1
  {
    assert ScrollUp(s, 0, 0, 0) == s;
  }

  /** One line feed: the client has a line, the pane has none. */
  lemma OneLineApart(w: LH.World)
    requires LH.Sound(w) && w.stream == [] && w.behind == w.daemon && w.daemon.parser == INITIAL == w.client.parser
    requires var a := w.daemon.screen; a.rows == 1 && !a.usingAlt && a.region == Region(0, -1) && a.history == []
    requires var b := w.client.screen;
             && b.rows == 1 && !b.usingAlt && b.region == Region(0, 0)
             && b.scrollback == [] && b.limit == 10 && b.here.row == 0
    ensures var steps := [LH.PutOut([0x0A]), LH.Receive];
            && LH.Run(w, steps) && LH.FaithfulRun(w, steps)
            && LH.After(w, steps).daemon.screen.history == [] && |LH.After(w, steps).client.screen.scrollback| == 1
  {
    FeedIsRead();
    FeedOnce(w.daemon);
    FeedOnce(w.client);
    OneLineOut(w.client.screen);
    assert NewLine(w.daemon.screen) == w.daemon.screen;
    hide Fed, Safe, NewLine, VtParsing.Run, Running, LH.Run, LH.FaithfulRun, LH.After;
    OneChunk(w, [0x0A]);
  }

  /** The region CSI 0 ; 0 r leaves, a snapshot and one line feed. */
  lemma LineFeedBreaks(prior: Terminal, max: int)
    ensures var daemon := Small(Region(0, -1));
            && FitsScreen(daemon.screen, max)
            && var w := LH.Attached(daemon, prior, max);
               var steps := [LH.PutOut([0x0A]), LH.Receive];
               && LH.Run(w, steps) && LH.FaithfulRun(w, steps)
               && LH.After(w, steps).daemon.screen.history == [] && |LH.After(w, steps).client.screen.scrollback| == 1
               && !LH.Contiguous(LH.After(w, steps))
  {
    SmallFits(Region(0, -1), max);
    hide FitsScreen, Restored, LH.Run, LH.FaithfulRun, LH.After;
    SmallRestored(prior, max);
    OneLineApart(LH.Attached(Small(Region(0, -1)), prior, max));
  }

  // ---------- a gap replayed across a cut terminator ----------

  const CUT_A: seq<byte> := [ESC, ']' as int, ESC]
  const CUT_B: seq<byte> := [BACKSLASH, 0x0A]
  const ESCAPED := INITIAL.(state := Escape)
  const IN_OSC := ESCAPED.(state := OscString)
  const STILL_IN_OSC := IN_OSC.(osc := [BACKSLASH, 0x0A])

  lemma OscBegins(rest: seq<byte>)
    ensures Run(INITIAL, [ESC, ']' as int] + rest) == Run(IN_OSC, rest)
  {
    var data := [ESC, ']' as int] + rest;
    assert data[1..][1..] == rest;
    assert Step(INITIAL, ESC) == Quiet(ESCAPED) && Step(ESCAPED, ']' as int) == Quiet(IN_OSC);
    hide Step;
    QuietFirst(INITIAL, ESCAPED, data);
    QuietFirst(ESCAPED, IN_OSC, data[1..]);
  }

  lemma OscEnds()
    ensures Run(IN_OSC, [ESC, BACKSLASH, 0x0A]).calls == [Osc(0, []), FEED]
  {
    FeedIsRead();
    assert [ESC, BACKSLASH, 0x0A][2..] == [0x0A];
    assert Head(IN_OSC, [ESC, BACKSLASH, 0x0A]) == (2, Outcome(INITIAL.(osc := []).(state := Ground), [Osc(0, [])]));
    hide Head;
  }

  lemma OscGoesOn()
    ensures Run(IN_OSC, [ESC]) == Quiet(IN_OSC)
    ensures Run(IN_OSC, CUT_B) == Quiet(STILL_IN_OSC)
  {
    var l := IN_OSC.(osc := [BACKSLASH]);
    assert Step(IN_OSC, ESC) == Quiet(IN_OSC) && Step(IN_OSC, BACKSLASH) == Quiet(l) && Step(l, 0x0A) == Quiet(STILL_IN_OSC);
    assert CUT_B[1..] == [0x0A] && [ESC][1..] == [] && [0x0A][1..] == [];
    assert Head(IN_OSC, CUT_B) == (1, Quiet(l)) && Head(IN_OSC, [ESC]) == (1, Quiet(IN_OSC)) && Head(l, [0x0A]) == (1, Quiet(STILL_IN_OSC));
    hide Step, Head;
    QuietFirst(IN_OSC, l, CUT_B);
    QuietFirst(IN_OSC, IN_OSC, [ESC]);
    QuietFirst(l, STILL_IN_OSC, [0x0A]);
  }

  /** The beginning of a string, a string still going on after its cut end, and what both are in one. */
  lemma CutIsRead()
    ensures Run(INITIAL, CUT_A) == Quiet(IN_OSC) && Run(IN_OSC, CUT_B) == Quiet(STILL_IN_OSC)
    ensures Run(INITIAL, CUT_A + CUT_B).calls == [Osc(0, []), FEED]
  {
    hide Run;
    OscBegins([ESC]);
    OscBegins([ESC, BACKSLASH, 0x0A]);
    OscGoesOn();
    OscEnds();
    assert [ESC, ']' as int] + [ESC] == CUT_A && [ESC, ']' as int] + [ESC, BACKSLASH, 0x0A] == CUT_A + CUT_B;
  }

  lemma CutIsNotClean()
    ensures !CleanCuts(INITIAL, [CUT_A, CUT_B])
  {
    CutIsRead();
    ConcatIff(INITIAL, CUT_A, CUT_B);
    assert [CUT_A, CUT_B][1..] == [CUT_B] && [CUT_B][1..] == [] && Flatten([CUT_B]) == CUT_B + [] == CUT_B;
    hide Run, CutInsideTerminator;
  }

  /** No call, no change of the screen. */
  lemma FedQuietly(t: Terminal, data: seq<byte>, m: Machine)
    requires Running(t) && m.Valid() && Run(t.parser, data) == Quiet(m)
    ensures LH.Plain(t, data) && Fed(t, data) == Terminal(t.screen, m)
  {
    hide VtParsing.Run;
  }

  lemma OscThenFeed(s: Screen)
    requires s.WellFormed()
    ensures Ready(s, [Osc(0, []), FEED]) && ApplyAll(s, [Osc(0, []), FEED]) == NewLine(s)
  {
    assert Apply(s, Osc(0, [])) == s && Apply(s, FEED) == NewLine(s);
    hide Apply, NewLine, Ready, ApplyAll;
    OneStep(NewLine(s), FEED, []);
    OneStep(s, FEED, []);
    OneStep(s, Osc(0, []), [FEED]);
    assert [FEED] + [] == [FEED] && [Osc(0, [])] + [FEED] == [Osc(0, []), FEED];
    NothingLeft(NewLine(s));
  }

  /** An OSC string without effect, and a line feed. */
  lemma FedGap(t: Terminal)
    requires Running(t) && t.parser == INITIAL
    ensures Safe(t, CUT_A + CUT_B) && Fed(t, CUT_A + CUT_B).screen == NewLine(t.screen)
  {
    CutIsRead();
    OscThenFeed(t.screen);
    hide VtParsing.Run, NewLine, Ready, ApplyAll;
  }

  function CutRun(): seq<LH.Step> {
    [LH.PutOut(CUT_A), LH.PutOut(CUT_B), LH.ReplayGap, LH.Receive]
  }

  /** The daemon has put out both chunks and no more has happened. */
  predicate BothOut(w: LH.World, x: LH.World) {
    && LH.Sound(x) && x.daemon.screen == w.daemon.screen && x.client == w.client && x.behind == w.behind
    && x.stream == [LH.Output(CUT_A), LH.Output(CUT_B)]
  }

  lemma BothOutIs(w: LH.World) returns (u: LH.World, x: LH.World)
    requires LH.Sound(w) && w.stream == [] && w.daemon.parser == INITIAL
    ensures LH.Enabled(w, LH.PutOut(CUT_A)) && u == LH.Next(w, LH.PutOut(CUT_A))
    ensures LH.Enabled(u, LH.PutOut(CUT_B)) && x == LH.Next(u, LH.PutOut(CUT_B))
    ensures BothOut(w, x)
  {
    CutIsRead();
    hide VtParsing.Run, Safe, Fed, Running, LH.Plain;
    FedQuietly(w.daemon, CUT_A, IN_OSC);
    u := LH.Next(w, LH.PutOut(CUT_A));
    FedQuietly(u.daemon, CUT_B, STILL_IN_OSC);
    x := LH.Next(u, LH.PutOut(CUT_B));
    assert x.stream == [LH.Output(CUT_A)] + [LH.Output(CUT_B)];
  }

  lemma GapIs(stream: seq<LH.Item>)
    requires stream == [LH.Output(CUT_A), LH.Output(CUT_B)]
    ensures LH.Unread(stream) == [CUT_A, CUT_B] && LH.Joined([CUT_A, CUT_B]) == [LH.Output(CUT_A + CUT_B)]
  {
    var rest := stream[1..];
    assert rest == [LH.Output(CUT_B)] && rest[1..] == [];
    assert LH.Unread(rest) == [CUT_B] + [] == [CUT_B] && LH.Unread(stream) == [CUT_A] + [CUT_B];
    assert [CUT_A, CUT_B][1..] == [CUT_B] && Flatten([CUT_B]) == CUT_B + [] == CUT_B;
  }

  /** The world when the gap is on its way. */
  lemma GapSent(w: LH.World, x: LH.World) returns (v: LH.World)
    requires BothOut(w, x) && w.behind.parser == INITIAL
    ensures LH.Enabled(x, LH.ReplayGap) && v == LH.Next(x, LH.ReplayGap) && !LH.Faithful(x, LH.ReplayGap)
    ensures LH.Sound(v) && v.daemon.screen == w.daemon.screen && v.client == w.client && v.behind == w.behind
    ensures v.stream == [LH.Output(CUT_A + CUT_B)]
  {
    CutIsNotClean();
    GapIs(x.stream);
    hide Running, CleanCuts, LH.Unread, LH.Joined;
    v := LH.Next(x, LH.ReplayGap);
  }

  lemma CutGap(w: LH.World) returns (v: LH.World)
    requires LH.Sound(w) && w.stream == [] && w.behind == w.daemon && w.daemon.parser == INITIAL
    ensures LH.Sound(v) && v.daemon.screen == w.daemon.screen && v.client == w.client && v.behind == w.behind
    ensures v.stream == [LH.Output(CUT_A + CUT_B)]
    ensures LH.Run(v, [LH.Receive]) ==>
              && LH.Run(w, CutRun()) && !LH.FaithfulRun(w, CutRun())
              && LH.After(w, CutRun()) == LH.After(v, [LH.Receive])
  {
    var u, x := BothOutIs(w);
    hide LH.Next, LH.Enabled, LH.Faithful, LH.Run, LH.FaithfulRun, LH.After, Running, CutRun;
    v := GapSent(w, x);
    if LH.Run(v, [LH.Receive]) { FourSteps(w, u, x, v); }
  }

  lemma FourSteps(w: LH.World, u: LH.World, x: LH.World, v: LH.World)
    requires LH.Sound(w) && LH.Enabled(w, LH.PutOut(CUT_A)) && u == LH.Next(w, LH.PutOut(CUT_A))
    requires LH.Enabled(u, LH.PutOut(CUT_B)) && x == LH.Next(u, LH.PutOut(CUT_B))
    requires LH.Enabled(x, LH.ReplayGap) && v == LH.Next(x, LH.ReplayGap) && !LH.Faithful(x, LH.ReplayGap)
    requires LH.Run(v, [LH.Receive])
    ensures LH.Run(w, CutRun()) && !LH.FaithfulRun(w, CutRun()) && LH.After(w, CutRun()) == LH.After(v, [LH.Receive])
  {
    hide *;
    CutSteps();
    var (s1, s2) := (CutRun()[1..], CutRun()[1..][1..]);
    RunsOn(x, s2, v);
    RunsOn(u, s1, x);
    RunsOn(w, CutRun(), u);
  }

  lemma CutSteps()
    ensures |CutRun()| == 4 && CutRun()[0] == LH.PutOut(CUT_A) && CutRun()[1..][0] == LH.PutOut(CUT_B)
    ensures CutRun()[1..][1..][0] == LH.ReplayGap && CutRun()[1..][1..][1..] == [LH.Receive]
  {
  }

  /** Output cut inside a terminator and replayed as one gap: the client has a line, the pane has none. */
  lemma CutInGapBreaks(prior: Terminal, max: int)
    ensures var daemon := Small(Region(0, 0));
            && FitsScreen(daemon.screen, max) && LH.Proper(daemon)
            && var w := LH.Attached(daemon, prior, max);
               && LH.Run(w, CutRun()) && !LH.FaithfulRun(w, CutRun()) && !LH.Contiguous(LH.After(w, CutRun()))
  {
    var daemon := Small(Region(0, 0));
    SmallFits(Region(0, 0), max);
    ProperRestored(prior, max);
    hide FitsScreen, Restored, LH.Run, LH.FaithfulRun, LH.After;
    var w := LH.Attached(daemon, prior, max);
    var v := CutGap(w);
    GapApart(v);
  }

  lemma ProperRestored(prior: Terminal, max: int)
    ensures var r := Restored(prior, Small(Region(0, 0)), max);
            && r.parser == INITIAL && r.screen.rows == 1 && !r.screen.usingAlt && r.screen.region == Region(0, 0)
            && r.screen.scrollback == [] && r.screen.limit == 10 && r.screen.here.row == 0
  {
    SmallSigned(0);
  }

  lemma GapApart(v: LH.World)
    requires LH.Sound(v) && v.stream == [LH.Output(CUT_A + CUT_B)] && v.daemon.screen.history == []
    requires v.behind.parser == INITIAL == v.client.parser
    requires var b := v.client.screen;
             && b.rows == 1 && !b.usingAlt && b.region == Region(0, 0)
             && b.scrollback == [] && b.limit == 10 && b.here.row == 0
    ensures LH.Run(v, [LH.Receive]) && !LH.Contiguous(LH.After(v, [LH.Receive]))
  {
    FedGap(v.behind);
    FedGap(v.client);
    OneLineOut(v.client.screen);
    hide Fed, Safe, NewLine, Running, LH.Run, LH.After;
    Received(v, CUT_A + CUT_B);
  }
}
