/** Scrolling in closed form, the scrollback as a window on history, and the pinned viewport. */
module ScreenHistory {
  import opened Bytes
  import opened Cells
  import opened VtParsing
  import opened Screens

  // ---------- scrolling by any count ----------

  /** One line up, with the grid given as what is above, in (old then blank), and below the region. */
  lemma UpOnPieces(s: Screen, top: int, bottom: int, a: seq<Line>, m: seq<Line>, b: seq<Line>, z: seq<Line>)
    requires s.WellFormed() && Inside(s, top, bottom) && m != []
    requires s.grid == a + m + b + z && |a| == top && |a| + |m| + |b| == bottom + 1
    ensures var r := ScrollUpOnce(s, top, bottom);
            && r.grid == a + m[1..] + (b + [BlankLine(s.cols)]) + z
            && r.history == s.history + (if top == 0 && !s.usingAlt then [m[0]] else [])
            && r.usingAlt == s.usingAlt
  {
    FirstOf(s.grid, a, m, b, z);
    Regroup(a, m[1..], b, [BlankLine(s.cols)], z);
    hide Screen.WellFormed, BlankLine;
  }

  lemma FirstOf<T>(g: seq<T>, a: seq<T>, m: seq<T>, b: seq<T>, z: seq<T>)
    requires g == a + m + b + z && m != []
    ensures g[..|a|] == a && g[|a| + 1..|a| + |m| + |b|] == m[1..] + b && g[|a| + |m| + |b|..] == z && g[|a|] == m[0]
  {
  }

  lemma Regroup<T>(a: seq<T>, m: seq<T>, b: seq<T>, x: seq<T>, z: seq<T>)
    ensures a + (m + b) + x + z == a + m + (b + x) + z
  {
  }

  lemma DownOnPieces(s: Screen, top: int, bottom: int, a: seq<Line>, b: seq<Line>, m: seq<Line>, z: seq<Line>)
    requires s.WellFormed() && Inside(s, top, bottom) && m != []
    requires s.grid == a + b + m + z && |a| == top && |a| + |b| + |m| == bottom + 1
    ensures ScrollDownOnce(s, top, bottom) == s.(grid := a + ([BlankLine(s.cols)] + b) + m[..|m| - 1] + z)
  {
    LastOf(s.grid, a, b, m, z);
    RegroupDown(a, [BlankLine(s.cols)], b, m[..|m| - 1], z);
    hide Screen.WellFormed, BlankLine;
  }

  lemma LastOf<T>(g: seq<T>, a: seq<T>, b: seq<T>, m: seq<T>, z: seq<T>)
    requires g == a + b + m + z && m != []
    ensures g[..|a|] == a && g[|a|..|a| + |b| + |m| - 1] == b + m[..|m| - 1] && g[|a| + |b| + |m|..] == z
  {
  }

  lemma RegroupDown<T>(a: seq<T>, x: seq<T>, b: seq<T>, m: seq<T>, z: seq<T>)
    ensures a + x + (b + m) + z == a + (x + b) + m + z
  {
  }

  lemma BlankGridStep(n: nat, cols: nat)
    ensures BlankGrid(n + 1, cols) == BlankGrid(n, cols) + [BlankLine(cols)] == [BlankLine(cols)] + BlankGrid(n, cols)
  {
  }

  lemma NextOf<T>(m: seq<T>, n: nat)
    requires 1 <= n <= |m|
    ensures m[n - 1..] != [] && m[n - 1..][0] == m[n - 1] && m[n - 1..][1..] == m[n..] && m[..n] == m[..n - 1] + [m[n - 1]]
  {
  }

  lemma InsideIs(s: Screen, top: int, bottom: int)
    requires s.WellFormed() && Inside(s, top, bottom)
    ensures 0 <= top <= bottom < s.rows && s.cols >= 1
  {
  }

  lemma NoneUp(s: Screen, top: int, bottom: int)
    requires s.WellFormed() && 0 <= top && bottom < s.rows
    ensures ScrollUp(s, top, bottom, 0) == s
  {
  }

  lemma OneUp(s: Screen, top: int, bottom: int, n: nat)
    requires s.WellFormed() && Inside(s, top, bottom) && 1 <= n <= bottom - top + 1
    ensures ScrollUp(s, top, bottom, n) == ScrollUpOnce(ScrollUp(s, top, bottom, n - 1), top, bottom)
  {
    hide ScrollUpOnce, Screen.WellFormed, Screen.Framed;
  }

  lemma NothingMoved(a: seq<Line>, m: seq<Line>, z: seq<Line>, cols: nat)
    ensures a + m[0..] + BlankGrid(0, cols) + z == a + m + z
  {
    assert m[0..] == m && BlankGrid(0, cols) == [] && a + m + [] == a + m;
  }

  lemma {:induction false} ScrollUpOnPieces(s: Screen, top: int, bottom: int, n: nat, a: seq<Line>, m: seq<Line>, z: seq<Line>)
    requires s.WellFormed() && Inside(s, top, bottom) && n <= |m|
    requires s.grid == a + m + z && |a| == top && |m| == bottom + 1 - top
    ensures var r := ScrollUp(s, top, bottom, n);
            && r.grid == a + m[n..] + BlankGrid(n, s.cols) + z
            && r.history == s.history + (if top == 0 && !s.usingAlt then m[..n] else [])
            && r.usingAlt == s.usingAlt
  {
    RegionBounds(s);
    InsideIs(s, top, bottom);
    hide *;
    if n == 0 {
      NoneUp(s, top, bottom);
      NothingMoved(a, m, z, s.cols);
      assert m[..0] == [];
    } else {
      ScrollUpOnPieces(s, top, bottom, n - 1, a, m, z);
      var p := ScrollUp(s, top, bottom, n - 1);
      OneUp(s, top, bottom, n);
      OneMoreUp(s, p, top, bottom, n, a, m, z);
    }
  }

  lemma OneMoreUp(s: Screen, p: Screen, top: int, bottom: int, n: nat, a: seq<Line>, m: seq<Line>, z: seq<Line>)
    requires s.WellFormed() && Inside(s, top, bottom) && 1 <= n <= |m| && |a| == top && |m| == bottom + 1 - top
    requires p.WellFormed() && p.SameGeometry(s) && p.usingAlt == s.usingAlt
    requires p.grid == a + m[n - 1..] + BlankGrid(n - 1, s.cols) + z
    requires p.history == s.history + (if top == 0 && !s.usingAlt then m[..n - 1] else [])
    ensures var r := ScrollUpOnce(p, top, bottom);
            && r.grid == a + m[n..] + BlankGrid(n, s.cols) + z
            && r.history == s.history + (if top == 0 && !s.usingAlt then m[..n] else [])
            && r.usingAlt == s.usingAlt
  {
    RegionBounds(s);
    hide BlankGrid, Screen.WellFormed, Screen.Framed, ScrollUpOnce;
    NextOf(m, n);
    BlankGridStep(n - 1, s.cols);
    UpOnPieces(p, top, bottom, a, m[n - 1..], BlankGrid(n - 1, s.cols), z);
    Associative(s.history, m[..n - 1], [m[n - 1]]);
  }

  lemma ButLast<T>(m: seq<T>, n: nat)
    requires 1 <= n <= |m|
    ensures var left := m[..|m| - (n - 1)]; left != [] && left[..|left| - 1] == m[..|m| - n]
  {
  }

  lemma OneMoreDown(s: Screen, p: Screen, top: int, bottom: int, n: nat, a: seq<Line>, m: seq<Line>, z: seq<Line>)
    requires s.WellFormed() && Inside(s, top, bottom) && 1 <= n <= |m| && |a| == top && |m| == bottom + 1 - top
    requires p.WellFormed() && p == s.(grid := a + BlankGrid(n - 1, s.cols) + m[..|m| - (n - 1)] + z)
    ensures ScrollDownOnce(p, top, bottom) == s.(grid := a + BlankGrid(n, s.cols) + m[..|m| - n] + z)
  {
    RegionBounds(s);
    hide BlankGrid, Screen.WellFormed, Screen.Framed, ScrollDownOnce;
    ButLast(m, n);
    BlankGridStep(n - 1, s.cols);
    DownOnPieces(p, top, bottom, a, BlankGrid(n - 1, s.cols), m[..|m| - (n - 1)], z);
  }

  lemma {:induction false} ScrollDownOnPieces(s: Screen, top: int, bottom: int, n: nat, a: seq<Line>, m: seq<Line>, z: seq<Line>)
    requires s.WellFormed() && Inside(s, top, bottom) && n <= |m|
    requires s.grid == a + m + z && |a| == top && |m| == bottom + 1 - top
    ensures ScrollDown(s, top, bottom, n) == s.(grid := a + BlankGrid(n, s.cols) + m[..|m| - n] + z)
  {
    RegionBounds(s);
    hide BlankGrid, Screen.WellFormed, Screen.Framed, ScrollDownOnce;
    if n == 0 {
      assert a + BlankGrid(0, s.cols) + m[..|m|] + z == s.grid;
    } else {
      ScrollDownOnPieces(s, top, bottom, n - 1, a, m, z);
      var p := ScrollDown(s, top, bottom, n - 1);
      assert ScrollDown(s, top, bottom, n) == ScrollDownOnce(p, top, bottom);
      hide ScrollDown;
      OneMoreDown(s, p, top, bottom, n, a, m, z);
    }
  }

  /** Scrolling up by n takes n rows out at the top of the region and fills up with blanks below. */
  lemma ScrollUpIsSplice(s: Screen, top: int, bottom: int, n: nat)
    requires s.WellFormed() && Inside(s, top, bottom) && n <= bottom - top + 1
    ensures var r := ScrollUp(s, top, bottom, n);
            && r.grid == s.grid[..top] + s.grid[top + n..bottom + 1] + BlankGrid(n, s.cols) + s.grid[bottom + 1..]
            && r.history == s.history + (if top == 0 && !s.usingAlt then s.grid[..n] else [])
  {
    hide ScrollUp, BlankGrid;
    var m := s.grid[top..bottom + 1];
    ScrollUpOnPieces(s, top, bottom, n, s.grid[..top], m, s.grid[bottom + 1..]);
    assert m[n..] == s.grid[top + n..bottom + 1];
    if top == 0 { assert m[..n] == s.grid[..n]; }
  }

  /** Scrolling down by n opens n blank rows at the top of the region and drops its last n rows. */
  lemma ScrollDownIsSplice(s: Screen, top: int, bottom: int, n: nat)
    requires s.WellFormed() && Inside(s, top, bottom) && n <= bottom - top + 1
    ensures var r := ScrollDown(s, top, bottom, n);
            r == s.(grid := s.grid[..top] + BlankGrid(n, s.cols) + s.grid[top..bottom + 1 - n] + s.grid[bottom + 1..])
  {
    hide ScrollDown, BlankGrid;
    var m := s.grid[top..bottom + 1];
    ScrollDownOnPieces(s, top, bottom, n, s.grid[..top], m, s.grid[bottom + 1..]);
    assert m[..|m| - n] == s.grid[top..bottom + 1 - n];
  }

  // ---------- the scrollback is a window on history ----------

  /** The scrollback is exactly the part of history that has not been trimmed. */
  predicate Window(s: Screen) {
    0 <= s.trimmed <= |s.history| && s.scrollback == s.history[s.trimmed..]
  }

  /** Lines put in front keep the window exactly when they are the last ones trimmed. */
  lemma PrependKeepsWindowIff(s: Screen, lines: seq<Line>)
    requires Window(s)
    ensures Window(PrependScrollback(s, lines))
       <==> |lines| <= s.trimmed && lines == s.history[s.trimmed - |lines|..s.trimmed]
  {
    var r := PrependScrollback(s, lines);
    if |lines| <= s.trimmed {
      var front := s.history[r.trimmed..s.trimmed];
      assert s.history[r.trimmed..] == front + s.history[s.trimmed..];
      assert (lines + s.scrollback)[..|lines|] == lines && (front + s.scrollback)[..|front|] == front;
    }
  }

  predicate WithinLimit(s: Screen) {
    |s.scrollback| <= s.limit
  }

  /** Only lines pushed and old lines evicted: what every operation but two does to the scrollback. */
  predicate Grows(s: Screen, r: Screen) {
    && r.limit == s.limit
    && s.history <= r.history
    && (Window(s) ==> Window(r))
    && (WithinLimit(s) ==> WithinLimit(r))
  }

  lemma PushGrows(s: Screen, line: Line)
    ensures Grows(s, PushScrollback(s, line))
  {
    if Window(s) && !s.usingAlt {
      var r := PushScrollback(s, line);
      var held := s.scrollback + [line];
      assert held == r.history[s.trimmed..];
    }
  }

  lemma ScrollUpOnceGrows(s: Screen, top: int, bottom: int)
    requires s.WellFormed() && Inside(s, top, bottom)
    ensures Grows(s, ScrollUpOnce(s, top, bottom))
  {
    if top == 0 && !s.usingAlt { PushGrows(s, s.grid[0]); }
  }

  lemma {:induction false} ScrollUpGrows(s: Screen, top: int, bottom: int, count: int)
    requires s.WellFormed() && 0 <= top && bottom < s.rows
    ensures Grows(s, ScrollUp(s, top, bottom, count))
    decreases Min(count, bottom - top + 1)
  {
    var n := Min(count, bottom - top + 1);
    if n > 0 {
      ScrollUpGrows(s, top, bottom, n - 1);
      var p := ScrollUp(s, top, bottom, n - 1);
      assert ScrollUp(s, top, bottom, count) == ScrollUpOnce(p, top, bottom);
      assert Inside(p, top, bottom);
      hide ScrollUp, ScrollUpOnce, Window, WithinLimit, Screen.WellFormed, Screen.Framed, Inside;
      ScrollUpOnceGrows(p, top, bottom);
    }
  }

  lemma {:induction false} ScrollDownGrows(s: Screen, top: int, bottom: int, count: int)
    requires s.WellFormed() && 0 <= top && bottom < s.rows
    ensures Grows(s, ScrollDown(s, top, bottom, count))
  {
    if Min(count, bottom - top + 1) > 0 {
      ScrollDownIsSplice(s, top, bottom, Min(count, bottom - top + 1));
    }
  }

  lemma NewLineGrows(s: Screen)
    requires s.WellFormed()
    ensures Grows(s, NewLine(s))
  {
    ScrollUpGrows(s, s.region.top, s.region.bottom, 1);
  }

  lemma PutCharGrows(s: Screen, cp: nat)
    requires s.WellFormed()
    ensures Grows(s, PutChar(s, cp))
  {
    if s.here.col >= s.cols {
      var marked := WithRow(s, s.here.row, MarkWrapped(s.grid[s.here.row]));
      NewLineGrows(marked);
      assert Grows(s, WrapAtMargin(s));
    }
  }

  lemma {:induction false} PutCharsGrows(s: Screen, cp: nat, count: nat)
    requires s.WellFormed()
    ensures Grows(s, PutChars(s, cp, count))
  {
    if count > 0 {
      PutCharsGrows(s, cp, count - 1);
      PutCharGrows(PutChars(s, cp, count - 1), cp);
    }
  }

  lemma SetModeGrows(s: Screen, mode: int, on: bool, decPrivate: bool)
    requires s.Framed()
    ensures Grows(s, SetMode(s, mode, on, decPrivate))
  {
    hide Screen.Framed, Screen.WellFormed, BlankGrid;
  }

  lemma {:induction false} SetModesGrows(s: Screen, ps: seq<Param>, n: nat, on: bool, decPrivate: bool)
    requires s.Framed() && n <= |ps|
    ensures Grows(s, SetModes(s, ps, n, on, decPrivate))
  {
    hide SetMode, Window, WithinLimit;
    if n > 0 {
      SetModesGrows(s, ps, n - 1, on, decPrivate);
      SetModeGrows(SetModes(s, ps, n - 1, on, decPrivate), ParamValue(ps, n - 1, 0), on, decPrivate);
    }
  }

  predicate IsCsi(c: Call, final: char) {
    c.Csi? && c.final as char == final
  }

  /** Erase display, mode 3: the scrollback is dropped and not counted as trimmed. */
  predicate ErasesScrollback(c: Call) {
    IsCsi(c, 'J') && ParamValue(c.params, 0, 0) == 3
  }

  predicate FullReset(c: Call) {
    c == Esc(0, 'c' as int)
  }

  /** The control sequences that may push lines or switch screens. */
  predicate Scrolls(final: char) {
    final == 'L' || final == 'M' || final == 'S' || final == 'T' || final == 'b' || final == 'h' || final == 'l'
  }

  lemma ScrollingCsiGrows(s: Screen, c: Call)
    requires s.WellFormed() && c.Csi? && Scrolls(c.final as char)
    ensures Grows(s, Apply(s, c))
  {
    hide ScrollUp, ScrollDown, PutChars, SetModes, Screen.WellFormed;
    var n := Max(1, ParamValue(c.params, 0, 1));
    RegionBounds(s);
    match c.final as char {
      case 'L' => if s.region.top <= s.here.row <= s.region.bottom { ScrollDownGrows(s, s.here.row, s.region.bottom, n); }
      case 'M' => if s.region.top <= s.here.row <= s.region.bottom { ScrollUpGrows(s, s.here.row, s.region.bottom, n); }
      case 'S' => ScrollUpGrows(s, s.region.top, s.region.bottom, n);
      case 'T' => ScrollDownGrows(s, s.region.top, s.region.bottom, n);
      case 'b' => PutCharsGrows(s, s.lastPrinted, n);
      case 'h' => SetModesGrows(s, c.params, |c.params|, true, c.intermediate == '?' as int);
      case _ => SetModesGrows(s, c.params, |c.params|, false, c.intermediate == '?' as int);
    }
  }

  lemma RegionBounds(s: Screen)
    requires s.WellFormed()
    ensures s.Framed() && 0 <= s.region.top && s.region.bottom < s.rows == |s.grid| && 0 <= s.here.row && s.cols >= 1
  {
  }

  predicate SameHistory(s: Screen, r: Screen) {
    r.scrollback == s.scrollback && r.trimmed == s.trimmed && r.history == s.history && r.limit == s.limit
  }

  lemma MovesAndErasuresAreQuiet(s: Screen, final: char, ps: seq<Param>, mode: int, first: int, last: int)
    requires s.WellFormed()
    ensures SameHistory(s, Move(s, final, ps)) && SameHistory(s, EraseInLine(s, mode))
    ensures SameHistory(s, EraseCells(s, s.here.row, first, last))
    ensures mode != 3 ==> SameHistory(s, EraseDisplay(s, mode))
  {
    hide EraseIn, EraseDisplay, Screen.Framed;
    DisplayErasuresAreQuiet(s, mode);
  }

  lemma DisplayErasuresAreQuiet(s: Screen, mode: int)
    requires s.WellFormed()
    ensures mode != 3 ==> SameHistory(s, EraseDisplay(s, mode))
  {
    hide EraseIn;
  }

  lemma EditsAreQuiet(s: Screen, n: int, ps: seq<Param>, intermediate: byte)
    requires s.WellFormed() && n >= 1
    ensures SameHistory(s, InsertChars(s, n)) && SameHistory(s, DeleteChars(s, n))
    ensures SameHistory(s, SetRegion(s, ps)) && SameHistory(s, KittyKeyboard(s, ps, intermediate))
  {
    hide InsertIn, DeleteIn;
  }

  lemma QuietCsi(s: Screen, c: Call)
    requires s.WellFormed() && c.Csi? && !Scrolls(c.final as char) && !ErasesScrollback(c)
    ensures SameHistory(s, Apply(s, c))
  {
    hide Screen.WellFormed, Move, EraseDisplay, EraseInLine, InsertChars, DeleteChars, EraseCells, SetRegion, KittyKeyboard,
         Sgr, ScrollUp, ScrollDown, PutChars, SetModes, InsertLines, DeleteLines;
    var n := Max(1, ParamValue(c.params, 0, 1));
    MovesAndErasuresAreQuiet(s, c.final as char, c.params, ParamValue(c.params, 0, 0), s.here.col, Min(s.here.col + n - 1, s.cols - 1));
    EditsAreQuiet(s, n, c.params, c.intermediate);
  }

  lemma CsiGrows(s: Screen, c: Call)
    requires s.WellFormed() && c.Csi? && !ErasesScrollback(c)
    ensures Grows(s, Apply(s, c))
  {
    hide Apply, Scrolls;
    if Scrolls(c.final as char) { ScrollingCsiGrows(s, c); } else { QuietCsi(s, c); }
  }

  lemma QuietGrows(s: Screen, r: Screen)
    requires SameHistory(s, r)
    ensures Grows(s, r)
  {
  }

  lemma ExecuteGrows(s: Screen, code: byte)
    requires s.WellFormed()
    ensures Grows(s, ExecuteCode(s, code))
  {
    NewLineGrows(s);
    hide NewLine, Grows, Screen.WellFormed, Screen.Framed;
    if code !in {0x0A, 0x0B, 0x0C} { QuietGrows(s, ExecuteCode(s, code)); }
  }

  lemma EscGrows(s: Screen, intermediate: byte, final: byte)
    requires s.WellFormed() && !FullReset(Esc(intermediate, final))
    ensures Grows(s, EscDispatch(s, intermediate, final))
  {
    var left := s.(here := s.here.(col := 0));
    NewLineGrows(s);
    NewLineGrows(left);
    RegionBounds(s);
    ScrollDownGrows(s, s.region.top, s.region.bottom, 1);
    assert Grows(left, NewLine(left)) ==> Grows(s, NewLine(left));
    hide NewLine, ScrollDown, Grows, Screen.WellFormed, Screen.Framed;
    var r := EscDispatch(s, intermediate, final);
    if r != NewLine(s) && r != NewLine(left) && r != ScrollDown(s, s.region.top, s.region.bottom, 1) { QuietGrows(s, r); }
  }

  lemma CallGrows(s: Screen, c: Call)
    requires s.WellFormed() && !ErasesScrollback(c) && !FullReset(c)
    ensures Grows(s, Apply(s, c))
  {
    hide CsiDispatch, EscDispatch, ExecuteCode, PutChar, Grows, Screen.WellFormed, Screen.Framed;
    match c {
      case Print(cp) =>
        var t := Translate(s.here.charset, cp);
        PrintGrows(s, t);
      case Execute(code) => ExecuteGrows(s, code);
      case Csi(ps, intermediate, final) => CsiGrows(s, c);
      case Esc(intermediate, final) => EscGrows(s, intermediate, final);
      case _ => QuietGrows(s, Apply(s, c));
    }
  }

  lemma PrintGrows(s: Screen, cp: nat)
    requires s.WellFormed()
    ensures Grows(s, PutChar(s.(lastPrinted := cp), cp))
  {
    PutCharGrows(s.(lastPrinted := cp), cp);
    hide PutChar;
  }

  /** One call keeps the window exactly when it does not drop a scrollback that holds lines. */
  lemma CallKeepsWindowIff(s: Screen, c: Call)
    requires s.WellFormed() && Window(s)
    ensures Window(Apply(s, c)) <==> !(ErasesScrollback(c) && s.scrollback != [])
  {
    hide CsiDispatch;
    if ErasesScrollback(c) {
      EraseScrollbackResult(s, c);
    } else if FullReset(c) {
      assert Apply(s, c).history == [];
    } else {
      CallGrows(s, c);
    }
  }

  lemma EraseScrollbackResult(s: Screen, c: Call)
    requires s.WellFormed() && ErasesScrollback(c)
    ensures var r := Apply(s, c);
            r.scrollback == [] && r.trimmed == s.trimmed && r.history == s.history && r.limit == s.limit
  {
  }

  predicate NeverErasesScrollback(calls: seq<Call>) {
    forall i | 0 <= i < |calls| :: !ErasesScrollback(calls[i])
  }

  predicate NeverResets(calls: seq<Call>) {
    forall i | 0 <= i < |calls| :: !FullReset(calls[i])
  }

  /** Over any run without ED 3 the scrollback is the untrimmed part of history and within its limit. */
  lemma {:induction false} RunKeepsWindow(s: Screen, calls: seq<Call>)
    requires s.WellFormed() && Ready(s, calls) && Window(s) && WithinLimit(s) && NeverErasesScrollback(calls)
    ensures var r := ApplyAll(s, calls); Window(r) && WithinLimit(r)
    ensures NeverResets(calls) ==> s.history <= ApplyAll(s, calls).history
    decreases |calls|
  {
    if calls != [] {
      if !FullReset(calls[0]) { CallGrows(s, calls[0]); }
      assert Window(Apply(s, calls[0])) && WithinLimit(Apply(s, calls[0]));
      RunKeepsWindow(Apply(s, calls[0]), calls[1..]);
      hide Apply;
      if NeverResets(calls) { assert NeverResets(calls[1..]); }
    }
  }

  const LINE_FEED := Execute(0x0A)
  const ERASE_ALL := Csi([Param(3, [])], 0, 'J' as int)

  /** On a screen of one row every line feed pushes a line. */
  lemma FeedOnOneRow(s: Screen)
    requires s.WellFormed() && s.rows == 1 && s.region == Region(0, 0) && !s.usingAlt
    ensures Apply(s, LINE_FEED) == Scrolled(s)
  {
    assert ScrollUp(s, 0, 0, 0) == s;
  }

  /** A line feed and ED 3 on a screen of one row: the line is gone and nothing counts it. */
  lemma ErasedIsNotCounted()
    ensures var (s, calls) := (Fresh(1, 1, 1), [LINE_FEED, ERASE_ALL]);
            Window(s) && Ready(s, calls) && !Window(ApplyAll(s, calls))
  {
    var s, calls := Fresh(1, 1, 1), [LINE_FEED, ERASE_ALL];
    SavedInRangeIsReady(s, calls);
    FeedOnOneRow(s);
    var t := Apply(s, LINE_FEED);
    assert |t.scrollback| == 1 && Window(t);
    CallKeepsWindowIff(t, ERASE_ALL);
    hide Apply, Fresh, Window;
    assert calls[1..] == [ERASE_ALL] && calls[1..][1..] == [];
    assert ApplyAll(s, calls) == ApplyAll(t, [ERASE_ALL]) == ApplyAll(Apply(t, ERASE_ALL), []) == Apply(t, ERASE_ALL);
  }

  // ---------- the pinned viewport ----------

  /** The number of a shown row in the pane's whole history. */
  function AbsoluteLine(s: Screen, row: int): int {
    s.trimmed + |s.scrollback| + s.viewport + row
  }

  function Scrolled(s: Screen): (r: Screen)
    requires s.WellFormed()
  {
    ScrollUpOnce(s, 0, s.rows - 1)
  }

  /** A scrolled-back view keeps its place under one line of output, unless it already
      reached past the oldest line that the limit lets stay. */
  lemma ViewKeepsPlaceIff(s: Screen, row: int)
    requires s.WellFormed() && !s.usingAlt && s.viewport < 0
    ensures AbsoluteLine(Scrolled(s), row) == AbsoluteLine(s, row)
       <==> (|s.scrollback| < s.limit || s.viewport + s.limit >= 0)
  {
  }

  /** Within the limit, one line of output changes no shown row except the one that was evicted. */
  lemma ViewIsPinned(s: Screen, row: int)
    requires s.WellFormed() && !s.usingAlt && WithinLimit(s)
    requires -|s.scrollback| <= s.viewport < 0 && 0 <= row < s.rows
    ensures var evicted := |s.scrollback| == s.limit && |s.scrollback| + s.viewport + row == 0;
            Shown(Scrolled(s), row) == if evicted then BlankLine(0) else Shown(s, row)
  {
    ScrolledLines(s);
    hide Shown, Scrolled, Screen.WellFormed, Screen.Framed;
    var r := Scrolled(s);
    ShownIs(s, row);
    ShownIs(r, row);
    var d := |s.scrollback| + 1 - |r.scrollback|;
    var at := |s.scrollback| + s.viewport + row;
    if at >= d { LineMoved(s.scrollback + s.grid, r.scrollback + r.grid, BlankLine(s.cols), d, at); }
  }

  /** The lines held and shown after one line of output, and where the view is. */
  lemma ScrolledLines(s: Screen)
    requires s.WellFormed() && !s.usingAlt && WithinLimit(s) && -|s.scrollback| <= s.viewport < 0
    ensures var (r, d) := (Scrolled(s), if |s.scrollback| == s.limit then 1 else 0);
            && |r.scrollback| == |s.scrollback| + 1 - d && |r.grid| == |s.grid| == s.rows == r.rows
            && r.scrollback + r.grid == (s.scrollback + s.grid + [BlankLine(s.cols)])[d..]
            && r.viewport == s.viewport - 1
  {
    var r := Scrolled(s);
    assert s.scrollback + [s.grid[0]] + r.grid == s.scrollback + s.grid + [BlankLine(s.cols)];
  }

  /** A shown row is one of the lines held or on the screen, if it does not lie above them all. */
  lemma ShownIs(s: Screen, row: int)
    requires |s.grid| == s.rows && s.viewport <= 0 && 0 <= row < s.rows
    ensures var (all, at) := (s.scrollback + s.grid, |s.scrollback| + s.viewport + row);
            Shown(s, row) == if at < 0 then BlankLine(0) else all[at]
  {
  }

  lemma LineMoved(all: seq<Line>, after: seq<Line>, blank: Line, d: nat, at: int)
    requires d <= |all| && after == (all + [blank])[d..] && d <= at < |all|
    ensures at - d < |after| && after[at - d] == all[at]
  {
  }

  predicate OneRow(s: Screen) {
    s.WellFormed() && s.rows == 1 && s.region == Region(0, 0) && !s.usingAlt && s.limit == 1
  }

  lemma OneRowScrolled(s: Screen)
    requires OneRow(s)
    ensures var r := Apply(s, LINE_FEED);
            OneRow(r) && |r.scrollback| == 1 && r == Scrolled(s) && (|s.scrollback| == 1 && s.viewport == -1 ==> r.viewport == -2)
  {
    FeedOnOneRow(s);
    hide Apply;
  }

  lemma FreshIsOneRow()
    ensures OneRow(Fresh(1, 1, 1))
  {
  }

  lemma OneRowSlips(s: Screen)
    requires OneRow(s) && |s.scrollback| == 1 && s.viewport == -1
    ensures var v := Apply(s, LINE_FEED); v.WellFormed() && AbsoluteLine(Apply(v, LINE_FEED), 0) != AbsoluteLine(v, 0)
  {
    var v := Apply(s, LINE_FEED);
    OneRowScrolled(s);
    OneRowScrolled(v);
    hide Apply, Scrolled, AbsoluteLine;
    ViewKeepsPlaceIff(v, 0);
  }

  /** With a limit of one line, scrolled back by that line, the second line of output moves the view. */
  lemma ViewSlips(s: Screen)
    requires s == Apply(Fresh(1, 1, 1), LINE_FEED)
    ensures s.WellFormed() && |s.scrollback| == 1
    ensures var v := Apply(s.(viewport := -1), LINE_FEED);
            v.WellFormed() && AbsoluteLine(Apply(v, LINE_FEED), 0) != AbsoluteLine(v, 0)
  {
    hide Apply, Fresh, AbsoluteLine;
    FreshIsOneRow();
    OneRowScrolled(Fresh(1, 1, 1));
    OneRowSlips(s.(viewport := -1));
  }
}
