/**
  A resize: re-wrapping when the width changes on the main screen, else rows
  pushed out, pulled back, cut and padded; and which lines that keeps.
*/
module Resizing {
  import opened Bytes
  import opened Cells
  import R = Reflowing
  import ReflowTheorems
  import S = Screens
  import opened VtParsing

  /** The top n rows pushed out one by one; the rows themselves are left to the caller. */
  function PushRows(s: S.Screen, n: nat): (r: S.Screen)
    requires n <= |s.grid|
    ensures r == s.(scrollback := r.scrollback, trimmed := r.trimmed, viewport := r.viewport, history := r.history)
    ensures s.usingAlt ==> r == s
  {
    if n == 0 then s else S.PushScrollback(PushRows(s, n - 1), s.grid[n - 1])
  }

  /** How many rows must go out through the top for the cursor to stay on the screen. */
  function Pushed(s: S.Screen, rows: int): (n: nat)
    requires s.WellFormed() && rows >= 1
    ensures n == Max(0, s.here.row - rows + 1) < |s.grid| && (n > 0 ==> |s.grid| - n >= rows)
  {
    if rows < s.rows && s.here.row >= rows then s.here.row - rows + 1 else 0
  }

  function Fitted(grid: seq<Line>, rows: nat, cols: nat): (r: seq<Line>)
    ensures |r| == rows
  {
    if rows <= |grid| then grid[..rows] else grid + BlankGrid(rows - |grid|, cols)
  }

  /** The screen once rows have gone out through the top. */
  function RowsOut(s: S.Screen, rows: int): S.Screen
    requires s.WellFormed() && rows >= 1
  {
    var n := Pushed(s, rows);
    PushRows(s, n).(grid := s.grid[n..], here := s.here.(row := s.here.row - n))
  }

  /** How many lines come back from the scrollback. */
  function Pulled(held: seq<Line>, rest: seq<Line>, rows: int): nat {
    Max(0, Min(rows - |rest|, |held|))
  }

  /** What a screen becomes that rows have gone out of: made as wide and high as asked, its scrollback drawn on. */
  function Filled(held: seq<Line>, rest: seq<Line>, cols: nat, rows: nat): (r: (seq<Line>, seq<Line>, nat))
    ensures |r.1| == rows
  {
    var m := Pulled(held, rest, rows);
    (held[..|held| - m],
     Fitted(R.ResizedGrid(held[|held| - m..], m, cols) + R.ResizedGrid(rest, |rest|, cols), rows, cols), m)
  }

  function Refilled(s: S.Screen, cols: int, rows: int): S.Screen
    requires cols >= 1 && rows >= 1
  {
    var (back, grid, m) := Filled(s.scrollback, s.grid, cols, rows);
    s.(cols := cols, rows := rows, scrollback := back, grid := grid, alt := R.ResizedGrid(s.alt, rows, cols),
       here := s.here.(row := Clamp(s.here.row + m, 0, rows - 1), col := Clamp(s.here.col, 0, cols - 1)),
       region := S.Region(0, rows - 1))
  }

  /** Rows moved to make room or to fill it, without re-wrapping. */
  function MoveRows(s: S.Screen, cols: int, rows: int): S.Screen
    requires s.WellFormed() && cols >= 1 && rows >= 1
  {
    Refilled(RowsOut(s, rows), cols, rows)
  }

  function Resize(s: S.Screen, cols: int, rows: int): S.Screen
    requires s.WellFormed() && cols >= 1 && rows >= 1
  {
    if cols == s.cols && rows == s.rows then s
    else if cols != s.cols && !s.usingAlt then R.Reflow(s, cols, rows)
    else MoveRows(s, cols, rows)
  }

  predicate PulledFrom(scrollback: seq<Line>, pulled: seq<Line>, n: nat, cols: nat) {
    n == |pulled| <= |scrollback| && forall k | 0 <= k < n :: pulled[k] == Resized(scrollback[|scrollback| - n + k], cols)
  }

  lemma OneMorePulled(scrollback: seq<Line>, pulled: seq<Line>, n: nat, cols: nat)
    requires n < |scrollback| && PulledFrom(scrollback, pulled, n, cols)
    ensures PulledFrom(scrollback, [Resized(scrollback[|scrollback| - 1 - n], cols)] + pulled, n + 1, cols)
  {
    hide Resized;
  }

  /** The newest lines of the scrollback are taken off, one by one, and put on top of the rows. */
  method PullLines(scrollback: seq<Line>, grid: seq<Line>, cols: nat, rows: int) returns (back: seq<Line>, r: seq<Line>, n: nat)
    ensures n == Max(0, Min(rows - |grid|, |scrollback|))
    ensures back == scrollback[..|scrollback| - n]
    ensures r == R.ResizedGrid(scrollback[|scrollback| - n..], n, cols) + grid
  {
    back, r, n := scrollback, grid, 0;
    ghost var pulled := [];
    assert r == pulled + grid;
    while |r| < rows && back != []
      invariant 0 <= n <= Max(0, Min(rows - |grid|, |scrollback|)) && |pulled| == n
      invariant back == scrollback[..|scrollback| - n]
      invariant r == pulled + grid
      invariant PulledFrom(scrollback, pulled, n, cols)
      decreases |back|
    {
      hide PulledFrom, Resized;
      var line := Resized(back[|back| - 1], cols);
      back := back[..|back| - 1];
      Associative([line], pulled, grid);
      r := [line] + r;
      OneMorePulled(scrollback, pulled, n, cols);
      pulled := [line] + pulled;
      n := n + 1;
    }
    hide Resized;
    assert pulled == R.ResizedGrid(scrollback[|scrollback| - n..], n, cols);
  }

  /** Blank rows are added at the bottom, or rows taken off there. */
  method FitRows(grid: seq<Line>, rows: nat, cols: nat) returns (r: seq<Line>)
    ensures r == Fitted(grid, rows, cols)
  {
    r := grid;
    ghost var n := 0;
    while |r| < rows
      invariant 0 <= n && r == grid + BlankGrid(n, cols) && (n > 0 ==> |r| <= rows)
      decreases rows - |r|
    {
      assert BlankGrid(n + 1, cols) == BlankGrid(n, cols) + [BlankLine(cols)];
      r := r + [BlankLine(cols)];
      n := n + 1;
    }
    while |r| > rows
      invariant |r| >= rows && (n > 0 ==> |r| == rows && r == grid + BlankGrid(n, cols))
      invariant n == 0 ==> |r| <= |grid| && r == grid[..|r|]
    {
      r := r[..|r| - 1];
    }
  }

  method FillRows(held: seq<Line>, rest: seq<Line>, cols: nat, rows: nat) returns (back: seq<Line>, grid: seq<Line>, m: nat)
    ensures (back, grid, m) == Filled(held, rest, cols, rows)
  {
    grid := R.ResizeGrid(rest, |rest|, cols);
    hide R.ResizedGrid, Fitted;
    back, grid, m := PullLines(held, grid, cols, rows);
    grid := FitRows(grid, rows, cols);
  }

  // ---------- well-formedness ----------

  lemma FilledShape(held: seq<Line>, rest: seq<Line>, cols: nat, rows: nat)
    ensures S.Shaped(Filled(held, rest, cols, rows).1, rows, cols)
  {
    hide R.ResizedGrid;
  }

  lemma MovedShape(s: S.Screen, cols: int, rows: int)
    requires s.WellFormed() && cols >= 1 && rows >= 1
    ensures var r := MoveRows(s, cols, rows);
            r.WellFormed() && r.cols == cols && r.rows == rows && r.saved == s.saved && r.usingAlt == s.usingAlt
  {
    var p := RowsOut(s, rows);
    FilledShape(p.scrollback, p.grid, cols, rows);
    hide R.ResizedGrid, PushRows, Filled, S.Shaped;
  }

  /** A resized screen is well formed; the saved cursor is not moved. */
  lemma ResizedWellFormed(s: S.Screen, cols: int, rows: int)
    requires s.WellFormed() && cols >= 1 && rows >= 1
    ensures var r := Resize(s, cols, rows); r.WellFormed() && r.cols == cols && r.rows == rows && r.saved == s.saved
  {
    ReflowTheorems.ReflowedWellFormed(s, cols, rows);
    MovedShape(s, cols, rows);
    hide MoveRows, R.Reflow;
  }

  /** After a resize, restoring the cursor puts it on the screen exactly when the place saved before still is there. */
  lemma ResizeThenRestoreIff(s: S.Screen, cols: int, rows: int, c: Call)
    requires s.WellFormed() && cols >= 1 && rows >= 1 && S.Restores(c)
    ensures Resize(s, cols, rows).WellFormed()
    ensures S.Apply(Resize(s, cols, rows), c).WellFormed() <==> 0 <= s.saved.row < rows && 0 <= s.saved.col <= cols
  {
    ResizedWellFormed(s, cols, rows);
    hide Resize, S.Apply;
  }

  const SAVE := Esc(0, '7' as int)
  const RESTORE := Esc(0, '8' as int)
  const DOWN := Execute(0x0A)

  /** Saving the cursor on the second row and shrinking to one row is enough to restore it off the screen. */
  lemma SavedThenShrunk()
    ensures var calls := [DOWN, SAVE];
            var s := S.Fresh(2, 2, 0);
            && S.Ready(s, calls) && Resize(S.ApplyAll(s, calls), 2, 1).WellFormed()
            && !S.Apply(Resize(S.ApplyAll(s, calls), 2, 1), RESTORE).WellFormed()
  {
    var s := S.Fresh(2, 2, 0);
    var calls := [DOWN, SAVE];
    S.SavedInRangeIsReady(s, calls);
    assert calls[1..] == [SAVE] && calls[1..][1..] == [];
    var t := S.Apply(s, DOWN);
    assert t.here.row == 1;
    assert S.ApplyAll(s, calls) == S.ApplyAll(t, [SAVE]) == S.ApplyAll(S.Apply(t, SAVE), []) == S.Apply(t, SAVE);
    ResizeThenRestoreIff(S.Apply(t, SAVE), 2, 1, RESTORE);
  }

  // ---------- rows only, on the main screen ----------

  /** Lines of the screen's width: resizing them to it changes nothing. */
  predicate FullWidth(lines: seq<Line>, cols: int) {
    forall i | 0 <= i < |lines| :: |lines[i].cells| == cols
  }

  lemma FullWidthStays(lines: seq<Line>, cols: nat)
    requires FullWidth(lines, cols)
    ensures R.ResizedGrid(lines, |lines|, cols) == lines
  {
    forall i | 0 <= i < |lines| ensures Resized(lines[i], cols) == lines[i] {
      assert lines[i].cells[..cols] == lines[i].cells;
    }
  }

  /** The scrollback holds all of these lines but the first `over`. */
  predicate HoldsAllBut(s: S.Screen, all: seq<Line>, over: int) {
    0 <= over <= |all| && s.scrollback == all[over..]
  }

  lemma PushedNext(s: S.Screen, line: Line, all: seq<Line>, over: nat)
    requires !s.usingAlt && HoldsAllBut(s, all, over)
    ensures var (r, excess) := (S.PushScrollback(s, line), Max(0, |all| - over + 1 - s.limit));
            HoldsAllBut(r, all + [line], over + excess) && r.trimmed == s.trimmed + excess
  {
    assert s.scrollback + [line] == (all + [line])[over..];
    var excess := Max(0, |all| - over + 1 - s.limit);
    assert (all + [line])[over..][excess..] == (all + [line])[over + excess..];
  }

  /** How many lines are evicted when n are pushed; a scrollback over its limit stays so until then. */
  function Evicted(s: S.Screen, n: nat): (over: nat)
    ensures over <= |s.scrollback| + n
  {
    if n == 0 then 0 else Max(0, |s.scrollback| + n - s.limit)
  }

  lemma {:induction false} PushedLines(s: S.Screen, n: nat)
    requires n <= |s.grid| && !s.usingAlt
    ensures var r := PushRows(s, n);
            HoldsAllBut(r, s.scrollback + s.grid[..n], Evicted(s, n)) && r.trimmed == s.trimmed + Evicted(s, n)
  {
    hide S.PushScrollback;
    if n == 0 {
      assert s.scrollback + s.grid[..0] == s.scrollback;
    } else {
      hide HoldsAllBut;
      PushedLines(s, n - 1);
      PushedNext(PushRows(s, n - 1), s.grid[n - 1], s.scrollback + s.grid[..n - 1], Evicted(s, n - 1));
      OneMoreRow(s, n);
    }
  }

  lemma OneMoreRow(s: S.Screen, n: nat)
    requires 0 < n <= |s.grid|
    ensures s.scrollback + s.grid[..n] == s.scrollback + s.grid[..n - 1] + [s.grid[n - 1]]
  {
  }

  predicate Main(s: S.Screen) {
    s.WellFormed() && !s.usingAlt
  }

  function Lines(s: S.Screen): (r: seq<Line>)
    ensures |r| == |s.scrollback| + |s.grid|
  {
    s.scrollback + s.grid
  }

  /** Rows below the cursor that a lower screen has no room for. */
  function CutRows(s: S.Screen, rows: int): (n: nat) {
    Max(0, Min(s.rows - rows, s.rows - 1 - s.here.row))
  }

  /** Lines past the scrollback limit once rows have gone out. */
  function OverLimit(s: S.Screen, rows: int): (n: nat) {
    Evicted(s, Max(0, s.here.row - rows + 1))
  }

  /** Rows that the scrollback cannot fill. */
  function BlankRows(s: S.Screen, rows: int): (n: nat) {
    Max(0, rows - s.rows - |s.scrollback|)
  }

  /** Lines that come back from the scrollback. */
  function Back(s: S.Screen, rows: int): (n: nat)
    ensures n <= |s.scrollback|
  {
    Max(0, Min(rows - s.rows, |s.scrollback|))
  }

  /** The first line of the new screen, among all lines: rows went out before it or came back behind it. */
  function Middle(s: S.Screen, rows: int): int {
    |s.scrollback| + Max(0, s.here.row - rows + 1) - Back(s, rows)
  }

  /** These lines, those from `start` to `end` made as wide as the screen. */
  function Widened(all: seq<Line>, start: nat, end: nat, cols: nat): (r: seq<Line>)
    requires start <= end <= |all|
    ensures |r| == |all|
  {
    all[..start] + R.ResizedGrid(all[start..end], end - start, cols) + all[end..]
  }

  /** All lines, those that come back from the scrollback made as wide as the screen. */
  function Drawn(s: S.Screen, rows: int): (r: seq<Line>)
    requires s.cols >= 1
    ensures |r| == |Lines(s)|
  {
    Widened(Lines(s), |s.scrollback| - Back(s, rows), |s.scrollback|, s.cols)
  }

  lemma WidenedNone(all: seq<Line>, at: nat, cols: nat)
    requires at <= |all|
    ensures Widened(all, at, at, cols) == all
  {
  }

  lemma WidenedFull(all: seq<Line>, start: nat, end: nat, cols: nat)
    requires start <= end <= |all| && FullWidth(all[start..end], cols)
    ensures Widened(all, start, end, cols) == all
  {
    FullWidthStays(all[start..end], cols);
    hide R.ResizedGrid;
  }

  /** A screen that gets no higher, or whose scrollback has its width, has its lines as they were. */
  lemma DrawnIsLines(s: S.Screen, rows: int)
    requires Main(s) && (rows <= s.rows || FullWidth(s.scrollback, s.cols))
    ensures Drawn(s, rows) == Lines(s)
  {
    hide S.Shaped, R.ResizedGrid;
    WidenedFull(Lines(s), |s.scrollback| - Back(s, rows), |s.scrollback|, s.cols);
  }

  lemma Counts(s: S.Screen, rows: int)
    requires Main(s) && rows >= 1
    ensures var (over, middle, all) := (OverLimit(s, rows), Middle(s, rows), |Lines(s)|);
            && 0 <= over <= middle <= all && over + CutRows(s, rows) <= all && (|s.scrollback| <= s.limit ==> middle - over <= s.limit)
            && middle + Min(rows, all - middle) == all - CutRows(s, rows)
            && BlankRows(s, rows) == Max(0, rows - (all - middle))
            && 0 <= |s.scrollback| + s.here.row - middle < rows
    ensures rows == s.rows ==> OverLimit(s, rows) == 0 == CutRows(s, rows) == BlankRows(s, rows)
  {
  }

  lemma MainFacts(s: S.Screen, rows: int)
    requires Main(s)
    ensures s.WellFormed() && s.cols >= 1 && 0 <= s.here.row < s.rows == |s.grid|
    ensures Drawn(s, rows)[|s.scrollback| + s.here.row] == s.grid[s.here.row]
  {
    hide R.ResizedGrid;
  }

  // Dividing the lines between scrollback and screen.

  /** Scrollback and screen are these lines but the first `over`, divided at `middle`. */
  predicate Divided(r: S.Screen, all: seq<Line>, over: nat, middle: int, rows: nat, cols: nat) {
    && over <= middle <= |all|
    && r.scrollback == all[over..middle] && r.grid == Fitted(all[middle..], rows, cols)
  }

  /** The lines but the first `over` and the last `cut`, and blank ones behind them. */
  function Kept(all: seq<Line>, over: nat, cut: nat, blank: nat, cols: nat): seq<Line>
    requires over + cut <= |all|
  {
    all[over..|all| - cut] + BlankGrid(blank, cols)
  }

  lemma DividedKeeps(r: S.Screen, all: seq<Line>, over: nat, middle: int, rows: nat, cols: nat, cut: nat, blank: nat)
    requires Divided(r, all, over, middle, rows, cols)
    requires middle + Min(rows, |all| - middle) == |all| - cut && blank == Max(0, rows - (|all| - middle))
    ensures Lines(r) == Kept(all, over, cut, blank, cols)
  {
    var rest := all[middle..];
    assert Fitted(rest, rows, cols) == rest[..Min(rows, |rest|)] + BlankGrid(blank, cols);
    Associative(all[over..middle], rest[..Min(rows, |rest|)], BlankGrid(blank, cols));
    assert all[over..middle] + rest[..Min(rows, |rest|)] == all[over..|all| - cut];
  }

  lemma DividedAt(r: S.Screen, all: seq<Line>, over: nat, middle: int, rows: nat, cols: nat, k: int)
    requires Divided(r, all, over, middle, rows, cols) && middle <= k < |all| && k < middle + rows
    ensures k - middle < |r.grid| && r.grid[k - middle] == all[k] && |r.scrollback| == middle - over
  {
  }

  /** The screen after rows went out, and the lines it is made of. */
  predicate Out(p: S.Screen, all: seq<Line>, over: nat, end: int) {
    over <= end <= |all| && p.scrollback == all[over..end] && p.grid == all[end..]
  }

  lemma RowsOutParts(s: S.Screen, rows: int)
    requires Main(s) && rows >= 1
    ensures var p := RowsOut(s, rows);
            && Out(p, Lines(s), OverLimit(s, rows), |s.scrollback| + Pushed(s, rows))
            && p.trimmed == s.trimmed + OverLimit(s, rows) && p.here.row == s.here.row - Pushed(s, rows)
            && FullWidth(p.grid, s.cols)
  {
    var n := Pushed(s, rows);
    PushedLines(s, n);
    hide PushRows, Pushed, Evicted;
    assert s.scrollback + s.grid[..n] == Lines(s)[..|s.scrollback| + n];
  }

  lemma OutThenDivided(p: S.Screen, all: seq<Line>, over: nat, end: int, m: nat, cols: nat, rows: nat)
    requires Out(p, all, over, end) && FullWidth(p.grid, cols) && cols >= 1 && rows >= 1
    requires m == Pulled(p.scrollback, p.grid, rows)
    ensures m <= end && Divided(Refilled(p, cols, rows), Widened(all, end - m, end, cols), over, end - m, rows, cols)
  {
    hide R.ResizedGrid, FullWidth, Fitted, Filled;
    FilledParts(p.scrollback, p.grid, cols, rows);
    Slices(all, over, end, m, cols);
  }

  lemma FilledParts(held: seq<Line>, rest: seq<Line>, cols: nat, rows: nat)
    requires FullWidth(rest, cols)
    ensures var (m, r) := (Pulled(held, rest, rows), Filled(held, rest, cols, rows));
            && r.0 == held[..|held| - m] && r.2 == m
            && r.1 == Fitted(R.ResizedGrid(held[|held| - m..], m, cols) + rest, rows, cols)
  {
    FullWidthStays(rest, cols);
    hide R.ResizedGrid, FullWidth, Fitted;
  }

  lemma Slices(all: seq<Line>, over: nat, end: nat, m: nat, cols: nat)
    requires over + m <= end <= |all|
    ensures all[over..end][..end - over - m] == Widened(all, end - m, end, cols)[over..end - m]
    ensures R.ResizedGrid(all[over..end][end - over - m..], m, cols) + all[end..] == Widened(all, end - m, end, cols)[end - m..]
  {
    hide R.ResizedGrid;
    assert all[over..end][end - over - m..] == all[end - m..end];
  }

  lemma PulledIs(s: S.Screen, rows: int)
    requires Main(s) && rows >= 1
    ensures var (p, n) := (RowsOut(s, rows), Pushed(s, rows));
            && MoveRows(s, s.cols, rows) == Refilled(p, s.cols, rows) && s.cols >= 1 && n <= |s.grid|
            && Pulled(p.scrollback, p.grid, rows) == Back(s, rows) && (n == 0 || Back(s, rows) == 0)
            && |s.scrollback| + n - Back(s, rows) == Middle(s, rows)
  {
    RowsOutParts(s, rows);
    var (p, n) := (RowsOut(s, rows), Pushed(s, rows));
    assert |p.grid| == s.rows - n && |p.scrollback| == |s.scrollback| + n - OverLimit(s, rows);
    hide RowsOut, Out, Lines, FullWidth, Refilled;
  }

  lemma CursorIs(s: S.Screen, p: S.Screen, rows: int)
    requires Main(s) && rows >= 1 && p.here.row == s.here.row - Pushed(s, rows)
    requires Pulled(p.scrollback, p.grid, rows) == Back(s, rows)
    ensures Refilled(p, s.cols, rows).trimmed == p.trimmed
    ensures Refilled(p, s.cols, rows).here.row == |s.scrollback| + s.here.row - Middle(s, rows)
  {
    hide Fitted, R.ResizedGrid;
  }

  lemma DrawnIs(s: S.Screen, rows: int, n: nat)
    requires s.cols >= 1 && n <= |s.grid| && (n == 0 || Back(s, rows) == 0)
    ensures Drawn(s, rows) == Widened(Lines(s), |s.scrollback| + n - Back(s, rows), |s.scrollback| + n, s.cols)
  {
    hide Back, Widened;
    if n > 0 {
      WidenedNone(Lines(s), |s.scrollback| + n, s.cols);
      WidenedNone(Lines(s), |s.scrollback|, s.cols);
    }
  }

  /** Moving rows only divides the lines elsewhere, but for the width of those that come back. */
  lemma MovedParts(s: S.Screen, rows: int)
    requires Main(s) && rows >= 1
    ensures var r := MoveRows(s, s.cols, rows);
            && Divided(r, Drawn(s, rows), OverLimit(s, rows), Middle(s, rows), rows, s.cols)
            && r.trimmed == s.trimmed + OverLimit(s, rows)
            && r.here.row == |s.scrollback| + s.here.row - Middle(s, rows)
  {
    hide *;
    MainFacts(s, rows);
    var (p, n) := (RowsOut(s, rows), Pushed(s, rows));
    PulledIs(s, rows);
    RowsOutParts(s, rows);
    CursorIs(s, p, rows);
    OutThenDivided(p, Lines(s), OverLimit(s, rows), |s.scrollback| + n, Back(s, rows), s.cols, rows);
    DrawnIs(s, rows, n);
  }

  lemma MovedKeepLines(s: S.Screen, rows: int, all: seq<Line>, over: nat, middle: int, r: S.Screen)
    requires Main(s) && rows >= 1 && r == MoveRows(s, s.cols, rows)
    requires s.cols >= 1 && all == Drawn(s, rows) && over == OverLimit(s, rows) && middle == Middle(s, rows)
    ensures over + CutRows(s, rows) <= |all| && Lines(r) == Kept(all, over, CutRows(s, rows), BlankRows(s, rows), s.cols)
    ensures (|s.scrollback| <= s.limit ==> |r.scrollback| <= s.limit) && r.trimmed == s.trimmed + over
  {
    hide *;
    Counts(s, rows);
    MovedParts(s, rows);
    DividedFront(r, all, over, middle, rows, s.cols);
    DividedKeeps(r, all, over, middle, rows, s.cols, CutRows(s, rows), BlankRows(s, rows));
  }

  /** All lines stay, in order, but the oldest past the limit and the rows cut below the cursor; blank rows
      are added only once the scrollback is used up. Lines that come back are made as wide as the screen. */
  lemma RowsKeepLines(s: S.Screen, rows: int)
    requires Main(s) && rows >= 1
    ensures var (r, over, cut) := (Resize(s, s.cols, rows), OverLimit(s, rows), CutRows(s, rows));
            && over + cut <= |Lines(s)|
            && Lines(r) == Kept(Drawn(s, rows), over, cut, BlankRows(s, rows), s.cols)
            && (|s.scrollback| <= s.limit ==> |r.scrollback| <= s.limit) && r.trimmed == s.trimmed + over
    ensures rows <= s.rows || FullWidth(s.scrollback, s.cols) ==> Drawn(s, rows) == Lines(s)
  {
    MainFacts(s, rows);
    Counts(s, rows);
    ResizeMoves(s, rows);
    hide *;
    if rows <= s.rows || FullWidth(s.scrollback, s.cols) { DrawnIsLines(s, rows); }
    if rows == s.rows {
      KeptAll(Lines(s), 0, 0, s.cols);
    } else {
      MovedKeepLines(s, rows, Drawn(s, rows), OverLimit(s, rows), Middle(s, rows), MoveRows(s, s.cols, rows));
    }
  }

  lemma DividedFront(r: S.Screen, all: seq<Line>, over: nat, middle: int, rows: nat, cols: nat)
    requires Divided(r, all, over, middle, rows, cols)
    ensures |r.scrollback| == middle - over
  {
  }

  lemma ResizeMoves(s: S.Screen, rows: int)
    requires s.WellFormed() && rows >= 1
    ensures Resize(s, s.cols, rows) == if rows == s.rows then s else MoveRows(s, s.cols, rows)
  {
    hide MoveRows, R.Reflow;
  }

  /** The cursor's line keeps its number in the history of the pane, and its content. */
  lemma RowsKeepCursor(s: S.Screen, rows: int)
    requires Main(s) && rows >= 1
    ensures var r := Resize(s, s.cols, rows);
            && 0 <= r.here.row < |r.grid| && r.grid[r.here.row] == s.grid[s.here.row]
            && r.trimmed + |r.scrollback| + r.here.row == s.trimmed + |s.scrollback| + s.here.row
  {
    ResizeMoves(s, rows);
    hide MoveRows, Resize;
    if rows != s.rows { MovedCursor(s, rows); }
  }

  lemma MovedCursor(s: S.Screen, rows: int)
    requires Main(s) && rows >= 1
    ensures var r := MoveRows(s, s.cols, rows);
            && 0 <= r.here.row < |r.grid| && r.grid[r.here.row] == s.grid[s.here.row]
            && r.trimmed + |r.scrollback| + r.here.row == s.trimmed + |s.scrollback| + s.here.row
  {
    var (over, middle, at) := (OverLimit(s, rows), Middle(s, rows), |s.scrollback| + s.here.row);
    hide MoveRows, OverLimit, Middle, Main, Lines, Drawn, Divided, S.Screen.WellFormed;
    MainFacts(s, rows);
    Counts(s, rows);
    MovedParts(s, rows);
    DividedAt(MoveRows(s, s.cols, rows), Drawn(s, rows), over, middle, rows, s.cols, at);
  }

  // Shrinking and growing back.

  /** What a shrink leaves: n rows went out, `over` lines were evicted and `cut` rows taken off. */
  predicate ShrunkTo(s: S.Screen, r: S.Screen, n: nat, over: nat, cut: nat) {
    var (all, end) := (Lines(s), |s.scrollback| + n);
    && Main(s) && Main(r) && r.cols == s.cols && r.rows + n + cut == s.rows
    && over <= end <= |all| - cut && r.scrollback == all[over..end] && Lines(r) == all[over..|all| - cut]
  }

  lemma ShrunkIsMain(s: S.Screen, rows: int)
    requires Main(s) && 1 <= rows < s.rows
    ensures var r := Resize(s, s.cols, rows);
            Main(r) && r.cols == s.cols && r.rows == rows && r == MoveRows(s, s.cols, rows)
  {
    ResizedWellFormed(s, s.cols, rows);
    ResizeMoves(s, rows);
    MovedShape(s, s.cols, rows);
    hide MoveRows, Resize, S.Screen.WellFormed;
  }

  lemma ShrunkFront(s: S.Screen, rows: int)
    requires Main(s) && 1 <= rows < s.rows
    ensures MoveRows(s, s.cols, rows).scrollback == Drawn(s, rows)[OverLimit(s, rows)..Middle(s, rows)]
  {
    MovedParts(s, rows);
    hide MoveRows, OverLimit, Middle, Drawn, Main;
  }

  lemma Shrunk(s: S.Screen, rows: int)
    requires Main(s) && 1 <= rows < s.rows
    ensures ShrunkTo(s, Resize(s, s.cols, rows), Pushed(s, rows), OverLimit(s, rows), CutRows(s, rows))
  {
    hide *;
    MainFacts(s, rows);
    ShrunkIsMain(s, rows);
    ShrunkFront(s, rows);
    RowsKeepLines(s, rows);
    ShrinkCounts(s, rows);
    KeptAll(Lines(s), OverLimit(s, rows), CutRows(s, rows), s.cols);
    ShrunkToIs(s, Resize(s, s.cols, rows), Pushed(s, rows), OverLimit(s, rows), CutRows(s, rows));
  }

  lemma ShrunkToIs(s: S.Screen, r: S.Screen, n: nat, over: nat, cut: nat)
    requires Main(s) && Main(r) && r.cols == s.cols && r.rows + n + cut == s.rows
    requires over <= |s.scrollback| + n <= |Lines(s)| - cut && r.scrollback == Lines(s)[over..|s.scrollback| + n]
    requires Lines(r) == Lines(s)[over..|Lines(s)| - cut]
    ensures ShrunkTo(s, r, n, over, cut)
  {
  }

  lemma ShrinkCounts(s: S.Screen, rows: int)
    requires Main(s) && 1 <= rows < s.rows
    ensures BlankRows(s, rows) == 0 == Back(s, rows) && Middle(s, rows) == |s.scrollback| + Pushed(s, rows)
    ensures s.rows - rows == Pushed(s, rows) + CutRows(s, rows)
    ensures OverLimit(s, rows) == Evicted(s, Pushed(s, rows))
    ensures |s.scrollback| + Pushed(s, rows) <= |Lines(s)| - CutRows(s, rows)
  {
  }

  lemma KeptAll(all: seq<Line>, over: nat, cut: nat, cols: nat)
    requires over + cut <= |all|
    ensures Kept(all, over, cut, 0, cols) == all[over..|all| - cut]
  {
    assert BlankGrid(0, cols) == [];
  }

  lemma KeptWhole(all: seq<Line>, blank: nat, cols: nat)
    ensures Kept(all, 0, 0, blank, cols) == all + BlankGrid(blank, cols)
  {
    assert all[0..|all| - 0] == all;
  }

  /** Growing evicts and cuts nothing. */
  lemma OnlyGrows(r: S.Screen, rows: int)
    requires Main(r) && rows >= r.rows
    ensures r.WellFormed() && r.cols >= 1
    ensures Lines(Resize(r, r.cols, rows)) == Drawn(r, rows) + BlankGrid(BlankRows(r, rows), r.cols)
  {
    assert OverLimit(r, rows) == 0 == CutRows(r, rows) && r.WellFormed() && r.cols >= 1;
    hide *;
    RowsKeepLines(r, rows);
    KeptWhole(Drawn(r, rows), BlankRows(r, rows), r.cols);
  }

  /** Of the lines that come back, the newest are those that went out and have the screen's width. */
  lemma DrawnBack(r: S.Screen, rows: int, n: nat)
    requires Main(r) && rows >= r.rows && n <= |r.scrollback| && FullWidth(r.scrollback[|r.scrollback| - n..], r.cols)
    requires rows - r.rows <= n || |r.scrollback| == n
    ensures Drawn(r, rows) == Lines(r)
  {
    var b := Back(r, rows);
    hide R.ResizedGrid, S.Shaped;
    assert r.scrollback[|r.scrollback| - b..] == r.scrollback[|r.scrollback| - n..][n - b..];
    assert Lines(r)[|r.scrollback| - b..|r.scrollback|] == r.scrollback[|r.scrollback| - b..];
    WidenedFull(Lines(r), |r.scrollback| - b, |r.scrollback|, r.cols);
  }

  function Lost(grid: seq<Line>, over: nat, cut: nat): seq<Line>
    requires cut <= |grid|
  {
    if over > 0 then grid else grid[|grid| - cut..]
  }

  predicate LostBlank(grid: seq<Line>, over: nat, cut: nat, cols: nat)
    requires cut <= |grid|
  {
    Lost(grid, over, cut) == BlankGrid(|Lost(grid, over, cut)|, cols)
  }

  /** Lines that moved up by some are where they were only if all are like those at the end. */
  lemma {:induction false} MovedUp(grid: seq<Line>, over: nat, lost: nat, blank: Line, i: nat)
    requires 0 < over <= lost && i < |grid|
    requires forall k | |grid| - lost <= k < |grid| && 0 <= k :: grid[k] == blank
    requires forall k, j | 0 <= k < |grid| - lost && j == k + over :: grid[k] == grid[j]
    ensures grid[i] == blank
    decreases |grid| - i
  {
    if i + lost < |grid| { MovedUp(grid, over, lost, blank, i + over); }
  }

  /** Without its first and last rows, and blank ones behind the rest instead. */
  predicate Shortened(grid: seq<Line>, after: seq<Line>, over: nat, cut: nat, cols: nat) {
    over + cut <= |grid| && after == grid[over..|grid| - cut] + BlankGrid(over + cut, cols)
  }

  lemma UndoneIff(grid: seq<Line>, after: seq<Line>, over: nat, cut: nat, cols: nat)
    requires Shortened(grid, after, over, cut, cols)
    ensures after == grid <==> LostBlank(grid, over, cut, cols)
  {
    var blank := BlankLine(cols);
    assert forall k, j | 0 <= k < |grid| - over - cut && j == k + over :: after[k] == grid[j];
    if over > 0 && after == grid {
      forall i | 0 <= i < |grid| ensures grid[i] == blank { MovedUp(grid, over, over + cut, blank, i); }
    }
    if over == 0 {
      assert grid == grid[..|grid| - cut] + grid[|grid| - cut..];
      assert after == grid ==> after[|grid| - cut..] == grid[|grid| - cut..];
    }
  }

  lemma GrownBack(s: S.Screen, r: S.Screen, n: nat, over: nat, cut: nat)
    requires ShrunkTo(s, r, n, over, cut)
    ensures r.WellFormed() && s.cols >= 1 && s.rows >= r.rows
    ensures Lines(Resize(r, s.cols, s.rows)) == Drawn(r, s.rows) + BlankGrid(Max(0, over + cut - |s.scrollback|), s.cols)
  {
    assert s.rows >= r.rows && |r.scrollback| == |s.scrollback| + n - over;
    hide Resize, OverLimit, Drawn, Lines, ShrunkTo, S.Screen.WellFormed, BlankGrid;
    OnlyGrows(r, s.rows);
  }

  lemma LostNothing(s: S.Screen, r: S.Screen, n: nat)
    requires ShrunkTo(s, r, n, 0, 0)
    ensures r.WellFormed() && s.cols >= 1 && Lines(Resize(r, s.cols, s.rows)) == Lines(s)
  {
    assert n <= |s.grid| && r.scrollback[|r.scrollback| - n..] == s.grid[..n];
    assert FullWidth(r.scrollback[|r.scrollback| - n..], r.cols);
    hide Resize, Drawn, S.Screen.WellFormed, FullWidth;
    GrownBack(s, r, n, 0, 0);
    DrawnBack(r, s.rows, n);
  }

  lemma LostSome(s: S.Screen, r: S.Screen, n: nat, over: nat, cut: nat)
    requires ShrunkTo(s, r, n, over, cut) && over + cut > 0 && s.scrollback != []
    ensures r.WellFormed() && s.cols >= 1 && |Lines(Resize(r, s.cols, s.rows))| < |Lines(s)|
  {
    hide Resize, Drawn, S.Screen.WellFormed;
    GrownBack(s, r, n, over, cut);
  }

  /** From a scrollback that is empty, everything pulled back went out before. */
  lemma LostFromAll(s: S.Screen, r: S.Screen, n: nat, over: nat, cut: nat)
    requires ShrunkTo(s, r, n, over, cut) && s.scrollback == []
    ensures r.WellFormed() && s.cols >= 1 && Shortened(s.grid, Lines(Resize(r, s.cols, s.rows)), over, cut, s.cols)
  {
    hide Resize, Drawn, S.Screen.WellFormed, FullWidth, BlankGrid;
    LinesAre(s);
    AllWentOut(s, r, n, over, cut);
    hide ShrunkTo;
    GrownBack(s, r, n, over, cut);
    DrawnBack(r, s.rows, n - over);
  }

  lemma AllWentOut(s: S.Screen, r: S.Screen, n: nat, over: nat, cut: nat)
    requires ShrunkTo(s, r, n, over, cut) && s.scrollback == []
    ensures |r.scrollback| == n - over && FullWidth(r.scrollback[|r.scrollback| - (n - over)..], r.cols)
    ensures Main(r) && s.cols >= 1 && r.cols == s.cols && s.rows >= r.rows && over + cut <= |s.grid|
    ensures Lines(r) == s.grid[over..|s.grid| - cut]
  {
    assert Lines(s) == s.grid && FullWidth(s.grid, s.cols);
  }

  /** Nothing was lost, or only blank lines, and no older ones come in their place. */
  predicate OnlyBlankLost(s: S.Screen, over: nat, cut: nat)
    requires s.cols >= 1 && cut <= |s.grid|
  {
    over + cut == 0 || (s.scrollback == [] && LostBlank(s.grid, over, cut, s.cols))
  }

  lemma BlankLostIff(s: S.Screen, r: S.Screen, n: nat, over: nat, cut: nat)
    requires ShrunkTo(s, r, n, over, cut) && s.scrollback == [] && over + cut > 0
    ensures r.WellFormed() && s.cols >= 1 && s.rows >= 1 && cut <= |s.grid|
    ensures Lines(Resize(r, s.cols, s.rows)) == Lines(s) <==> LostBlank(s.grid, over, cut, s.cols)
  {
    LinesAre(s);
    assert s.rows >= 1 && s.cols >= 1 && cut <= |s.grid|;
    hide *;
    LostFromAll(s, r, n, over, cut);
    UndoneIff(s.grid, Lines(Resize(r, s.cols, s.rows)), over, cut, s.cols);
  }

  lemma GrownIff(s: S.Screen, r: S.Screen, n: nat, over: nat, cut: nat)
    requires ShrunkTo(s, r, n, over, cut)
    ensures r.WellFormed() && s.cols >= 1 && s.rows >= 1 && cut <= |s.grid|
    ensures Lines(Resize(r, s.cols, s.rows)) == Lines(s) <==> OnlyBlankLost(s, over, cut)
  {
    assert r.WellFormed() && s.cols >= 1 && s.rows >= 1 && cut <= |s.grid|;
    hide Resize, Lines, ShrunkTo, S.Screen.WellFormed, LostBlank;
    if over + cut == 0 {
      LostNothing(s, r, n);
    } else if s.scrollback == [] {
      BlankLostIff(s, r, n, over, cut);
    } else {
      LostSome(s, r, n, over, cut);
    }
  }

  /** Growing back undoes a shrink exactly when nothing was evicted and no row cut below the cursor, or when
      there was no scrollback and what got lost was blank: the rows cut, and if any were evicted all of them. */
  lemma GrowUndoesShrinkIff(s: S.Screen, rows: int)
    requires Main(s) && 1 <= rows < s.rows
    ensures var (r, over, cut) := (Resize(s, s.cols, rows), OverLimit(s, rows), CutRows(s, rows));
            && r.WellFormed() && cut <= |s.grid|
            && (Lines(Resize(r, s.cols, s.rows)) == Lines(s) <==> OnlyBlankLost(s, over, cut))
  {
    var r := Resize(s, s.cols, rows);
    Shrunk(s, rows);
    hide *;
    GrownIff(s, r, Pushed(s, rows), OverLimit(s, rows), CutRows(s, rows));
  }

  lemma LinesAre(s: S.Screen)
    ensures s.scrollback == [] ==> Lines(s) == s.grid
  {
  }

  const UP := Csi([], 0, 'A' as int)
  const LETTER := Print('x' as int)

  lemma LetterBelow(s: S.Screen)
    requires s == S.Fresh(1, 2, 2)
    ensures var t := S.Apply(S.Apply(s, DOWN), LETTER);
            && S.Apply(s, DOWN).WellFormed() && t.WellFormed() && t.here.row == 1 && t.grid[1].cells[0].codepoint == 'x' as int
            && t.scrollback == [] && t.limit == 2 && !t.usingAlt && t.rows == 2 && t.cols == 1
  {
    var d := S.Apply(s, DOWN);
    assert d == s.(here := s.here.(row := 1)) && S.WrapAtMargin(d) == d;
    assert S.Apply(d, LETTER) == S.PutChar(d.(lastPrinted := 'x' as int), 'x' as int);
  }

  lemma GoesUp(t: S.Screen)
    requires t.WellFormed() && t.rows == 2 && t.here.row == 1
    ensures S.Apply(t, UP) == t.(here := t.here.(row := 0, col := Clamp(t.here.col, 0, t.cols - 1)))
  {
  }

  /** Text below the cursor does not survive a screen made lower and then as high as before. */
  lemma TextBelowIsLost()
    ensures var (s, calls) := (S.Fresh(1, 2, 2), [DOWN, LETTER, UP]);
            && S.Ready(s, calls)
            && Resize(S.ApplyAll(s, calls), 1, 1).WellFormed()
            && Lines(Resize(Resize(S.ApplyAll(s, calls), 1, 1), 1, 2)) != Lines(S.ApplyAll(s, calls))
  {
    var s, calls := S.Fresh(1, 2, 2), [DOWN, LETTER, UP];
    S.SavedInRangeIsReady(s, calls);
    LetterBelow(s);
    var d := S.Apply(s, DOWN);
    GoesUp(S.Apply(d, LETTER));
    var r := S.Apply(S.Apply(d, LETTER), UP);
    BelowIsLost(r);
    hide S.Apply, Resize, S.Fresh, Lines;
    ThreeCalls(s, DOWN, LETTER, UP);
  }

  lemma BelowIsLost(r: S.Screen)
    requires r.WellFormed() && !r.usingAlt && r.rows == 2 && r.cols == 1 && r.limit == 2 && r.here.row == 0
    requires r.grid[1].cells[0].codepoint == 'x' as int
    ensures Resize(r, 1, 1).WellFormed() && Lines(Resize(Resize(r, 1, 1), 1, 2)) != Lines(r)
  {
    assert CutRows(r, 1) == 1 && OverLimit(r, 1) == 0;
    assert r.grid[1..][0].cells[0] != BlankGrid(1, 1)[0].cells[0];
    hide Resize, CutRows, OverLimit, Lines;
    GrowUndoesShrinkIff(r, 1);
  }

  lemma ThreeCalls(s: S.Screen, a: Call, b: Call, c: Call)
    requires s.WellFormed() && S.Ready(s, [a, b, c])
    ensures S.Apply(s, a).WellFormed() && S.Apply(S.Apply(s, a), b).WellFormed()
    ensures S.ApplyAll(s, [a, b, c]) == S.Apply(S.Apply(S.Apply(s, a), b), c)
  {
    hide S.Apply;
    assert [a, b, c][1..] == [b, c] && [b, c][1..] == [c] && [c][1..] == [];
    var (p, q) := (S.Apply(s, a), S.Apply(S.Apply(s, a), b));
    assert S.Ready(p, [b, c]) && S.Ready(q, [c]);
    assert S.ApplyAll(s, [a, b, c]) == S.ApplyAll(p, [b, c]) == S.ApplyAll(q, [c]) == S.ApplyAll(S.Apply(q, c), []);
  }

  // ---------- on the alternate screen ----------

  /** A resize on the alternate screen leaves the scrollback alone exactly when the screen gets no higher
      or there is none: a higher alternate screen is filled with lines of the main screen's history. */
  lemma AltResizeKeepsScrollbackIff(s: S.Screen, cols: int, rows: int)
    requires s.WellFormed() && s.usingAlt && cols >= 1 && rows >= 1
    ensures Resize(s, cols, rows).scrollback == s.scrollback <==> rows <= s.rows || s.scrollback == []
    ensures Resize(s, cols, rows).trimmed == s.trimmed
  {
    hide R.ResizedGrid;
  }

  const ALTERNATE := Csi([Param(1049, [])], '?' as int, 'h' as int)

  /** One line feed on a screen of one row pushes a line out. */
  lemma OneLineOut(s: S.Screen)
    requires s == S.Fresh(1, 1, 1)
    ensures var t := S.Apply(s, DOWN); t.WellFormed() && |t.scrollback| == 1 && !t.usingAlt && t.rows == t.cols == 1
  {
    assert S.ScrollUp(s, 0, 0, 0) == s;
    assert S.Apply(s, DOWN) == S.NewLine(s) == S.ScrollUp(s, 0, 0, 1) == S.ScrollUpOnce(s, 0, 0);
    assert |s.scrollback| == 0;
  }

  lemma Alternates(t: S.Screen)
    requires t.WellFormed() && !t.usingAlt
    ensures var s := S.Apply(t, ALTERNATE); s.WellFormed() && s.usingAlt && s.scrollback == t.scrollback
  {
    var ps := [Param(1049, [])];
    assert S.SetModes(t, ps, 0, true, true) == t;
    assert S.Apply(t, ALTERNATE) == S.SetModes(t, ps, 1, true, true) == S.EnterAlternate(t);
  }

  /** A terminal with one line of scrollback that is on the alternate screen when it is made higher loses it to that screen. */
  lemma AltTakesScrollback()
    ensures var calls := [DOWN, ALTERNATE];
            var s := S.Fresh(1, 1, 1);
            S.Ready(s, calls) && Resize(S.ApplyAll(s, calls), 1, 2).scrollback != S.ApplyAll(s, calls).scrollback
  {
    var s, calls := S.Fresh(1, 1, 1), [DOWN, ALTERNATE];
    S.SavedInRangeIsReady(s, calls);
    OneLineOut(s);
    Alternates(S.Apply(s, DOWN));
    hide S.Apply, Resize, S.Fresh;
    assert calls[1..] == [ALTERNATE] && calls[1..][1..] == [];
    var t := S.Apply(s, DOWN);
    var r := S.Apply(t, ALTERNATE);
    assert S.ApplyAll(s, calls) == S.ApplyAll(t, [ALTERNATE]) == S.ApplyAll(r, []) == r;
    AltResizeKeepsScrollbackIff(r, 1, 2);
  }
}
