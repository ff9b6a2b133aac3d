/**
  Re-wrapping the whole buffer to a new width: the steps of the algorithm on lists
  of lines, and the loops that compute them.

  A logical line is a run of physical lines joined on their wrapped flags. The text
  of a buffer is the list of its logical lines with the wrap attribute cleared and
  trailing blanks trimmed; what reflow keeps is stated in ReflowTheorems.dfy.
*/
module Reflowing {
  import opened Bytes
  import opened Cells
  import S = Screens

  // ---------- cells ----------

  function ClearWrap(c: Cell): Cell {
    c.(attrs := ClearBit(c.attrs, ATTR_WRAP))
  }

  function SetWrap(c: Cell): Cell {
    c.(attrs := SetBit(c.attrs, ATTR_WRAP))
  }

  /** The wrap attribute of the last cell cleared, or set. */
  function ClearLast(cells: seq<Cell>): (r: seq<Cell>)
    ensures |r| == |cells|
  {
    if cells == [] then [] else cells[|cells| - 1 := ClearWrap(cells[|cells| - 1])]
  }

  function SetLast(cells: seq<Cell>): (r: seq<Cell>)
    ensures |r| == |cells|
  {
    if cells == [] then [] else cells[|cells| - 1 := SetWrap(cells[|cells| - 1])]
  }

  /** Trailing default blanks go, but never below keep cells. */
  function TrimTo(cells: seq<Cell>, keep: int): (r: seq<Cell>)
    ensures r <= cells
    ensures |cells| >= keep ==> |r| >= keep
  {
    if |cells| > keep && cells != [] && DefaultSpace(cells[|cells| - 1])
    then TrimTo(cells[..|cells| - 1], keep)
    else cells
  }

  // ---------- step 2: blank lines below the cursor ----------

  predicate BlankBelow(l: Line) {
    !l.wrapped && forall i | 0 <= i < |l.cells| :: DefaultSpace(l.cells[i])
  }

  function TrimBelow(lines: seq<Line>, keep: nat): (r: seq<Line>)
    requires keep <= |lines|
    ensures r <= lines && keep <= |r|
  {
    if |lines| > keep && BlankBelow(lines[|lines| - 1]) then TrimBelow(lines[..|lines| - 1], keep) else lines
  }

  method TrimBelowCursor(lines: seq<Line>, keep: nat) returns (r: seq<Line>)
    requires keep <= |lines|
    ensures r == TrimBelow(lines, keep)
  {
    r := lines;
    while |r| > keep
      invariant keep <= |r| <= |lines| && TrimBelow(r, keep) == TrimBelow(lines, keep)
    {
      var back := r[|r| - 1];
      var i := 0;
      while i < |back.cells| && DefaultSpace(back.cells[i])
        invariant 0 <= i <= |back.cells| && forall k | 0 <= k < i :: DefaultSpace(back.cells[k])
      {
        i := i + 1;
      }
      if i < |back.cells| || back.wrapped { break; }
      r := r[..|r| - 1];
    }
  }

  // ---------- step 3: logical lines, and where the cursor falls ----------

  /** A logical line and a cell offset in it. */
  datatype Place = Place(line: nat, offset: nat)

  /** The place of cell col of physical line abs; line and offset count what came before these lines. */
  function PlaceFrom(line: nat, offset: nat, lines: seq<Line>, abs: nat, col: nat): (p: Place)
    requires abs < |lines|
    ensures p.line >= line
    decreases |lines|
  {
    if abs == 0 then Place(line, offset + col)
    else if lines[0].wrapped then PlaceFrom(line, offset + |lines[0].cells|, lines[1..], abs - 1, col)
    else PlaceFrom(line + 1, 0, lines[1..], abs - 1, col)
  }

  function PlaceOf(lines: seq<Line>, abs: nat, col: nat): Place
    requires abs < |lines|
  {
    PlaceFrom(0, 0, lines, abs, col)
  }

  function Keep(line: nat, cursor: Place): int {
    if line == cursor.line then cursor.offset + 1 else 0
  }

  /** The logical lines of these physical lines, the first one already holding the cells acc. */
  function LogicalFrom(acc: seq<Cell>, open: bool, line: nat, lines: seq<Line>, cursor: Place): seq<seq<Cell>>
    decreases |lines|
  {
    if lines == [] then if open then [TrimTo(acc, Keep(line, cursor))] else []
    else
      var cells := acc + lines[0].cells;
      if lines[0].wrapped
      then LogicalFrom(ClearLast(cells), true, line, lines[1..], cursor)
      else [TrimTo(cells, Keep(line, cursor))] + LogicalFrom([], false, line + 1, lines[1..], cursor)
  }

  function Logical(lines: seq<Line>, cursor: Place): seq<seq<Cell>> {
    LogicalFrom([], false, 0, lines, cursor)
  }

  method TrimTrailing(cells: seq<Cell>, keep: int) returns (r: seq<Cell>)
    ensures r == TrimTo(cells, keep)
  {
    r := cells;
    while |r| > keep && r != [] && DefaultSpace(r[|r| - 1])
      invariant |r| <= |cells| && TrimTo(r, keep) == TrimTo(cells, keep)
      decreases |r|
    {
      r := r[..|r| - 1];
    }
  }

  /** One logical line's physical lines gathered from index i on. */
  method Gather(lines: seq<Line>, i: nat, line: nat, abs: nat, col: nat, ghost cursor: Place)
    returns (cells: seq<Cell>, next: nat, found: int)
    requires i < |lines| && abs < |lines|
    requires i <= abs ==> cursor == PlaceFrom(line, 0, lines[i..], abs - i, col)
    ensures i < next <= |lines|
    ensures LogicalFrom([], false, line, lines[i..], cursor)
         == [TrimTo(cells, Keep(line, cursor))] + LogicalFrom([], false, line + 1, lines[next..], cursor)
    ensures i <= abs < next ==> found >= 0 && cursor == Place(line, found)
    ensures !(i <= abs < next) ==> found == -1
    ensures next <= abs && i <= abs ==> cursor == PlaceFrom(line + 1, 0, lines[next..], abs - next, col)
  {
    hide LogicalFrom, PlaceFrom, TrimTo;
    cells, next, found := [], i, -1;
    var wrapped := true;
    while wrapped && next < |lines|
      invariant i <= next <= |lines| && (wrapped || next > i)
      invariant LogicalFrom([], false, line, lines[i..], cursor) ==
        if wrapped then LogicalFrom(cells, next > i, line, lines[next..], cursor)
        else [TrimTo(cells, Keep(line, cursor))] + LogicalFrom([], false, line + 1, lines[next..], cursor)
      invariant i <= abs < next ==> found >= 0 && cursor == Place(line, found)
      invariant !(i <= abs < next) ==> found == -1
      invariant i <= abs && next <= abs ==>
        cursor == PlaceFrom(if wrapped then line else line + 1, if wrapped then |cells| else 0, lines[next..], abs - next, col)
      decreases |lines| - next
    {
      var physical := lines[next];
      LogicalStep(cells, next > i, line, lines, next, cursor);
      if i <= abs && next <= abs { PlaceStep(line, |cells|, lines, next, abs, col); }
      if next == abs { found := |cells| + col; }
      cells := cells + physical.cells;
      wrapped := physical.wrapped;
      next := next + 1;
      if wrapped { cells := ClearLast(cells); }
    }
    if wrapped { LogicalEnd(cells, line, lines[next..], cursor); }
  }

  lemma LogicalStep(acc: seq<Cell>, open: bool, line: nat, lines: seq<Line>, i: nat, cursor: Place)
    requires i < |lines|
    ensures var cells := acc + lines[i].cells;
            LogicalFrom(acc, open, line, lines[i..], cursor) ==
              if lines[i].wrapped then LogicalFrom(ClearLast(cells), true, line, lines[i + 1..], cursor)
              else [TrimTo(cells, Keep(line, cursor))] + LogicalFrom([], false, line + 1, lines[i + 1..], cursor)
  {
    assert lines[i..][1..] == lines[i + 1..];
  }

  lemma LogicalEnd(acc: seq<Cell>, line: nat, rest: seq<Line>, cursor: Place)
    requires rest == []
    ensures LogicalFrom(acc, true, line, rest, cursor)
         == [TrimTo(acc, Keep(line, cursor))] + LogicalFrom([], false, line + 1, rest, cursor)
  {
  }

  lemma PlaceStep(line: nat, offset: nat, lines: seq<Line>, i: nat, abs: nat, col: nat)
    requires i <= abs < |lines|
    ensures PlaceFrom(line, offset, lines[i..], abs - i, col) ==
      if i == abs then Place(line, offset + col)
      else if lines[i].wrapped then PlaceFrom(line, offset + |lines[i].cells|, lines[i + 1..], abs - (i + 1), col)
      else PlaceFrom(line + 1, 0, lines[i + 1..], abs - (i + 1), col)
  {
    assert lines[i..][1..] == lines[i + 1..];
  }

  lemma NoMoreLogical(line: nat, rest: seq<Line>, cursor: Place)
    requires rest == []
    ensures LogicalFrom([], false, line, rest, cursor) == []
  {
  }

  /** The cursor has not been passed, or it has been found where it belongs. */
  predicate CursorKnown(lines: seq<Line>, i: nat, line: nat, abs: nat, col: nat, place: Place, cursorLine: int, cursorOffset: int)
    requires i <= |lines| && abs < |lines|
  {
    if i <= abs then place == PlaceFrom(line, 0, lines[i..], abs - i, col) && cursorLine == -1
    else cursorLine == place.line < line && cursorOffset == place.offset
  }

  /** One logical line gathered and trimmed; the cursor's cell is kept. */
  method GroupOne(lines: seq<Line>, i: nat, line: nat, abs: nat, col: nat, cursorLine: int, cursorOffset: int, ghost place: Place)
    returns (cells: seq<Cell>, next: nat, cursorLine': int, cursorOffset': int)
    requires i < |lines| && abs < |lines| && CursorKnown(lines, i, line, abs, col, place, cursorLine, cursorOffset)
    ensures i < next <= |lines| && CursorKnown(lines, next, line + 1, abs, col, place, cursorLine', cursorOffset')
    ensures LogicalFrom([], false, line, lines[i..], place) == [cells] + LogicalFrom([], false, line + 1, lines[next..], place)
  {
    hide LogicalFrom, PlaceFrom, TrimTo;
    var found;
    cells, next, found := Gather(lines, i, line, abs, col, place);
    cursorLine', cursorOffset' := cursorLine, cursorOffset;
    if found >= 0 { cursorLine', cursorOffset' := line, found; }
    cells := TrimTrailing(cells, if cursorLine' == line then cursorOffset' + 1 else 0);
  }

  /** These are the first logical lines, and the rest is to come from line i on. */
  predicate Grouped(lines: seq<Line>, i: nat, logical: seq<seq<Cell>>, place: Place)
    requires i <= |lines|
  {
    logical + LogicalFrom([], false, |logical|, lines[i..], place) == Logical(lines, place)
  }

  lemma NoneGrouped(lines: seq<Line>, place: Place)
    ensures Grouped(lines, 0, [], place)
  {
    assert lines[0..] == lines;
  }

  lemma OneGrouped(lines: seq<Line>, i: nat, next: nat, logical: seq<seq<Cell>>, cells: seq<Cell>, place: Place)
    requires i <= next <= |lines| && Grouped(lines, i, logical, place)
    requires LogicalFrom([], false, |logical|, lines[i..], place) == [cells] + LogicalFrom([], false, |logical| + 1, lines[next..], place)
    ensures Grouped(lines, next, logical + [cells], place)
  {
    hide LogicalFrom;
    Associative(logical, [cells], LogicalFrom([], false, |logical| + 1, lines[next..], place));
  }

  lemma AllGrouped(lines: seq<Line>, logical: seq<seq<Cell>>, place: Place)
    requires Grouped(lines, |lines|, logical, place)
    ensures logical == Logical(lines, place)
  {
    NoMoreLogical(|logical|, lines[|lines|..], place);
    hide LogicalFrom, Logical;
    assert logical + [] == logical;
  }

  lemma NotYetKnown(lines: seq<Line>, abs: nat, col: nat)
    requires abs < |lines|
    ensures CursorKnown(lines, 0, 0, abs, col, PlaceOf(lines, abs, col), -1, -1)
  {
    assert lines[0..] == lines;
  }

  method GroupLogical(lines: seq<Line>, abs: nat, col: nat) returns (logical: seq<seq<Cell>>, cursor: Place)
    requires abs < |lines|
    ensures cursor == PlaceOf(lines, abs, col)
    ensures logical == Logical(lines, cursor)
  {
    hide Logical, PlaceOf, LogicalFrom, PlaceFrom, CursorKnown, Grouped;
    logical := [];
    ghost var place := PlaceOf(lines, abs, col);
    NoneGrouped(lines, place);
    NotYetKnown(lines, abs, col);
    var cursorLine, cursorOffset := -1, -1;
    var i := 0;
    while i < |lines|
      invariant 0 <= i <= |lines| && Grouped(lines, i, logical, place)
      invariant CursorKnown(lines, i, |logical|, abs, col, place, cursorLine, cursorOffset)
    {
      var cells, next;
      cells, next, cursorLine, cursorOffset := GroupOne(lines, i, |logical|, abs, col, cursorLine, cursorOffset, place);
      OneGrouped(lines, i, next, logical, cells, place);
      logical := logical + [cells];
      i := next;
    }
    AllGrouped(lines, logical, place);
    CursorFound(lines, |logical|, abs, col, place, cursorLine, cursorOffset);
    cursor := Place(cursorLine, cursorOffset);
  }

  lemma CursorFound(lines: seq<Line>, line: nat, abs: nat, col: nat, place: Place, cursorLine: int, cursorOffset: int)
    requires abs < |lines| && CursorKnown(lines, |lines|, line, abs, col, place, cursorLine, cursorOffset)
    ensures cursorLine == place.line && cursorOffset == place.offset
  {
  }

  // ---------- step 4: wrapping at the new width ----------

  function Padded(cells: seq<Cell>, cols: nat): (r: seq<Cell>)
    requires |cells| <= cols
    ensures |r| == cols
  {
    cells + Blanks(cols - |cells|)
  }

  /** One logical line cut at the new width; every piece but the last is marked as continued. */
  function Wrap(cells: seq<Cell>, cols: nat): (r: seq<Line>)
    requires cols >= 1
    ensures r != [] && forall i | 0 <= i < |r| :: |r[i].cells| == cols
    decreases |cells|
  {
    if |cells| <= cols then [Line(Padded(cells, cols), false, 0)]
    else [Line(SetLast(cells[..cols]), true, 0)] + Wrap(cells[cols..], cols)
  }

  function WrapAll(logical: seq<seq<Cell>>, cols: nat): (r: seq<Line>)
    requires cols >= 1
    ensures forall i | 0 <= i < |r| :: |r[i].cells| == cols
    ensures logical != [] ==> r != []
  {
    if logical == [] then []
    else WrapAll(logical[..|logical| - 1], cols) + Wrap(logical[|logical| - 1], cols)
  }

  /** The physical line that shows a place after wrapping. */
  function WrappedLine(logical: seq<seq<Cell>>, cols: nat, p: Place): nat
    requires cols >= 1 && p.line < |logical|
  {
    |WrapAll(logical[..p.line], cols)| + p.offset / cols
  }

  /** So many cells fill n whole lines. */
  predicate InStep(pos: nat, n: nat, cols: nat) {
    pos == n * cols
  }

  lemma NextStep(pos: nat, n: nat, cols: nat)
    requires InStep(pos, n, cols)
    ensures InStep(pos + cols, n + 1, cols)
  {
  }

  lemma FoundAt(pos: nat, n: nat, cols: nat, offset: nat)
    requires cols >= 1 && InStep(pos, n, cols) && pos <= offset < pos + cols
    ensures offset / cols == n
  {
    QuotientIs(offset, cols, n);
  }

  method WrapLine(cells: seq<Cell>, cols: nat, tracked: bool, offset: nat) returns (lines: seq<Line>, at: int)
    requires cols >= 1 && (tracked ==> offset < |cells|)
    ensures lines == Wrap(cells, cols)
    ensures at == if tracked then offset / cols else -1
  {
    hide Wrap, Padded, SetLast;
    lines, at := [], -1;
    WrapStep(cells, cols, 0);
    if cells == [] {
      lines := [BlankLine(cols)];
      return;
    }
    var pos := 0;
    assert cells[0..] == cells && InStep(0, 0, cols);
    hide InStep;
    while pos < |cells|
      invariant 0 <= pos <= |cells|
      invariant pos < |cells| ==> InStep(pos, |lines|, cols) && lines + Wrap(cells[pos..], cols) == Wrap(cells, cols)
      invariant pos == |cells| ==> lines == Wrap(cells, cols)
      invariant at == if tracked && offset < pos then offset / cols else -1
    {
      var end := Min(pos + cols, |cells|);
      if tracked && pos <= offset < pos + cols {
        at := |lines|;
        FoundAt(pos, |lines|, cols, offset);
      }
      WrapStep(cells, cols, pos);
      if end < |cells| {
        NextStep(pos, |lines|, cols);
        Associative(lines, [Line(SetLast(cells[pos..end]), true, 0)], Wrap(cells[end..], cols));
        lines := lines + [Line(SetLast(cells[pos..end]), true, 0)];
      } else {
        lines := lines + [Line(Padded(cells[pos..end], cols), false, 0)];
      }
      pos := end;
    }
  }

  lemma WrapStep(cells: seq<Cell>, cols: nat, pos: nat)
    requires cols >= 1 && pos <= |cells|
    ensures Wrap(cells[pos..], cols) ==
      if pos + cols < |cells| then [Line(SetLast(cells[pos..pos + cols]), true, 0)] + Wrap(cells[pos + cols..], cols)
      else [Line(Padded(cells[pos..|cells|], cols), false, 0)]
    ensures cells == [] ==> Wrap(cells, cols) == [BlankLine(cols)]
  {
    var rest := cells[pos..];
    if pos + cols < |cells| {
      assert rest[..cols] == cells[pos..pos + cols] && rest[cols..] == cells[pos + cols..];
    } else {
      assert rest == cells[pos..|cells|];
    }
    assert cells == [] ==> Padded(cells, cols) == Blanks(cols);
  }

  lemma QuotientIs(x: nat, n: nat, q: nat)
    requires n >= 1 && q * n <= x < q * n + n
    ensures x / n == q
  {
    assert x == x / n * n + x % n;
    var d := x / n - q;
    assert x / n * n == q * n + d * n;
    assert d >= 1 ==> d * n >= n;
    assert d <= -1 ==> d * n <= -1 * n;
  }

  /** The first i logical lines are wrapped, and `found` is where the cursor is if it is on one of them. */
  predicate WrappedSoFar(logical: seq<seq<Cell>>, cols: nat, p: Place, i: nat, lines: seq<Line>, found: int)
    requires cols >= 1 && p.line < |logical|
  {
    i <= |logical| && lines == WrapAll(logical[..i], cols) && found == if i > p.line then WrappedLine(logical, cols, p) else -1
  }

  lemma OneMoreWrapped(logical: seq<seq<Cell>>, cols: nat, p: Place, i: nat, lines: seq<Line>, found: int, at: int)
    requires cols >= 1 && p.line < |logical| && i < |logical| && WrappedSoFar(logical, cols, p, i, lines, found)
    requires at == if i == p.line then p.offset / cols else -1
    ensures WrappedSoFar(logical, cols, p, i + 1, lines + Wrap(logical[i], cols), if at >= 0 then |lines| + at else found)
  {
    hide Wrap;
    assert logical[..i + 1][..i] == logical[..i];
  }

  lemma AllWrapped(logical: seq<seq<Cell>>, cols: nat, p: Place, lines: seq<Line>, found: int)
    requires cols >= 1 && p.line < |logical| && WrappedSoFar(logical, cols, p, |logical|, lines, found)
    ensures lines == WrapAll(logical, cols) && found == WrappedLine(logical, cols, p)
  {
    assert logical[..|logical|] == logical;
  }

  method Rewrap(logical: seq<seq<Cell>>, cols: nat, cursor: Place) returns (lines: seq<Line>, abs: nat)
    requires cols >= 1 && cursor.line < |logical| && cursor.offset < |logical[cursor.line]|
    ensures lines == WrapAll(logical, cols)
    ensures abs == WrappedLine(logical, cols, cursor)
  {
    lines := [];
    var found := -1;
    var li := 0;
    assert WrappedSoFar(logical, cols, cursor, 0, lines, found);
    hide Wrap, WrapAll, WrappedLine;
    while li < |logical|
      invariant 0 <= li <= |logical| && WrappedSoFar(logical, cols, cursor, li, lines, found)
    {
      hide WrappedSoFar;
      var piece, at := WrapLine(logical[li], cols, li == cursor.line, cursor.offset);
      OneMoreWrapped(logical, cols, cursor, li, lines, found, at);
      if at >= 0 { found := |lines| + at; }
      lines := lines + piece;
      li := li + 1;
    }
    AllWrapped(logical, cols, cursor, lines, found);
    abs := found;
  }

  /** The cursor's cell survives trimming, and with it every cell before it. */
  lemma {:induction false} CursorCellKept(acc: seq<Cell>, open: bool, line: nat, lines: seq<Line>, abs: nat, col: nat)
    requires abs < |lines| && col < |lines[abs].cells|
    ensures var p := PlaceFrom(line, |acc|, lines, abs, col);
            var logical := LogicalFrom(acc, open, line, lines, p);
            p.line - line < |logical| && p.offset < |logical[p.line - line]|
    decreases |lines|
  {
    hide LogicalFrom, PlaceFrom, TrimTo, ClearLast;
    var p := PlaceFrom(line, |acc|, lines, abs, col);
    var cells := acc + lines[0].cells;
    assert lines[0..] == lines;
    LogicalStep(acc, open, line, lines, 0, p);
    PlaceStep(line, |acc|, lines, 0, abs, col);
    if lines[0].wrapped {
      if abs == 0 {
        LongerLogical(ClearLast(cells), line, lines[1..], p);
      } else {
        CursorCellKept(ClearLast(cells), true, line, lines[1..], abs - 1, col);
      }
    } else if abs > 0 {
      CursorCellKept([], false, line + 1, lines[1..], abs - 1, col);
    }
  }

  lemma {:induction false} LongerLogical(acc: seq<Cell>, line: nat, lines: seq<Line>, p: Place)
    requires p.line == line && p.offset < |acc|
    ensures var logical := LogicalFrom(acc, true, line, lines, p); logical != [] && p.offset < |logical[0]|
    decreases |lines|
  {
    if lines != [] && lines[0].wrapped {
      LongerLogical(ClearLast(acc + lines[0].cells), line, lines[1..], p);
    }
  }

  // ---------- the whole operation ----------

  function BelowTrimmed(s: S.Screen): (r: seq<Line>)
    requires s.WellFormed()
    ensures |s.scrollback| + s.here.row < |r| && r <= s.scrollback + s.grid
  {
    TrimBelow(s.scrollback + s.grid, |s.scrollback| + s.here.row + 1)
  }

  /** The cursor's cell; a cursor waiting past the margin counts as being on the last cell. */
  function CursorPlace(s: S.Screen): Place
    requires s.WellFormed()
  {
    PlaceOf(BelowTrimmed(s), |s.scrollback| + s.here.row, Min(s.here.col, s.cols - 1))
  }

  lemma PlaceOnLogicalLine(lines: seq<Line>, abs: nat, col: nat)
    requires abs < |lines| && col < |lines[abs].cells|
    ensures var p := PlaceOf(lines, abs, col);
            p.line < |Logical(lines, p)| && p.offset < |Logical(lines, p)[p.line]|
  {
    hide LogicalFrom, PlaceFrom;
    CursorCellKept([], false, 0, lines, abs, col);
  }

  lemma CursorRow(s: S.Screen)
    requires s.WellFormed()
    ensures |BelowTrimmed(s)[|s.scrollback| + s.here.row].cells| == s.cols && 0 <= Min(s.here.col, s.cols - 1) < s.cols
  {
    hide TrimBelow;
    assert BelowTrimmed(s)[|s.scrollback| + s.here.row] == (s.scrollback + s.grid)[|s.scrollback| + s.here.row] == s.grid[s.here.row];
  }

  /** The cursor's row is full width, so its cell is part of its logical line. */
  lemma CursorOnLogicalLine(s: S.Screen)
    requires s.WellFormed()
    ensures var p, logical := CursorPlace(s), Logical(BelowTrimmed(s), CursorPlace(s));
            p.line < |logical| && p.offset < |logical[p.line]|
  {
    CursorRow(s);
    assert 0 <= s.here.row && s.cols >= 1;
    hide BelowTrimmed, PlaceOf, Logical, S.Screen.WellFormed, S.Screen.Framed, LogicalFrom, PlaceFrom, TrimBelow, TrimTo;
    PlaceOnLogicalLine(BelowTrimmed(s), |s.scrollback| + s.here.row, Min(s.here.col, s.cols - 1));
  }

  function Rewrapped(s: S.Screen, cols: int): (r: seq<Line>)
    requires s.WellFormed() && cols >= 1
  {
    WrapAll(Logical(BelowTrimmed(s), CursorPlace(s)), cols)
  }

  function CursorLine(s: S.Screen, cols: int): nat
    requires s.WellFormed() && cols >= 1
  {
    CursorOnLogicalLine(s);
    WrappedLine(Logical(BelowTrimmed(s), CursorPlace(s)), cols, CursorPlace(s))
  }

  /** The last rows of the re-wrapped lines become the screen. */
  function ScreenStart(s: S.Screen, cols: int, rows: int): nat
    requires s.WellFormed() && cols >= 1 && rows >= 1
  {
    Max(0, |Rewrapped(s, cols)| - rows)
  }

  function ResizedGrid(grid: seq<Line>, rows: nat, cols: nat): (r: seq<Line>)
    ensures S.Shaped(r, rows, cols)
  {
    var kept := if rows <= |grid| then grid[..rows] else grid + BlankGrid(rows - |grid|, cols);
    seq(rows, i requires 0 <= i < rows => Resized(kept[i], cols))
  }

  function Reflow(s: S.Screen, cols: int, rows: int): S.Screen
    requires s.WellFormed() && cols >= 1 && rows >= 1
  {
    var lines := Rewrapped(s, cols);
    var start := ScreenStart(s, cols, rows);
    var dropped := Max(0, start - s.limit);
    s.(cols := cols, rows := rows,
       scrollback := lines[dropped..start],
       trimmed := s.trimmed + dropped,
       grid := lines[start..] + BlankGrid(Max(0, rows - |lines|), cols),
       alt := ResizedGrid(s.alt, rows, cols),
       here := s.here.(row := Clamp(CursorLine(s, cols) - start, 0, rows - 1),
                       col := Clamp(CursorPlace(s).offset % cols, 0, cols - 1)),
       region := S.Region(0, rows - 1),
       viewport := 0)
  }

  lemma ReflowFromParts(s: S.Screen, cols: int, rows: int, back: seq<Line>, grid: seq<Line>, start: nat, dropped: nat)
    requires s.WellFormed() && cols >= 1 && rows >= 1
    requires var lines := Rewrapped(s, cols);
             && start == Max(0, |lines| - rows) && dropped == Max(0, start - s.limit)
             && back == lines[dropped..start]
             && grid == lines[start..] + BlankGrid(Max(0, rows - |lines|), cols)
    ensures |grid| == rows
    ensures Reflow(s, cols, rows) == s.(cols := cols, rows := rows, scrollback := back, trimmed := s.trimmed + dropped,
              grid := grid, alt := ResizedGrid(s.alt, rows, cols),
              here := s.here.(row := Clamp(CursorLine(s, cols) - start, 0, rows - 1),
                              col := Clamp(CursorPlace(s).offset % cols, 0, cols - 1)),
              region := S.Region(0, rows - 1), viewport := 0)
  {
    hide Rewrapped, CursorLine, CursorPlace, ResizedGrid;
  }

  lemma OneMoreBlank(front: seq<Line>, n: nat, cols: nat)
    ensures front + BlankGrid(n, cols) + [BlankLine(cols)] == front + BlankGrid(n + 1, cols)
  {
    assert BlankGrid(n + 1, cols) == BlankGrid(n, cols) + [BlankLine(cols)];
  }

  method SplitLines(lines: seq<Line>, cols: int, rows: int, limit: nat)
    returns (scrollback: seq<Line>, screen: seq<Line>, start: nat, dropped: nat)
    requires cols >= 1 && rows >= 1
    ensures start == Max(0, |lines| - rows) && dropped == Max(0, start - limit)
    ensures scrollback == lines[dropped..start]
    ensures screen == lines[start..] + BlankGrid(Max(0, rows - |lines|), cols)
  {
    start := Max(0, |lines| - rows);
    scrollback, screen := lines[..start], lines[start..];
    ghost var padding := 0;
    while |screen| < rows
      invariant 0 <= padding && screen == lines[start..] + BlankGrid(padding, cols)
      invariant padding <= Max(0, rows - |lines|)
      decreases rows - |screen|
    {
      OneMoreBlank(lines[start..], padding, cols);
      screen := screen + [BlankLine(cols)];
      padding := padding + 1;
    }
    dropped := 0;
    while |scrollback| > limit
      invariant 0 <= dropped <= start && scrollback == lines[dropped..start] && dropped <= Max(0, start - limit)
    {
      scrollback := scrollback[1..];
      dropped := dropped + 1;
    }
  }

  method ResizeGrid(grid: seq<Line>, rows: nat, cols: nat) returns (r: seq<Line>)
    ensures r == ResizedGrid(grid, rows, cols)
  {
    r := if rows <= |grid| then grid[..rows] else grid + BlankGrid(rows - |grid|, cols);
    ghost var kept := r;
    var i := 0;
    while i < rows
      invariant 0 <= i <= rows == |r|
      invariant forall k | 0 <= k < rows :: r[k] == if k < i then Resized(kept[k], cols) else kept[k]
    {
      r := r[i := Resized(r[i], cols)];
      i := i + 1;
    }
  }
}
