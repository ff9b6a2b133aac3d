/**
  The screen buffer as it is programmed: the rows of the active screen in a ring
  whose offset moves when the whole screen scrolls, every field updated in place.
  Each method is proved against its meaning on the row view, in module Screens.
*/
module ScreenBuffers {
  import opened Bytes
  import opened Cells
  import opened VtParsing
  import S = Screens
  import R = Reflowing
  import Resizing

  // ---------- the ring ----------

  /** The list that starts at index k and goes round. */
  function Rotated<T>(g: seq<T>, k: nat): (r: seq<T>)
    ensures |r| == |g|
  {
    if k <= |g| then g[k..] + g[..k] else g
  }

  /** The ring position of a row. */
  function RingIndex(top: nat, row: nat, n: nat): (i: nat)
    requires 0 < n && top + row < 2 * n
    ensures i == if top + row < n then top + row else top + row - n
  {
    var x := top + row;
    var q := x / n;
    assert x == q * n + x % n;
    assert q >= 2 ==> q * n >= 2 * n;
    x % n
  }

  lemma RotatedZero<T>(g: seq<T>)
    ensures Rotated(g, 0) == g
  {
  }

  lemma RotatedAt<T>(g: seq<T>, k: nat, r: nat)
    requires k < |g| && r < |g|
    ensures Rotated(g, k)[r] == g[RingIndex(k, r, |g|)]
  {
    hide RingIndex;
  }

  lemma RotatedUpdate<T>(g: seq<T>, k: nat, r: nat, x: T)
    requires k < |g| && r < |g|
    ensures Rotated(g[RingIndex(k, r, |g|) := x], k) == Rotated(g, k)[r := x]
  {
    hide RingIndex;
  }

  lemma RotatedOnward<T>(g: seq<T>, k: nat)
    requires k < |g|
    ensures Rotated(g, RingIndex(k, 1, |g|)) == Rotated(g, k)[1..] + [Rotated(g, k)[0]]
  {
    hide RingIndex;
  }

  lemma RotatedBackward<T>(g: seq<T>, k: nat)
    requires k < |g|
    ensures Rotated(g, RingIndex(k, |g| - 1, |g|)) == [Rotated(g, k)[|g| - 1]] + Rotated(g, k)[..|g| - 1]
  {
    hide RingIndex;
  }

  /** Rows top+1..r have moved up by one. */
  ghost predicate MovedUp<T>(h: seq<T>, g: seq<T>, top: nat, r: nat) {
    top <= r < |g| && h == g[..top] + g[top + 1..r + 1] + g[r..]
  }

  lemma MovedUpEnds<T>(h: seq<T>, g: seq<T>, top: nat, bottom: nat, x: T)
    requires top < |g|
    ensures MovedUp(g, g, top, top)
    ensures MovedUp(h, g, top, bottom) ==> |h| == |g| && h[bottom := x] == g[..top] + g[top + 1..bottom + 1] + [x] + g[bottom + 1..]
  {
    assert g[top + 1..top + 1] == [];
  }

  lemma ShiftUpStep<T>(h: seq<T>, g: seq<T>, top: nat, r: nat)
    requires MovedUp(h, g, top, r) && r + 1 < |g|
    ensures |h| == |g| && MovedUp(h[r := h[r + 1]], g, top, r + 1)
  {
    assert h[r + 1] == g[r + 1];
  }

  /** Rows r..bottom-1 have moved down by one. */
  ghost predicate MovedDown<T>(h: seq<T>, g: seq<T>, r: nat, bottom: nat) {
    r <= bottom < |g| && h == g[..r + 1] + g[r..bottom] + g[bottom + 1..]
  }

  lemma MovedDownEnds<T>(h: seq<T>, g: seq<T>, top: nat, bottom: nat, x: T)
    requires bottom < |g|
    ensures MovedDown(g, g, bottom, bottom)
    ensures MovedDown(h, g, top, bottom) ==> |h| == |g| && h[top := x] == g[..top] + [x] + g[top..bottom] + g[bottom + 1..]
  {
    assert g[bottom..bottom] == [];
  }

  lemma ShiftDownStep<T>(h: seq<T>, g: seq<T>, r: nat, bottom: nat)
    requires MovedDown(h, g, r, bottom) && 0 < r
    ensures |h| == |g| && MovedDown(h[r := h[r - 1]], g, r - 1, bottom)
  {
  }

  lemma Bounds(s: S.Screen)
    requires s.Framed()
    ensures 0 < s.rows == |s.grid| == |s.alt| && 0 < s.cols && 0 <= s.region.top && s.region.bottom < s.rows
    ensures s.WellFormed() ==> 0 <= s.here.row < s.rows
  {
  }

  class ScreenBuffer {
    var cols: int
    var rows: int
    var limit: nat
    var screen: seq<Line>     // the ring
    var screenTop: nat        // index of row 0 in the ring
    var altScreen: seq<Line>
    var usingAlt: bool
    var scrollback: seq<Line>
    var trimmed: int          // lines evicted from the front of the scrollback
    var viewport: int         // 0 at the bottom, negative when scrolled back
    var savedViewport: int
    var here: S.Position      // cursor, pen and character sets
    var saved: S.Position
    var region: S.Region
    var modes: S.Modes
    var lastPrinted: nat
    var keyboard: S.Keyboard
    var links: S.Links
    ghost var history: seq<Line>

    ghost function Rows(): seq<Line>
      reads this
    {
      Rotated(screen, screenTop)
    }

    ghost function View(): S.Screen
      reads this
    {
      S.Screen(cols, rows, limit, Rows(), altScreen, usingAlt, scrollback, trimmed, viewport, savedViewport,
               here, saved, region, modes, lastPrinted, keyboard, links, history)
    }

    /** The ring's first row is one of its rows. */
    predicate InRing()
      reads this
    {
      screenTop < |screen|
    }

    ghost predicate Sound()
      reads this
    {
      InRing() && View().Framed()
    }

    ghost predicate Valid()
      reads this
    {
      Sound() && View().WellFormed()
    }

    constructor (cols: int, rows: int, limit: nat)
      requires cols >= 1 && rows >= 1
      ensures View() == S.Fresh(cols, rows, limit)
      ensures Valid()
    {
      this.cols, this.rows, this.limit := cols, rows, limit;
      screen, screenTop, altScreen, usingAlt := BlankGrid(rows, cols), 0, BlankGrid(rows, cols), false;
      scrollback, trimmed, viewport, savedViewport := [], 0, 0, 0;
      here, saved, region, modes, lastPrinted := S.HOME, S.HOME, S.Region(0, rows - 1), S.MODES, 0;
      keyboard, links, history := S.Keyboard([], []), S.NO_LINKS, [];
      new;
      RotatedZero(BlankGrid(rows, cols));
    }

    method ResetRows()
      requires cols >= 1 && rows >= 1
      modifies this`screen, this`screenTop, this`altScreen, this`usingAlt
      ensures screenTop < |screen|
      ensures View() == old(View()).(grid := BlankGrid(rows, cols), alt := BlankGrid(rows, cols), usingAlt := false)
    {
      RotatedZero(BlankGrid(rows, cols));
      hide Rotated, BlankGrid;
      screen, screenTop, altScreen, usingAlt := BlankGrid(rows, cols), 0, BlankGrid(rows, cols), false;
    }

    method ResetScrollback()
      modifies this`scrollback, this`trimmed, this`viewport, this`savedViewport, this`history
      ensures View() == old(View()).(scrollback := [], trimmed := 0, viewport := 0, savedViewport := 0, history := [])
    {
      hide Rotated;
      scrollback, trimmed, viewport, savedViewport, history := [], 0, 0, 0, [];
    }

    /** Full reset: everything but geometry and limit starts over. */
    method Reset()
      requires Valid()
      modifies this
      ensures View() == S.Fresh(old(cols), old(rows), old(limit))
      ensures Valid()
    {
      Bounds(View());
      hide Rotated, S.Screen.WellFormed, S.Screen.Framed, BlankGrid;
      ResetRows();
      ResetScrollback();
      here, saved, region, modes := S.HOME, S.HOME, S.Region(0, rows - 1), S.MODES;
      lastPrinted, keyboard, links := 0, S.Keyboard([], []), S.NO_LINKS;
    }

    function RowAt(row: int): (l: Line)
      requires screenTop < |screen| && 0 <= row < |screen|
      reads this
      ensures l == Rows()[row]
    {
      RotatedAt(screen, screenTop, row);
      screen[RingIndex(screenTop, row, |screen|)]
    }

    method SetRow(row: int, l: Line)
      requires screenTop < |screen| && 0 <= row < |screen|
      modifies this`screen
      ensures |screen| == old(|screen|) && Rows() == old(Rows())[row := l]
    {
      RotatedUpdate(screen, screenTop, row, l);
      screen := screen[RingIndex(screenTop, row, |screen|) := l];
    }

    method Linearize()
      requires screenTop < |screen|
      modifies this`screen, this`screenTop
      ensures screenTop == 0 && |screen| == old(|screen|) && View() == old(View())
    {
      screen := screen[screenTop..] + screen[..screenTop];
      screenTop := 0;
    }

    // ---------- scrollback and viewport ----------

    method PushScrollback(line: Line)
      modifies this`scrollback, this`trimmed, this`viewport, this`history
      ensures View() == S.PushScrollback(old(View()), line)
    {
      hide Rotated;
      if !usingAlt {
        history := history + [line];
        scrollback := scrollback + [line];
        ghost var held := scrollback;
        ghost var n := 0;
        while |scrollback| > limit
          invariant history == old(history) + [line]
          invariant 0 <= n <= |held| && scrollback == held[n..] && trimmed == old(trimmed) + n
          invariant n <= Max(0, |held| - limit)
          invariant viewport == if n > 0 then Max(old(viewport), -|scrollback|) else old(viewport)
        {
          scrollback := scrollback[1..];
          trimmed := trimmed + 1;
          if viewport < -|scrollback| { viewport := -|scrollback|; }
          n := n + 1;
        }
        assert n == Max(0, |held| - limit);
      }
    }

    method PrependScrollback(lines: seq<Line>)
      modifies this`scrollback, this`trimmed
      ensures View() == S.PrependScrollback(old(View()), lines)
    {
      hide Rotated;
      assert [] + scrollback == scrollback;
      if lines == [] { return; }
      trimmed := trimmed - |lines|;
      scrollback := lines + scrollback;
    }

    method ScrollViewport(delta: int)
      modifies this`viewport
      ensures viewport == Clamp(old(viewport) + delta, -|scrollback|, 0)
      ensures -|scrollback| <= viewport <= 0
    {
      viewport := Clamp(viewport + delta, -|scrollback|, 0);
    }

    /** The line shown at a row of the viewport; an empty line where nothing is held. */
    method LineAt(row: int) returns (l: Line)
      requires Valid()
      ensures l == S.Shown(View(), row)
    {
      hide Rotated;
      var r := row;
      if viewport != 0 {
        var at := |scrollback| + viewport + row;
        if at < 0 { return BlankLine(0); }
        if at < |scrollback| { return scrollback[at]; }
        r := at - |scrollback|;
      }
      if 0 <= r < |screen| { return RowAt(r); }
      return BlankLine(0);
    }

    // ---------- scrolling ----------

    /** The whole screen up by one: only the ring's offset moves. */
    method RotateUp()
      requires screenTop < |screen|
      modifies this`screen, this`screenTop
      ensures screenTop < |screen| && Rows() == old(Rows())[1..] + [BlankLine(Max(cols, 0))]
    {
      hide Rotated, RingIndex;
      SetRow(0, BlankLine(Max(cols, 0)));
      RotatedOnward(screen, screenTop);
      screenTop := RingIndex(screenTop, 1, |screen|);
    }

    /** Rows top+1..bottom up by one, row by row. */
    method ShiftRegionUp(top: int, bottom: int)
      requires screenTop < |screen| && 0 <= top <= bottom < |screen|
      modifies this`screen
      ensures screenTop < |screen|
      ensures var g := old(Rows());
              Rows() == g[..top] + g[top + 1..bottom + 1] + [BlankLine(Max(cols, 0))] + g[bottom + 1..]
    {
      hide Rotated, RingIndex, MovedUp;
      ghost var g := Rows();
      MovedUpEnds(g, g, top, top, BlankLine(0));
      var r := top;
      while r < bottom
        invariant top <= r <= bottom && |screen| == |g|
        invariant MovedUp(Rows(), g, top, r)
      {
        ShiftUpStep(Rows(), g, top, r);
        SetRow(r, RowAt(r + 1));
        r := r + 1;
      }
      MovedUpEnds(Rows(), g, top, bottom, BlankLine(Max(cols, 0)));
      SetRow(bottom, BlankLine(Max(cols, 0)));
    }

    /** Rows top+1..bottom move up by one; the bottom row is blank. */
    method ShiftUp(top: int, bottom: int)
      requires Valid() && 0 <= top <= bottom < rows
      modifies this`screen, this`screenTop
      ensures screenTop < |screen|
      ensures var g := old(Rows());
              Rows() == g[..top] + g[top + 1..bottom + 1] + [BlankLine(cols)] + g[bottom + 1..]
    {
      Bounds(View());
      hide Rotated, S.Screen.WellFormed, S.Screen.Framed;
      ghost var g := Rows();
      if top == 0 && bottom == rows - 1 {
        RotateUp();
        assert g[1..bottom + 1] == g[1..];
      } else {
        ShiftRegionUp(top, bottom);
      }
    }

    /** The whole screen down by one. */
    method RotateDown()
      requires screenTop < |screen|
      modifies this`screen, this`screenTop
      ensures screenTop < |screen| && Rows() == [BlankLine(Max(cols, 0))] + old(Rows())[..|old(Rows())| - 1]
    {
      hide Rotated, RingIndex;
      RotatedBackward(screen, screenTop);
      screenTop := RingIndex(screenTop, |screen| - 1, |screen|);
      SetRow(0, BlankLine(Max(cols, 0)));
    }

    /** Rows top..bottom-1 down by one, row by row from the bottom. */
    method ShiftRegionDown(top: int, bottom: int)
      requires screenTop < |screen| && 0 <= top <= bottom < |screen|
      modifies this`screen
      ensures screenTop < |screen|
      ensures var g := old(Rows());
              Rows() == g[..top] + [BlankLine(Max(cols, 0))] + g[top..bottom] + g[bottom + 1..]
    {
      hide Rotated, RingIndex, MovedDown;
      ghost var g := Rows();
      MovedDownEnds(g, g, top, bottom, BlankLine(0));
      var r := bottom;
      while r > top
        invariant top <= r <= bottom && |screen| == |g|
        invariant MovedDown(Rows(), g, r, bottom)
      {
        ShiftDownStep(Rows(), g, r, bottom);
        SetRow(r, RowAt(r - 1));
        r := r - 1;
      }
      MovedDownEnds(Rows(), g, top, bottom, BlankLine(Max(cols, 0)));
      SetRow(top, BlankLine(Max(cols, 0)));
    }

    /** Rows top..bottom-1 move down by one; the top row is blank. */
    method ShiftDown(top: int, bottom: int)
      requires Valid() && 0 <= top <= bottom < rows
      modifies this`screen, this`screenTop
      ensures screenTop < |screen|
      ensures var g := old(Rows());
              Rows() == g[..top] + [BlankLine(cols)] + g[top..bottom] + g[bottom + 1..]
    {
      Bounds(View());
      hide Rotated, S.Screen.WellFormed, S.Screen.Framed;
      ghost var g := Rows();
      if top == 0 && bottom == rows - 1 {
        RotateDown();
        assert g[0..bottom] == g[..|g| - 1];
      } else {
        ShiftRegionDown(top, bottom);
      }
    }

    method ScrollUpOnce(top: int, bottom: int)
      requires Valid() && 0 <= top <= bottom < rows
      modifies this
      ensures View() == S.ScrollUpOnce(old(View()), top, bottom)
      ensures Valid()
    {
      hide Rotated;
      if top == 0 && !usingAlt {
        PushScrollback(RowAt(0));
        if viewport < 0 { viewport := viewport - 1; }
      }
      assert View() == if top == 0 then S.RecordTopLine(old(View())) else old(View());
      ShiftUp(top, bottom);
    }

    method ScrollUp(top: int, bottom: int, count: int)
      requires Valid() && 0 <= top && bottom < rows
      modifies this
      ensures View() == S.ScrollUp(old(View()), top, bottom, count)
      ensures Valid()
    {
      hide S.ScrollUpOnce, Rotated;
      var n := Min(count, bottom - top + 1);
      var i := 0;
      while i < n
        invariant 0 <= i <= Max(n, 0) && Valid() && rows == old(rows)
        invariant View() == S.ScrollUp(old(View()), top, bottom, i)
      {
        ScrollUpOnce(top, bottom);
        i := i + 1;
      }
    }

    method ScrollDownOnce(top: int, bottom: int)
      requires Valid() && 0 <= top <= bottom < rows
      modifies this
      ensures View() == S.ScrollDownOnce(old(View()), top, bottom)
      ensures Valid()
    {
      hide Rotated;
      ShiftDown(top, bottom);
    }

    method ScrollDown(top: int, bottom: int, count: int)
      requires Valid() && 0 <= top && bottom < rows
      modifies this
      ensures View() == S.ScrollDown(old(View()), top, bottom, count)
      ensures Valid()
    {
      hide S.ScrollDownOnce, Rotated;
      var n := Min(count, bottom - top + 1);
      var i := 0;
      while i < n
        invariant 0 <= i <= Max(n, 0) && Valid() && rows == old(rows)
        invariant View() == S.ScrollDown(old(View()), top, bottom, i)
      {
        ScrollDownOnce(top, bottom);
        i := i + 1;
      }
    }

    method NewLine()
      requires Valid()
      modifies this
      ensures View() == S.NewLine(old(View()))
      ensures Valid()
    {
      hide Rotated;
      if here.row == region.bottom {
        ScrollUp(region.top, region.bottom, 1);
      } else if here.row < rows - 1 {
        here := here.(row := here.row + 1);
      }
    }

    // ---------- writing and erasing ----------

    method SetCursor(row: int, col: int)
      requires Sound()
      modifies this`here
      ensures View() == S.SetCursor(old(View()), row, col)
      ensures Valid()
    {
      hide Rotated;
      here := here.(row := Clamp(row, 0, rows - 1), col := Clamp(col, 0, cols - 1));
    }

    method PutChar(cp: nat)
      requires Valid()
      modifies this
      ensures View() == S.PutChar(old(View()), cp)
      ensures Valid()
    {
      hide S.NewLine, Rotated;
      if here.col >= cols {
        SetRow(here.row, S.MarkWrapped(RowAt(here.row)));
        NewLine();
        here := here.(col := 0);
      }
      assert View() == S.WrapAtMargin(old(View()));
      var line := RowAt(here.row);
      var cell := Cell(cp, here.pen.fg, here.pen.bg,
        if links.current != 0 then SetBit(here.pen.attrs, ATTR_HYPERLINK) else here.pen.attrs, links.current);
      SetRow(here.row, line.(cells := line.cells[here.col := cell]));
      here := here.(col := here.col + 1);
    }

    method EraseCells(row: int, first: int, last: int)
      requires Valid()
      modifies this`screen
      ensures View() == S.EraseCells(old(View()), row, first, last)
      ensures Valid()
    {
      hide Rotated;
      if row < 0 || row >= rows { return; }
      var start, end := Max(first, 0), Min(last, cols - 1);
      var line := RowAt(row);
      ghost var l0 := line;
      var c := start;
      while c <= end
        invariant start <= c && (c <= end + 1 || c == start)
        invariant line == S.EraseIn(l0, first, c - 1, here.pen.bg)
      {
        line := line.(cells := line.cells[c := Erased(here.pen.bg)]);
        assert line.cells == S.EraseIn(l0, first, c, here.pen.bg).cells;
        c := c + 1;
      }
      assert line.cells == S.EraseIn(l0, first, last, here.pen.bg).cells;
      SetRow(row, line);
    }

    method EraseRows(first: int, end: int)
      requires Valid() && 0 <= first <= end <= rows
      modifies this`screen
      ensures View() == S.EraseRows(old(View()), first, end)
      ensures Valid()
    {
      hide Rotated;
      var r := first;
      assert Rows() == S.EraseRows(View(), first, first).grid;
      while r < end
        invariant first <= r <= end && Valid()
        invariant View() == S.EraseRows(old(View()), first, r)
      {
        EraseCells(r, 0, cols - 1);
        assert Rows() == S.EraseRows(old(View()), first, r + 1).grid;
        r := r + 1;
      }
      assert Rows() == S.EraseRows(old(View()), first, end).grid;
    }

    method EraseDisplay(mode: int)
      requires Valid()
      modifies this
      ensures View() == S.EraseDisplay(old(View()), mode)
      ensures Valid()
    {
      hide Rotated;
      match mode {
        case 0 =>
          EraseCells(here.row, here.col, cols - 1);
          EraseRows(here.row + 1, rows);
        case 1 =>
          EraseCells(here.row, 0, here.col);
          EraseRows(0, here.row);
        case 2 =>
          EraseRows(0, rows);
        case 3 =>
          scrollback := [];
          viewport := 0;
          EraseRows(0, rows);
        case _ =>
      }
    }

    /** The run [first, end) is blanked. */
    static method EraseRun(cells: seq<Cell>, first: nat, end: nat, bg: nat) returns (r: seq<Cell>)
      requires first <= end <= |cells|
      ensures |r| == |cells| && forall k | 0 <= k < |r| :: r[k] == if first <= k < end then Erased(bg) else cells[k]
    {
      r := cells;
      var i := first;
      while i < end
        invariant first <= i <= end && |r| == |cells|
        invariant forall k | 0 <= k < |r| :: r[k] == if first <= k < i then Erased(bg) else cells[k]
      {
        r := r[i := Erased(bg)];
        i := i + 1;
      }
    }

    /** From the right end down, every cell at or after `start` takes what is `count` before it. */
    static method ShiftRight(cells: seq<Cell>, start: nat, count: nat) returns (r: seq<Cell>)
      requires count <= start
      ensures |r| == |cells|
      ensures forall k | 0 <= k < Min(start, |r|) :: r[k] == cells[k]
      ensures forall k | start <= k < |r| :: r[k] == cells[k - count]
    {
      r := cells;
      var i := |cells| - 1;
      while i >= start
        invariant Min(start, |cells|) - 1 <= i < |cells| == |r|
        invariant forall k | 0 <= k <= i :: r[k] == cells[k]
        invariant forall k | Max(i + 1, start) <= k < |r| :: r[k] == cells[k - count]
      {
        assert r[i - count] == cells[i - count];
        r := r[i := r[i - count]];
        i := i - 1;
      }
    }

    /** From start on, every cell that has one takes what is `count` after it. */
    static method ShiftLeft(cells: seq<Cell>, start: nat, count: nat) returns (r: seq<Cell>)
      requires count >= 1
      ensures |r| == |cells|
      ensures forall k | start <= k < |r| - count :: r[k] == cells[k + count]
      ensures forall k | 0 <= k < Min(start, |r|) :: r[k] == cells[k]
    {
      r := cells;
      var i := start;
      while i < |cells| - count
        invariant start <= i <= Max(start, |cells| - count) && |r| == |cells|
        invariant forall k | start <= k < i :: r[k] == cells[k + count]
        invariant forall k | 0 <= k < |r| && !(start <= k < i) :: r[k] == cells[k]
      {
        assert r[i + count] == cells[i + count];
        r := r[i := r[i + count]];
        i := i + 1;
      }
    }

    static method InsertInto(line: Line, col: nat, count: int, bg: nat) returns (r: Line)
      requires col <= |line.cells| && count >= 1
      ensures r == S.InsertIn(line, col, count, bg)
    {
      var cells := ShiftRight(line.cells, col + count, count);
      cells := EraseRun(cells, col, Min(col + count, |cells|), bg);
      r := line.(cells := cells);
      assert cells == S.InsertIn(line, col, count, bg).cells;
    }

    static lemma Deleted(line: Line, col: nat, count: nat, bg: nat, cells: seq<Cell>, first: nat)
      requires 1 <= count && col <= first <= |line.cells| == |cells| && first == Max(|cells| - count, col)
      requires forall k | first <= k < |cells| :: cells[k] == Erased(bg)
      requires forall k | col <= k < first :: cells[k] == line.cells[k + count]
      requires forall k | 0 <= k < col :: cells[k] == line.cells[k]
      ensures line.(cells := cells) == S.DeleteIn(line, col, count, bg)
    {
    }

    static method DeleteFrom(line: Line, col: nat, count: int, bg: nat) returns (r: Line)
      requires col <= |line.cells| && count >= 1
      ensures r == S.DeleteIn(line, col, count, bg)
    {
      var cells := ShiftLeft(line.cells, col, count);
      var first := Max(|cells| - count, col);
      cells := EraseRun(cells, first, |cells|, bg);
      Deleted(line, col, count, bg, cells, first);
      r := line.(cells := cells);
    }

    method InsertChars(count: int)
      requires Valid() && count >= 1
      modifies this`screen
      ensures View() == S.InsertChars(old(View()), count)
      ensures Valid()
    {
      hide Rotated;
      var line := InsertInto(RowAt(here.row), here.col, count, here.pen.bg);
      SetRow(here.row, line);
    }

    method DeleteChars(count: int)
      requires Valid() && count >= 1
      modifies this`screen
      ensures View() == S.DeleteChars(old(View()), count)
      ensures Valid()
    {
      hide Rotated;
      var line := DeleteFrom(RowAt(here.row), here.col, count, here.pen.bg);
      SetRow(here.row, line);
    }

    method InsertLines(count: int)
      requires Valid()
      modifies this
      ensures View() == S.InsertLines(old(View()), count)
      ensures Valid()
    {
      hide Rotated;
      if region.top <= here.row <= region.bottom { ScrollDown(here.row, region.bottom, count); }
    }

    method DeleteLines(count: int)
      requires Valid()
      modifies this
      ensures View() == S.DeleteLines(old(View()), count)
      ensures Valid()
    {
      hide Rotated;
      if region.top <= here.row <= region.bottom { ScrollUp(here.row, region.bottom, count); }
    }

    // ---------- pen and modes ----------

    method HandleSgr(params: seq<Param>)
      modifies this`here
      ensures here == old(here).(pen := S.Sgr(old(here).pen, params))
    {
      if params == [] {
        here := here.(pen := S.PLAIN);
        return;
      }
      var i := 0;
      while i < |params|
        invariant 0 <= i && here == old(here).(pen := here.pen)
        invariant S.SgrFrom(here.pen, params, i) == S.SgrFrom(old(here).pen, params, 0)
      {
        var next := S.SgrStep(here.pen, params, i);
        here, i := here.(pen := next.0), next.1;
      }
    }

    method RestorePosition()
      requires Sound()
      modifies this
      ensures View() == S.RestorePosition(old(View()))
      ensures Sound()
    {
      hide Rotated;
      here := saved;
    }

    method SwapScreens()
      requires screenTop == 0
      modifies this`screen, this`altScreen, this`usingAlt
      ensures |screen| == old(|altScreen|)
      ensures View() == old(View()).(grid := old(altScreen), alt := old(Rows()), usingAlt := !old(usingAlt))
    {
      RotatedZero(altScreen);
      screen, altScreen := altScreen, screen;
      usingAlt := !usingAlt;
    }

    method SwitchToAlternate()
      requires Sound()
      modifies this
      ensures View() == S.SwitchToAlternate(old(View())) && screenTop == 0
      ensures Sound()
    {
      Bounds(View());
      hide Rotated, S.Screen.WellFormed, S.Screen.Framed;
      Linearize();
      SaveForAlternate();
      if !usingAlt {
        SwapScreens();
        savedViewport, viewport := viewport, 0;
      }
    }

    method SaveForAlternate()
      requires Sound()
      modifies this`saved, this`keyboard
      ensures View() == old(View()).(saved := old(here), keyboard := old(keyboard).(saved := old(keyboard).stack))
      ensures Sound()
    {
      saved, keyboard := here, keyboard.(saved := keyboard.stack);
    }

    method ClearRows()
      requires Sound() && screenTop == 0
      modifies this`screen
      ensures View() == S.ClearRows(old(View()))
      ensures Sound()
    {
      hide Rotated;
      hide S.Screen.WellFormed, S.Screen.Framed;
      Bounds(View());
      var n := |screen|;
      var i := 0;
      while i < n
        invariant 0 <= i <= n == |screen| && forall k | 0 <= k < i :: screen[k] == BlankLine(cols)
      {
        screen := screen[i := BlankLine(cols)];
        i := i + 1;
      }
      RotatedZero(screen);
      assert screen == BlankGrid(n, cols);
    }

    method EnterAlternate()
      requires Sound()
      modifies this
      ensures View() == S.EnterAlternate(old(View()))
      ensures Valid()
    {
      hide Rotated, S.Screen.WellFormed, S.Screen.Framed, S.SwitchToAlternate, S.ClearRows, S.SetCursor;
      SwitchToAlternate();
      ClearRows();
      SetCursor(0, 0);
    }

    method BackToMain()
      requires Sound()
      modifies this
      ensures View() == S.BackToMain(old(View()))
      ensures Sound()
    {
      Bounds(View());
      hide Rotated, S.Screen.WellFormed, S.Screen.Framed;
      if usingAlt {
        Linearize();
        SwapScreens();
        viewport, savedViewport := savedViewport, 0;
        assert View() == S.BackToMain(old(View()));
      }
    }

    method LeaveAlternate()
      requires Sound()
      modifies this
      ensures View() == S.LeaveAlternate(old(View()))
      ensures Sound()
    {
      hide Rotated, S.Screen.WellFormed, S.Screen.Framed, S.BackToMain;
      BackToMain();
      RestorePosition();
      keyboard := S.Keyboard(keyboard.saved, []);
    }

    method SetMode(mode: int, on: bool, decPrivate: bool)
      requires Sound()
      modifies this
      ensures View() == S.SetMode(old(View()), mode, on, decPrivate)
      ensures Sound()
    {
      hide Rotated, S.Screen.WellFormed, S.Screen.Framed, S.EnterAlternate, S.LeaveAlternate;
      if !decPrivate { return; }
      match mode {
        case 1 => modes := modes.(appCursor := on);
        case 12 => modes := modes.(cursorBlink := on);
        case 25 => modes := modes.(cursorVisible := on);
        case 1000 => modes := modes.(mouse := if on then 1000 else 0);
        case 1002 => modes := modes.(mouse := if on then 1002 else 0);
        case 1003 => modes := modes.(mouse := if on then 1003 else 0);
        case 1004 => modes := modes.(focusEvents := on);
        case 1006 => modes := modes.(sgrMouse := on);
        case 1049 => if on { EnterAlternate(); } else { LeaveAlternate(); }
        case 2004 => modes := modes.(bracketedPaste := on);
        case 2026 => modes := modes.(synchronized := on);
        case 2027 => modes := modes.(graphemes := on);
        case _ =>
      }
    }

    method SetModes(params: seq<Param>, on: bool, decPrivate: bool)
      requires Sound()
      modifies this
      ensures View() == S.SetModes(old(View()), params, |params|, on, decPrivate)
      ensures Sound()
    {
      hide Rotated;
      var i := 0;
      while i < |params|
        invariant 0 <= i <= |params| && Sound()
        invariant View() == S.SetModes(old(View()), params, i, on, decPrivate)
      {
        SetMode(S.ParamValue(params, i, 0), on, decPrivate);
        i := i + 1;
      }
    }

    // ---------- re-wrapping ----------

    /** The re-wrapped lines and the cursor's line among them. */
    method RewrapLines(newCols: int) returns (lines: seq<Line>, at: nat, col: nat)
      requires Valid() && screenTop == 0 && newCols >= 1
      ensures lines == R.Rewrapped(View(), newCols) && at == R.CursorLine(View(), newCols)
      ensures col == R.CursorPlace(View()).offset % newCols
    {
      Bounds(View());
      R.CursorOnLogicalLine(View());
      RotatedZero(screen);
      hide Rotated, S.Screen.WellFormed, S.Screen.Framed;
      var abs := |scrollback| + here.row;
      var kept := R.TrimBelowCursor(scrollback + screen, abs + 1);
      var logical, cursor := R.GroupLogical(kept, abs, Min(here.col, cols - 1));
      lines, at := R.Rewrap(logical, newCols, cursor);
      col := cursor.offset % newCols;
    }

    method InstallLines(back: seq<Line>, grid: seq<Line>, alt: seq<Line>, dropped: nat)
      requires screenTop == 0
      modifies this`scrollback, this`screen, this`altScreen, this`trimmed
      ensures |screen| == |grid|
      ensures View() == old(View()).(scrollback := back, grid := grid, alt := alt, trimmed := old(trimmed) + dropped)
    {
      RotatedZero(grid);
      hide Rotated;
      scrollback, screen, altScreen, trimmed := back, grid, alt, trimmed + dropped;
    }

    method InstallGeometry(newCols: int, newRows: int, row: int, col: int)
      modifies this`here, this`cols, this`rows, this`region
      ensures View() == old(View()).(cols := newCols, rows := newRows, region := S.Region(0, newRows - 1), here := here)
      ensures here == old(here).(row := Clamp(row, 0, newRows - 1), col := Clamp(col, 0, newCols - 1))
    {
      hide Rotated;
      here := here.(row := Clamp(row, 0, newRows - 1), col := Clamp(col, 0, newCols - 1));
      cols, rows, region := newCols, newRows, S.Region(0, newRows - 1);
    }

    method Reflow(newCols: int, newRows: int)
      requires Valid() && newCols >= 1 && newRows >= 1
      modifies this
      ensures View() == R.Reflow(old(View()), newCols, newRows)
      ensures screenTop == 0 && |screen| == newRows
    {
      ghost var was := View();
      hide Rotated, S.Screen.WellFormed, S.Screen.Framed, R.Reflow, R.Rewrapped, R.CursorLine, R.CursorPlace, R.ResizedGrid, BlankGrid;
      Linearize();
      var lines, at, col := RewrapLines(newCols);
      var back, grid, start, dropped := R.SplitLines(lines, newCols, newRows, limit);
      var alt := R.ResizeGrid(altScreen, newRows, newCols);
      R.ReflowFromParts(was, newCols, newRows, back, grid, start, dropped);
      InstallLines(back, grid, alt, dropped);
      InstallGeometry(newCols, newRows, at as int - start, col);
      viewport := 0;
    }

    // ---------- resizing ----------

    method MoveRowOut()
      requires screenTop == 0 && screen != []
      modifies this`screen, this`scrollback, this`trimmed, this`viewport, this`history
      ensures screen == old(screen)[1..]
      ensures View() == S.PushScrollback(old(View()), old(screen)[0]).(grid := screen)
    {
      RotatedZero(screen[1..]);
      hide Rotated, S.PushScrollback;
      PushScrollback(screen[0]);
      screen := screen[1..];
    }

    /** Rows that a lower screen has no room for above the cursor go out through the top. */
    method MoveRowsOut(n: nat)
      requires screenTop == 0 && n < |screen|
      modifies this`screen, this`scrollback, this`trimmed, this`viewport, this`history
      ensures screen == old(screen)[n..] && View() == Resizing.PushRows(old(View()), n).(grid := screen)
    {
      RotatedZero(screen);
      ghost var was := View();
      assert Resizing.PushRows(was, 0) == was;
      hide Rotated, S.PushScrollback, Resizing.PushRows;
      var i := 0;
      while i < n
        invariant 0 <= i <= n && screenTop == 0 && screen == old(screen)[i..]
        invariant View() == Resizing.PushRows(was, i).(grid := screen)
      {
        ghost var grid := screen;
        PushedNext(was, grid, i + 1);
        MoveRowOut();
        i := i + 1;
      }
    }

    static lemma PushedNext(s: S.Screen, grid: seq<Line>, i: nat)
      requires 0 < i <= |s.grid| && grid != []
      ensures S.PushScrollback(Resizing.PushRows(s, i - 1).(grid := grid), s.grid[i - 1]).(grid := grid[1..])
           == Resizing.PushRows(s, i).(grid := grid[1..])
    {
    }

    /** The rows that are left are filled up from the scrollback, cut or padded. */
    method Refill(newCols: int, newRows: int)
      requires screenTop == 0 && newCols >= 1 && newRows >= 1
      modifies this`screen, this`scrollback, this`trimmed, this`altScreen, this`here, this`cols, this`rows, this`region
      ensures screenTop == 0 && |screen| == newRows
      ensures View() == Resizing.Refilled(old(View()).(grid := old(screen)), newCols, newRows)
    {
      hide Rotated, R.ResizedGrid, Resizing.Filled;
      var back, grid, m := Resizing.FillRows(scrollback, screen, newCols, newRows);
      var alt := R.ResizeGrid(altScreen, newRows, newCols);
      InstallLines(back, grid, alt, 0);
      InstallGeometry(newCols, newRows, here.row + m, here.col);
    }

    /** Rows that a lower screen has no room for above the cursor go out through the top. */
    method RowsOut(newRows: int)
      requires Valid() && screenTop == 0 && newRows >= 1
      modifies this`screen, this`scrollback, this`trimmed, this`viewport, this`history, this`here
      ensures View() == Resizing.RowsOut(old(View()), newRows).(grid := screen) && Rows() == screen
      ensures screen == Resizing.RowsOut(old(View()), newRows).grid
    {
      Bounds(View());
      RotatedZero(screen);
      ghost var was := View();
      var n := if newRows < rows && here.row >= newRows then here.row - newRows + 1 else 0;
      assert n == Resizing.Pushed(was, newRows) < |screen|;
      hide Rotated, S.Screen.WellFormed, S.Screen.Framed, Resizing.PushRows, Resizing.Pushed;
      MoveRowsOut(n);
      RotatedZero(screen);
      here := here.(row := here.row - n);
    }

    method MoveRows(newCols: int, newRows: int)
      requires Valid() && screenTop == 0 && newCols >= 1 && newRows >= 1
      modifies this
      ensures View() == Resizing.MoveRows(old(View()), newCols, newRows)
      ensures screenTop == 0 && |screen| == newRows
    {
      hide Rotated, S.Screen.WellFormed, S.Screen.Framed, Resizing.Refilled, Resizing.RowsOut;
      RowsOut(newRows);
      Refill(newCols, newRows);
    }

    /** Re-wraps on a new width on the main screen, and else moves, cuts and pads rows. */
    method Resize(newCols: int, newRows: int)
      requires Valid() && newCols >= 1 && newRows >= 1
      modifies this
      ensures View() == Resizing.Resize(old(View()), newCols, newRows)
      ensures Valid()
    {
      Resizing.ResizedWellFormed(View(), newCols, newRows);
      if newCols == cols && newRows == rows { return; }
      hide Rotated, S.Screen.WellFormed, S.Screen.Framed, R.Reflow, Resizing.MoveRows;
      Linearize();
      if newCols != cols && !usingAlt { Reflow(newCols, newRows); } else { MoveRows(newCols, newRows); }
    }

    // ---------- the handler calls ----------

    method Print(cp: nat)
      requires Valid()
      modifies this
      ensures View() == S.PrintChar(old(View()), cp)
      ensures Valid()
    {
      hide Rotated;
      var t := S.Translate(here.charset, cp);
      lastPrinted := t;
      PutChar(t);
    }

    method Execute(code: byte)
      requires Valid()
      modifies this
      ensures View() == S.ExecuteCode(old(View()), code)
      ensures Valid()
    {
      hide Rotated;
      match code {
        case 0x08 => if here.col > 0 { here := here.(col := here.col - 1); }
        case 0x09 => here := here.(col := Min((here.col / 8 + 1) * 8, cols - 1));
        case 0x0A => NewLine();
        case 0x0B => NewLine();
        case 0x0C => NewLine();
        case 0x0D => here := here.(col := 0);
        case 0x0E => here := here.(charset := here.charset.(gl := 1));
        case 0x0F => here := here.(charset := here.charset.(gl := 0));
        case _ =>
      }
    }

    method Repeat(count: nat)
      requires Valid()
      modifies this
      ensures View() == S.PutChars(old(View()), old(lastPrinted), count)
      ensures Valid()
    {
      hide Rotated;
      var cp := lastPrinted;
      var i := 0;
      while i < count
        invariant 0 <= i <= count && Valid()
        invariant View() == S.PutChars(old(View()), cp, i)
      {
        PutChar(cp);
        i := i + 1;
      }
    }

    method PopKeyboard(count: nat)
      modifies this`keyboard
      ensures var stack := old(keyboard).stack;
              keyboard == old(keyboard).(stack := stack[..|stack| - Min(count, |stack|)])
    {
      ghost var stack := keyboard.stack;
      var i := 0;
      while i < count && keyboard.stack != []
        invariant 0 <= i <= count
        invariant keyboard == old(keyboard).(stack := stack[..|stack| - Min(i, |stack|)])
      {
        keyboard := keyboard.(stack := keyboard.stack[..|keyboard.stack| - 1]);
        i := i + 1;
      }
    }

    method SetRegion(ps: seq<Param>)
      requires Valid()
      modifies this
      ensures View() == S.SetRegion(old(View()), ps)
      ensures Valid()
    {
      hide Rotated;
      region := S.Region(Max(0, S.ParamValue(ps, 0, 1) - 1), Min(rows - 1, S.ParamValue(ps, 1, rows) - 1));
      SetCursor(0, 0);
    }

    method MoveCursor(final: char, ps: seq<Param>)
      requires Valid()
      modifies this`here
      ensures View() == S.Move(old(View()), final, ps)
      ensures Valid()
    {
      hide Rotated, S.Screen.WellFormed, S.Screen.Framed, S.SetCursor;
      var p := S.ParamValue(ps, 0, 1);
      var n := Max(1, p);
      match final {
        case 'A' => SetCursor(here.row - n, here.col);
        case 'B' => SetCursor(here.row + n, here.col);
        case 'C' => SetCursor(here.row, here.col + n);
        case 'D' => SetCursor(here.row, here.col - n);
        case 'E' => SetCursor(here.row + n, 0);
        case 'F' => SetCursor(here.row - n, 0);
        case 'G' => SetCursor(here.row, p - 1);
        case 'd' => SetCursor(p - 1, here.col);
        case _ => SetCursor(p - 1, S.ParamValue(ps, 1, 1) - 1);
      }
    }

    method EraseInLine(mode: int)
      requires Valid()
      modifies this`screen
      ensures View() == S.EraseInLine(old(View()), mode)
      ensures Valid()
    {
      hide Rotated, S.Screen.WellFormed, S.Screen.Framed, S.EraseCells;
      match mode {
        case 0 => EraseCells(here.row, here.col, cols - 1);
        case 1 => EraseCells(here.row, 0, here.col);
        case 2 => EraseCells(here.row, 0, cols - 1);
        case _ =>
      }
    }

    method KittyKeyboard(ps: seq<Param>, intermediate: byte)
      requires Valid()
      modifies this`keyboard
      ensures View() == S.KittyKeyboard(old(View()), ps, intermediate)
      ensures Valid()
    {
      hide Rotated;
      if intermediate == '>' as int {
        keyboard := keyboard.(stack := keyboard.stack + [S.ParamValue(ps, 0, 0)]);
      } else if intermediate == '<' as int {
        PopKeyboard(Max(1, S.ParamValue(ps, 0, 1)));
      }
    }

    method CsiDispatch(ps: seq<Param>, intermediate: byte, final: byte)
      requires Valid()
      modifies this
      ensures View() == S.CsiDispatch(old(View()), ps, intermediate, final)
      ensures Sound()
    {
      hide Rotated, S.Screen.WellFormed, S.Screen.Framed, S.ScrollUp, S.ScrollDown, S.EraseCells, S.EraseDisplay, S.InsertLines;
      hide S.DeleteLines, S.InsertChars, S.DeleteChars, S.PutChars, S.SetModes, S.Sgr, S.Move, S.EraseInLine;
      hide S.KittyKeyboard, S.SetRegion;
      Bounds(View());
      var n := Max(1, S.ParamValue(ps, 0, 1));
      match final as char {
        case 'A' => MoveCursor('A', ps);
        case 'B' => MoveCursor('B', ps);
        case 'C' => MoveCursor('C', ps);
        case 'D' => MoveCursor('D', ps);
        case 'E' => MoveCursor('E', ps);
        case 'F' => MoveCursor('F', ps);
        case 'G' => MoveCursor('G', ps);
        case 'd' => MoveCursor('d', ps);
        case 'H' => MoveCursor('H', ps);
        case 'f' => MoveCursor('f', ps);
        case 'J' => EraseDisplay(S.ParamValue(ps, 0, 0));
        case 'K' => EraseInLine(S.ParamValue(ps, 0, 0));
        case 'L' => InsertLines(n);
        case 'M' => DeleteLines(n);
        case 'P' => DeleteChars(n);
        case 'S' => ScrollUp(region.top, region.bottom, n);
        case 'T' => ScrollDown(region.top, region.bottom, n);
        case 'X' => EraseCells(here.row, here.col, Min(here.col + n - 1, cols - 1));
        case '@' => InsertChars(n);
        case 'b' => if lastPrinted != 0 { Repeat(n); }
        case 'h' => SetModes(ps, true, intermediate == '?' as int);
        case 'l' => SetModes(ps, false, intermediate == '?' as int);
        case 'm' => if intermediate == 0 { HandleSgr(ps); }
        case 'r' => SetRegion(ps);
        case 'u' => KittyKeyboard(ps, intermediate);
        case _ =>
      }
    }

    method ReverseIndex()
      requires Valid()
      modifies this
      ensures View() == S.ReverseIndex(old(View()))
      ensures Valid()
    {
      hide Rotated;
      if here.row == region.top {
        ScrollDown(region.top, region.bottom, 1);
      } else if here.row > 0 {
        here := here.(row := here.row - 1);
      }
    }

    method EscDispatch(intermediate: byte, final: byte)
      requires Valid()
      modifies this
      ensures View() == S.EscDispatch(old(View()), intermediate, final)
      ensures Sound()
    {
      hide Rotated;
      if intermediate == 0 {
        match final as char {
          case '7' => saved := here;
          case '8' => RestorePosition();
          case 'D' => NewLine();
          case 'E' =>
            here := here.(col := 0);
            NewLine();
          case 'M' => ReverseIndex();
          case 'c' => Reset();
          case _ =>
        }
      } else if intermediate == '(' as int {
        here := here.(charset := here.charset.(g0 := if final == '0' as int then 1 else 0));
      } else if intermediate == ')' as int {
        here := here.(charset := here.charset.(g1 := if final == '0' as int then 1 else 0));
      }
    }

    method OscDispatch(command: nat, payload: seq<byte>)
      requires Valid()
      modifies this
      ensures View() == S.OscDispatch(old(View()), command, payload)
      ensures Valid()
    {
      hide Rotated;
      if command == 8 {
        links := S.Hyperlink(links, payload);
      } else if command == 133 && payload != [] && (payload[0] == 'A' as int || payload[0] == 'C' as int) {
        SetRow(here.row, RowAt(here.row).(zone := payload[0]));
      }
    }

    /** One call of the parser on its handler. */
    method Handle(c: Call)
      requires Valid()
      modifies this
      ensures View() == S.Apply(old(View()), c)
      ensures Sound()
    {
      hide Rotated;
      match c {
        case Print(cp) => Print(cp);
        case Execute(code) => Execute(code);
        case Csi(ps, intermediate, final) => CsiDispatch(ps, intermediate, final);
        case Osc(command, payload) => OscDispatch(command, payload);
        case Esc(intermediate, final) => EscDispatch(intermediate, final);
        case _ =>
      }
    }
  }
}
