/**
  A replica is a terminal restored from a snapshot and fed what came after it. It shows
  what the original shows, and its scrollback is the end of the original's.
*/
module Replicas {
  import opened Bytes
  import opened Cells
  import opened VtParsing
  import opened Screens
  import opened ScreenHistory
  import opened Wrappers
  import opened Snapshots
  import opened SnapshotTheorems
  import VtChunking

  // ---------- what two screens have in common ----------

  /** Equal in all that programs can observe; the held history and the view may differ. */
  predicate SameState(a: Screen, b: Screen) {
    a.(scrollback := b.scrollback, trimmed := b.trimmed, viewport := b.viewport, savedViewport := b.savedViewport,
       history := b.history) == b
  }

  /** The newer part of the scrollback, possibly all of it. */
  predicate EndsWith(a: seq<Line>, b: seq<Line>) {
    |b| <= |a| && a[|a| - |b|..] == b
  }

  predicate HoldsEnd(a: Screen, b: Screen) {
    EndsWith(a.scrollback, b.scrollback)
  }

  /** Lines have the same absolute numbers on both. */
  predicate SameNumbers(a: Screen, b: Screen) {
    a.trimmed + |a.scrollback| == b.trimmed + |b.scrollback|
  }

  predicate Mirrors(a: Screen, b: Screen) {
    SameState(a, b) && HoldsEnd(a, b)
  }

  /** Equal in all but the record of what left the screen, which no operation reads. */
  predicate SameButHistory(a: Screen, b: Screen) {
    a.(history := b.history) == b
  }

  /** What an operation that took a and b to p and q has kept in common. */
  predicate KeepsInStep(a: Screen, b: Screen, p: Screen, q: Screen) {
    && SameState(p, q)
    && (HoldsEnd(a, b) ==> HoldsEnd(p, q))
    && (SameNumbers(a, b) ==> SameNumbers(p, q))
    && (a.history == b.history ==> p.history == q.history)
    && (SameButHistory(a, b) ==> SameButHistory(p, q))
  }

  // ---------- every operation keeps two screens in step ----------

  lemma RecordTopLineInStep(a: Screen, b: Screen)
    requires a.WellFormed() && b.WellFormed() && SameState(a, b)
    ensures KeepsInStep(a, b, RecordTopLine(a), RecordTopLine(b))
  {
    RecordKeepsEnd(a, b);
    RecordKeepsRest(a, b);
    hide RecordTopLine, EndsWith, SameState, SameNumbers, SameButHistory;
  }

  lemma RecordKeepsEnd(a: Screen, b: Screen)
    requires a.WellFormed() && b.WellFormed() && SameState(a, b)
    ensures HoldsEnd(a, b) ==> HoldsEnd(RecordTopLine(a), RecordTopLine(b))
  {
    assert a.grid[0] == b.grid[0] && a.limit == b.limit;
    EndsKept(a.scrollback, b.scrollback, a.grid[0], a.limit);
    hide EndsWith, Screen.WellFormed, Screen.Framed;
  }

  lemma RecordKeepsRest(a: Screen, b: Screen)
    requires a.WellFormed() && b.WellFormed() && SameState(a, b)
    ensures var (p, q) := (RecordTopLine(a), RecordTopLine(b));
            && SameState(p, q) && (SameNumbers(a, b) ==> SameNumbers(p, q))
            && (a.history == b.history ==> p.history == q.history)
            && (SameButHistory(a, b) ==> SameButHistory(p, q))
  {
    assert a.grid[0] == b.grid[0];
    hide Screen.WellFormed, Screen.Framed;
  }

  /** Both get the same line and lose what is over the same limit. */
  lemma EndsKept(a: seq<Line>, b: seq<Line>, line: Line, limit: nat)
    ensures var (x, y) := (a + [line], b + [line]);
            EndsWith(a, b) ==> EndsWith(x[Max(0, |x| - limit)..], y[Max(0, |y| - limit)..])
  {
    hide *;
    if EndsWith(a, b) {
      var (x, y) := (a + [line], b + [line]);
      EndsWithMore(a, b, line);
      EndsWithLess(x, y, Max(0, |x| - limit), Max(0, |y| - limit), limit);
    }
  }

  lemma EndsWithMore(a: seq<Line>, b: seq<Line>, line: Line)
    requires EndsWith(a, b)
    ensures EndsWith(a + [line], b + [line])
  {
  }

  lemma EndsWithLess(x: seq<Line>, y: seq<Line>, i: int, j: int, limit: nat)
    requires EndsWith(x, y) && i == Max(0, |x| - limit) && j == Max(0, |y| - limit)
    ensures EndsWith(x[i..], y[j..])
  {
    var d := |x| - |y|;
    assert x[i..][d + j - i..] == x[d + j..] == x[d..][j..];
  }

  lemma ScrollUpOnceInStep(a: Screen, b: Screen, top: int, bottom: int)
    requires a.WellFormed() && b.WellFormed() && SameState(a, b) && Inside(a, top, bottom)
    ensures KeepsInStep(a, b, ScrollUpOnce(a, top, bottom), ScrollUpOnce(b, top, bottom))
  {
    hide EndsWith;
    if top == 0 {
      RecordTopLineInStep(a, b);
      hide RecordTopLine;
    }
  }

  lemma {:induction false} ScrollUpInStep(a: Screen, b: Screen, top: int, bottom: int, count: int)
    requires a.WellFormed() && b.WellFormed() && SameState(a, b) && 0 <= top && bottom < a.rows
    ensures KeepsInStep(a, b, ScrollUp(a, top, bottom, count), ScrollUp(b, top, bottom, count))
    decreases Min(count, bottom - top + 1)
  {
    hide EndsWith;
    hide ScrollUpOnce;
    var n := Min(count, bottom - top + 1);
    if n > 0 {
      ScrollUpInStep(a, b, top, bottom, n - 1);
      ScrollUpOnceInStep(ScrollUp(a, top, bottom, n - 1), ScrollUp(b, top, bottom, n - 1), top, bottom);
    }
  }

  lemma {:induction false} ScrollDownInStep(a: Screen, b: Screen, top: int, bottom: int, count: int)
    requires a.WellFormed() && b.WellFormed() && SameState(a, b) && 0 <= top && bottom < a.rows
    ensures KeepsInStep(a, b, ScrollDown(a, top, bottom, count), ScrollDown(b, top, bottom, count))
    decreases Min(count, bottom - top + 1)
  {
    hide EndsWith;
    var n := Min(count, bottom - top + 1);
    if n > 0 { ScrollDownInStep(a, b, top, bottom, n - 1); }
  }

  lemma NewLineInStep(a: Screen, b: Screen)
    requires a.WellFormed() && b.WellFormed() && SameState(a, b)
    ensures KeepsInStep(a, b, NewLine(a), NewLine(b))
  {
    hide EndsWith;
    ScrollUpInStep(a, b, a.region.top, a.region.bottom, 1);
    hide ScrollUp;
  }

  lemma PutCharInStep(a: Screen, b: Screen, cp: nat)
    requires a.WellFormed() && b.WellFormed() && SameState(a, b)
    ensures KeepsInStep(a, b, PutChar(a, cp), PutChar(b, cp))
  {
    hide EndsWith;
    if a.here.col >= a.cols {
      var row := MarkWrapped(a.grid[a.here.row]);
      NewLineInStep(WithRow(a, a.here.row, row), WithRow(b, b.here.row, row));
    }
    hide NewLine, MarkWrapped;
    assert KeepsInStep(a, b, WrapAtMargin(a), WrapAtMargin(b));
    hide WrapAtMargin;
  }

  lemma {:induction false} PutCharsInStep(a: Screen, b: Screen, cp: nat, count: nat)
    requires a.WellFormed() && b.WellFormed() && SameState(a, b)
    ensures KeepsInStep(a, b, PutChars(a, cp, count), PutChars(b, cp, count))
  {
    hide PutChar;
    if count > 0 {
      PutCharsInStep(a, b, cp, count - 1);
      PutCharInStep(PutChars(a, cp, count - 1), PutChars(b, cp, count - 1), cp);
    }
  }

  lemma EraseRowsInStep(a: Screen, b: Screen, first: int, end: int)
    requires a.WellFormed() && b.WellFormed() && SameState(a, b) && 0 <= first && end <= a.rows
    ensures KeepsInStep(a, b, EraseRows(a, first, end), EraseRows(b, first, end))
    ensures EraseRows(a, first, end) == a.(grid := EraseRows(a, first, end).grid)
    ensures EraseRows(b, first, end) == b.(grid := EraseRows(a, first, end).grid)
  {
    hide EndsWith;
    assert EraseRows(a, first, end).grid == EraseRows(b, first, end).grid;
  }

  lemma EraseDisplayInStep(a: Screen, b: Screen, mode: int)
    requires a.WellFormed() && b.WellFormed() && SameState(a, b) && mode != 3
    ensures KeepsInStep(a, b, EraseDisplay(a, mode), EraseDisplay(b, mode))
  {
    hide EndsWith;
    if mode == 0 {
      var c := a.cols - 1;
      EraseRowsInStep(EraseCells(a, a.here.row, a.here.col, c), EraseCells(b, b.here.row, b.here.col, c), a.here.row + 1, a.rows);
    } else if mode == 1 {
      EraseRowsInStep(EraseCells(a, a.here.row, 0, a.here.col), EraseCells(b, b.here.row, 0, b.here.col), 0, a.here.row);
    } else if mode == 2 {
      EraseRowsInStep(a, b, 0, a.rows);
    }
    hide EraseRows;
  }

  /** Erasing the scrollback leaves both without any: whoever held less now counts its lines differently. */
  lemma EraseScrollbackInStep(a: Screen, b: Screen)
    requires a.WellFormed() && b.WellFormed() && SameState(a, b)
    ensures var (p, q) := (EraseDisplay(a, 3), EraseDisplay(b, 3));
            SameState(p, q) && HoldsEnd(p, q) && (a.history == b.history ==> p.history == q.history)
            && (SameButHistory(a, b) ==> SameButHistory(p, q))
            && (SameNumbers(a, b) ==> (SameNumbers(p, q) <==> |a.scrollback| == |b.scrollback|))
  {
    hide EraseRows;
    EraseRowsInStep(a.(scrollback := [], viewport := 0), b.(scrollback := [], viewport := 0), 0, a.rows);
  }

  lemma SwitchScreenInStep(a: Screen, b: Screen, on: bool)
    requires a.Framed() && b.Framed() && SameState(a, b)
    ensures on ==> KeepsInStep(a, b, EnterAlternate(a), EnterAlternate(b))
    ensures !on ==> KeepsInStep(a, b, LeaveAlternate(a), LeaveAlternate(b))
  {
    hide EndsWith, Screen.WellFormed, Screen.Framed, Shaped, BlankGrid;
    if on {
      hide SetCursor;
      var (p, q) := (SwitchToAlternate(a), SwitchToAlternate(b));
      assert KeepsInStep(a, b, p, q);
      assert KeepsInStep(a, b, ClearRows(p), ClearRows(q));
      SetCursorInStep(ClearRows(p), ClearRows(q), 0, 0);
    }
  }

  lemma SetCursorInStep(a: Screen, b: Screen, row: int, col: int)
    requires a.Framed() && b.Framed() && SameState(a, b)
    ensures KeepsInStep(a, b, SetCursor(a, row, col), SetCursor(b, row, col))
  {
    hide EndsWith, Screen.WellFormed, Screen.Framed;
  }

  lemma SetModeInStep(a: Screen, b: Screen, mode: int, on: bool, decPrivate: bool)
    requires a.Framed() && b.Framed() && SameState(a, b)
    ensures KeepsInStep(a, b, SetMode(a, mode, on, decPrivate), SetMode(b, mode, on, decPrivate))
  {
    hide EndsWith, Screen.WellFormed, Screen.Framed, EnterAlternate, LeaveAlternate, KeepsInStep;
    SwitchScreenInStep(a, b, on);
    NothingInStep(a, b);
    var m := a.modes;
    if decPrivate {
      match mode {
        case 1 => ModesInStep(a, b, m.(appCursor := on));
        case 12 => ModesInStep(a, b, m.(cursorBlink := on));
        case 25 => ModesInStep(a, b, m.(cursorVisible := on));
        case 1000 => ModesInStep(a, b, m.(mouse := if on then 1000 else 0));
        case 1002 => ModesInStep(a, b, m.(mouse := if on then 1002 else 0));
        case 1003 => ModesInStep(a, b, m.(mouse := if on then 1003 else 0));
        case 1004 => ModesInStep(a, b, m.(focusEvents := on));
        case 1006 => ModesInStep(a, b, m.(sgrMouse := on));
        case 2004 => ModesInStep(a, b, m.(bracketedPaste := on));
        case 2026 => ModesInStep(a, b, m.(synchronized := on));
        case 2027 => ModesInStep(a, b, m.(graphemes := on));
        case _ =>
      }
    }
  }

  lemma ModesInStep(a: Screen, b: Screen, m: Modes)
    requires SameState(a, b)
    ensures KeepsInStep(a, b, a.(modes := m), b.(modes := m))
  {
    hide EndsWith;
  }

  lemma {:induction false} SetModesInStep(a: Screen, b: Screen, ps: seq<Param>, n: nat, on: bool, decPrivate: bool)
    requires a.Framed() && b.Framed() && SameState(a, b) && n <= |ps|
    ensures KeepsInStep(a, b, SetModes(a, ps, n, on, decPrivate), SetModes(b, ps, n, on, decPrivate))
  {
    hide SetMode;
    if n > 0 {
      SetModesInStep(a, b, ps, n - 1, on, decPrivate);
      SetModeInStep(SetModes(a, ps, n - 1, on, decPrivate), SetModes(b, ps, n - 1, on, decPrivate),
                    ParamValue(ps, n - 1, 0), on, decPrivate);
    }
  }

  lemma LinesInStep(a: Screen, b: Screen, n: int)
    requires a.WellFormed() && b.WellFormed() && SameState(a, b)
    ensures KeepsInStep(a, b, InsertLines(a, n), InsertLines(b, n))
    ensures KeepsInStep(a, b, DeleteLines(a, n), DeleteLines(b, n))
  {
    RegionBounds(a);
    NothingInStep(a, b);
    ScrollDownInStep(a, b, a.here.row, a.region.bottom, n);
    ScrollUpInStep(a, b, a.here.row, a.region.bottom, n);
    hide ScrollUp, ScrollDown, EndsWith, Screen.WellFormed, Screen.Framed, KeepsInStep;
  }

  lemma ScrollsInStep(a: Screen, b: Screen, n: int)
    requires a.WellFormed() && b.WellFormed() && SameState(a, b)
    ensures KeepsInStep(a, b, ScrollUp(a, a.region.top, a.region.bottom, n), ScrollUp(b, b.region.top, b.region.bottom, n))
    ensures KeepsInStep(a, b, ScrollDown(a, a.region.top, a.region.bottom, n), ScrollDown(b, b.region.top, b.region.bottom, n))
  {
    RegionBounds(a);
    ScrollUpInStep(a, b, a.region.top, a.region.bottom, n);
    ScrollDownInStep(a, b, a.region.top, a.region.bottom, n);
    hide ScrollUp, ScrollDown, EndsWith, Screen.WellFormed, Screen.Framed, KeepsInStep;
  }

  lemma BothFramed(a: Screen, b: Screen)
    requires a.WellFormed() && b.WellFormed()
    ensures a.Framed() && b.Framed()
  {
  }

  lemma ScrollingCsiInStep(a: Screen, b: Screen, c: Call)
    requires a.WellFormed() && b.WellFormed() && SameState(a, b) && c.Csi? && Scrolls(c.final as char)
    ensures KeepsInStep(a, b, Apply(a, c), Apply(b, c))
  {
    hide ScrollUp, ScrollDown, PutChars, SetModes, Screen.WellFormed, Screen.Framed, SameState, KeepsInStep, InsertLines, DeleteLines,
         Move, EraseDisplay, EraseInLine, InsertChars, DeleteChars, EraseCells, SetRegion, KittyKeyboard, Sgr, Restores;
    BothFramed(a, b);
    SameHere(a, b);
    NothingInStep(a, b);
    var n := Max(1, ParamValue(c.params, 0, 1));
    LinesInStep(a, b, n);
    ScrollsInStep(a, b, n);
    PutCharsInStep(a, b, a.lastPrinted, n);
    SetModesInStep(a, b, c.params, |c.params|, c.final as char == 'h', c.intermediate == '?' as int);
  }

  lemma MoveInStep(a: Screen, b: Screen, final: char, ps: seq<Param>)
    requires a.WellFormed() && b.WellFormed() && SameState(a, b)
    ensures KeepsInStep(a, b, Move(a, final, ps), Move(b, final, ps))
  {
    hide EndsWith, Screen.WellFormed, Screen.Framed, SetCursor, KeepsInStep, SameState;
    BothFramed(a, b);
    forall row, col { SetCursorInStep(a, b, row, col); }
    assert a.here == b.here && a.rows == b.rows by { SameHere(a, b); }
  }

  lemma SameHere(a: Screen, b: Screen)
    requires SameState(a, b)
    ensures a.here == b.here && a.rows == b.rows && a.cols == b.cols && a.region == b.region && a.lastPrinted == b.lastPrinted
  {
  }

  /** Operations that change one row or one field. */
  lemma EditsInStep(a: Screen, b: Screen, n: int, first: int, last: int)
    requires a.WellFormed() && b.WellFormed() && SameState(a, b) && n >= 1
    ensures KeepsInStep(a, b, InsertChars(a, n), InsertChars(b, n))
    ensures KeepsInStep(a, b, DeleteChars(a, n), DeleteChars(b, n))
    ensures KeepsInStep(a, b, EraseCells(a, a.here.row, first, last), EraseCells(b, b.here.row, first, last))
  {
    hide EndsWith, InsertIn, DeleteIn, EraseIn;
  }

  lemma SettingsInStep(a: Screen, b: Screen, ps: seq<Param>, intermediate: byte)
    requires a.WellFormed() && b.WellFormed() && SameState(a, b)
    ensures KeepsInStep(a, b, SetRegion(a, ps), SetRegion(b, ps))
    ensures KeepsInStep(a, b, KittyKeyboard(a, ps, intermediate), KittyKeyboard(b, ps, intermediate))
    ensures KeepsInStep(a, b, a.(here := a.here.(pen := Sgr(a.here.pen, ps))), b.(here := b.here.(pen := Sgr(b.here.pen, ps))))
  {
    hide EndsWith, Sgr;
  }

  lemma EraseInLineInStep(a: Screen, b: Screen, mode: int)
    requires a.WellFormed() && b.WellFormed() && SameState(a, b)
    ensures KeepsInStep(a, b, EraseInLine(a, mode), EraseInLine(b, mode))
  {
    hide EndsWith, EraseCells;
    EditsInStep(a, b, 1, a.here.col, a.cols - 1);
    EditsInStep(a, b, 1, 0, a.here.col);
    EditsInStep(a, b, 1, 0, a.cols - 1);
  }

  lemma QuietCsiInStep(a: Screen, b: Screen, c: Call)
    requires a.WellFormed() && b.WellFormed() && SameState(a, b) && c.Csi?
    requires !Scrolls(c.final as char) && !ErasesScrollback(c)
    ensures KeepsInStep(a, b, Apply(a, c), Apply(b, c))
  {
    hide Screen.WellFormed, Screen.Framed, Move, EraseDisplay, EraseInLine, InsertChars, DeleteChars, EraseCells, SetRegion, KittyKeyboard,
         Sgr, SameState, HoldsEnd, SameNumbers, ScrollUp, ScrollDown, PutChars, SetModes, InsertLines, DeleteLines;
    SameHere(a, b);
    var n := Max(1, ParamValue(c.params, 0, 1));
    MoveInStep(a, b, c.final as char, c.params);
    SettingsInStep(a, b, c.params, c.intermediate);
    EditsInStep(a, b, n, a.here.col, Min(a.here.col + n - 1, a.cols - 1));
    EraseInLineInStep(a, b, ParamValue(c.params, 0, 0));
    if IsCsi(c, 'J') { EraseDisplayInStep(a, b, ParamValue(c.params, 0, 0)); }
  }

  lemma NothingInStep(a: Screen, b: Screen)
    requires SameState(a, b)
    ensures KeepsInStep(a, b, a, b)
  {
  }

  /** Saving, restoring, resetting, and what is set by escape sequences, controls and OSC strings. */
  lemma PlacesInStep(a: Screen, b: Screen)
    requires a.WellFormed() && b.WellFormed() && SameState(a, b)
    ensures KeepsInStep(a, b, a.(saved := a.here), b.(saved := b.here))
    ensures KeepsInStep(a, b, RestorePosition(a), RestorePosition(b))
    ensures KeepsInStep(a, b, Fresh(a.cols, a.rows, a.limit), Fresh(b.cols, b.rows, b.limit))
  {
  }

  lemma HereInStep(a: Screen, b: Screen, here: Position)
    requires SameState(a, b)
    ensures KeepsInStep(a, b, a.(here := here), b.(here := here))
  {
  }

  lemma CharsetInStep(a: Screen, b: Screen, intermediate: byte, final: byte)
    requires a.WellFormed() && b.WellFormed() && SameState(a, b) && intermediate != 0
    ensures KeepsInStep(a, b, EscDispatch(a, intermediate, final), EscDispatch(b, intermediate, final))
  {
    hide EndsWith, Screen.WellFormed, Screen.Framed, HoldsEnd, SameNumbers, KeepsInStep;
    var here := EscDispatch(a, intermediate, final).here;
    assert EscDispatch(a, intermediate, final) == a.(here := here) && EscDispatch(b, intermediate, final) == b.(here := here);
    HereInStep(a, b, here);
  }

  lemma EscInStep(a: Screen, b: Screen, intermediate: byte, final: byte)
    requires a.WellFormed() && b.WellFormed() && SameState(a, b)
    ensures KeepsInStep(a, b, EscDispatch(a, intermediate, final), EscDispatch(b, intermediate, final))
  {
    if intermediate != 0 {
      hide *;
      CharsetInStep(a, b, intermediate, final);
    } else {
      hide EndsWith, NewLine, ScrollDown, Fresh, RestorePosition, KeepsInStep, ReverseIndex;
      NothingInStep(a, b);
      PlacesInStep(a, b);
      NewLineInStep(a, b);
      NextLineInStep(a, b);
      ReverseIndexInStep(a, b);
    }
  }

  lemma NextLineInStep(a: Screen, b: Screen)
    requires a.WellFormed() && b.WellFormed() && SameState(a, b)
    ensures KeepsInStep(a, b, NewLine(a.(here := a.here.(col := 0))), NewLine(b.(here := b.here.(col := 0))))
  {
    hide EndsWith, NewLine;
    NewLineInStep(a.(here := a.here.(col := 0)), b.(here := b.here.(col := 0)));
  }

  lemma ReverseIndexInStep(a: Screen, b: Screen)
    requires a.WellFormed() && b.WellFormed() && SameState(a, b)
    ensures KeepsInStep(a, b, ReverseIndex(a), ReverseIndex(b))
  {
    hide EndsWith, ScrollDown, KeepsInStep, Screen.WellFormed, Screen.Framed;
    RegionBounds(a);
    ScrollDownInStep(a, b, a.region.top, a.region.bottom, 1);
    NothingInStep(a, b);
    HereInStep(a, b, a.here.(row := a.here.row - 1));
  }

  lemma ExecuteInStep(a: Screen, b: Screen, code: byte)
    requires a.WellFormed() && b.WellFormed() && SameState(a, b)
    ensures KeepsInStep(a, b, ExecuteCode(a, code), ExecuteCode(b, code))
  {
    hide EndsWith, Screen.WellFormed, Screen.Framed, NewLine, HoldsEnd, SameNumbers;
    if code in {0x0A, 0x0B, 0x0C} {
      NewLineInStep(a, b);
      hide KeepsInStep;
    } else {
      var here := ExecuteCode(a, code).here;
      assert ExecuteCode(a, code) == a.(here := here) && ExecuteCode(b, code) == b.(here := here);
      HereInStep(a, b, here);
    }
  }

  lemma OscInStep(a: Screen, b: Screen, command: nat, payload: seq<byte>)
    requires a.WellFormed() && b.WellFormed() && SameState(a, b)
    ensures KeepsInStep(a, b, OscDispatch(a, command, payload), OscDispatch(b, command, payload))
  {
    hide EndsWith, Hyperlink;
  }

  lemma PrintInStep(a: Screen, b: Screen, cp: nat)
    requires a.WellFormed() && b.WellFormed() && SameState(a, b)
    ensures KeepsInStep(a, b, PrintChar(a, cp), PrintChar(b, cp))
  {
    hide EndsWith, PutChar, Translate;
    var t := Translate(a.here.charset, cp);
    PutCharInStep(a.(lastPrinted := t), b.(lastPrinted := t), t);
  }

  lemma CallInStep(a: Screen, b: Screen, c: Call)
    requires a.WellFormed() && b.WellFormed() && SameState(a, b) && !ErasesScrollback(c)
    ensures KeepsInStep(a, b, Apply(a, c), Apply(b, c))
  {
    hide Screen.WellFormed, Screen.Framed, PrintChar, ExecuteCode, CsiDispatch, OscDispatch, EscDispatch, KeepsInStep, SameState, Scrolls, ErasesScrollback;
    match c {
      case Print(cp) => PrintInStep(a, b, cp);
      case Execute(code) => ExecuteInStep(a, b, code);
      case Csi(ps, intermediate, final) =>
        if Scrolls(final as char) { ScrollingCsiInStep(a, b, c); } else { QuietCsiInStep(a, b, c); }
      case Esc(intermediate, final) => EscInStep(a, b, intermediate, final);
      case Osc(command, payload) => OscInStep(a, b, command, payload);
      case _ => NothingInStep(a, b);
    }
  }

  // ---------- whole runs ----------

  /** Any run keeps a mirror a mirror; ED 3 is the one call that can make the line numbers differ. */
  lemma {:induction false} RunInStep(a: Screen, b: Screen, calls: seq<Call>)
    requires a.WellFormed() && b.WellFormed() && SameState(a, b) && Ready(a, calls)
    ensures Ready(b, calls)
    ensures var (p, q) := (ApplyAll(a, calls), ApplyAll(b, calls));
            && SameState(p, q)
            && (HoldsEnd(a, b) ==> HoldsEnd(p, q))
            && (a.history == b.history ==> p.history == q.history)
            && (SameButHistory(a, b) ==> SameButHistory(p, q))
            && (SameNumbers(a, b) && NeverErasesScrollback(calls) ==> SameNumbers(p, q))
    decreases |calls|
  {
    hide Apply, EndsWith, ErasesScrollback, Restores;
    if calls != [] {
      var c := calls[0];
      if ErasesScrollback(c) {
        EraseCallInStep(a, b, c);
      } else {
        CallInStep(a, b, c);
      }
      assert a.saved == b.saved && a.rows == b.rows && a.cols == b.cols;
      RunInStep(Apply(a, c), Apply(b, c), calls[1..]);
      if NeverErasesScrollback(calls) {
        assert !ErasesScrollback(calls[0]);
        assert forall i | 0 <= i < |calls[1..]| :: calls[1..][i] == calls[i + 1];
      }
    }
  }

  lemma EraseCallInStep(a: Screen, b: Screen, c: Call)
    requires a.WellFormed() && b.WellFormed() && SameState(a, b) && ErasesScrollback(c)
    ensures var (p, q) := (Apply(a, c), Apply(b, c));
            SameState(p, q) && HoldsEnd(p, q) && (a.history == b.history ==> p.history == q.history)
            && (SameButHistory(a, b) ==> SameButHistory(p, q))
            && (SameNumbers(a, b) ==> (SameNumbers(p, q) <==> |a.scrollback| == |b.scrollback|))
  {
    hide EraseDisplay, EndsWith;
    EraseScrollbackInStep(a, b);
  }

  /** Between two mirrors, one call keeps the line numbers equal exactly when it does not erase
      scrollback of which they hold different amounts. */
  lemma CallKeepsNumbersIff(a: Screen, b: Screen, c: Call)
    requires a.WellFormed() && b.WellFormed() && Mirrors(a, b) && SameNumbers(a, b)
    ensures SameNumbers(Apply(a, c), Apply(b, c))
       <==> !(ErasesScrollback(c) && |a.scrollback| != |b.scrollback|)
  {
    if ErasesScrollback(c) { EraseCallInStep(a, b, c); } else { CallInStep(a, b, c); }
    hide Apply, ErasesScrollback;
  }

  lemma {:induction false} ApplyAllConcat(s: Screen, c: seq<Call>, d: seq<Call>)
    requires s.WellFormed()
    ensures Ready(s, c + d) <==> Ready(s, c) && Ready(ApplyAll(s, c), d)
    ensures Ready(s, c + d) ==> ApplyAll(s, c + d) == ApplyAll(ApplyAll(s, c), d)
    decreases |c|
  {
    hide Apply;
    if c == [] {
      assert c + d == d;
    } else {
      assert (c + d)[1..] == c[1..] + d;
      if Apply(s, c[0]).WellFormed() { ApplyAllConcat(Apply(s, c[0]), c[1..], d); }
    }
  }

  // ---------- snapshot, then the rest of the stream ----------

  predicate Running(t: Terminal) {
    t.screen.WellFormed() && t.parser.Valid()
  }

  /** Nothing in these bytes restores a cursor saved off the screen, which takes a screen made smaller since. */
  predicate Safe(t: Terminal, data: seq<byte>)
    requires Running(t)
  {
    Ready(t.screen, Run(t.parser, data).calls)
  }

  /** A terminal whose saved cursor is on the screen, as on a fresh one, is safe from all output. */
  lemma SavedInRangeIsSafe(t: Terminal, data: seq<byte>)
    requires Running(t) && t.screen.InRange(t.screen.saved)
    ensures Safe(t, data)
  {
    SavedInRangeIsReady(t.screen, Run(t.parser, data).calls);
  }

  /** The terminal after one read of its program's output. */
  function Fed(t: Terminal, data: seq<byte>): (r: Terminal)
    requires Running(t) && Safe(t, data)
    ensures Running(r) && r.screen.SameGeometry(t.screen)
    ensures t.screen.InRange(t.screen.saved) ==> r.screen.InRange(r.screen.saved)
  {
    var o := Run(t.parser, data);
    Terminal(ApplyAll(t.screen, o.calls), o.machine)
  }

  predicate SafeAll(t: Terminal, chunks: seq<seq<byte>>)
    requires Running(t)
    decreases |chunks|
  {
    chunks == [] || (Safe(t, chunks[0]) && SafeAll(Fed(t, chunks[0]), chunks[1..]))
  }

  function FedAll(t: Terminal, chunks: seq<seq<byte>>): (r: Terminal)
    requires Running(t) && SafeAll(t, chunks)
    ensures Running(r)
    decreases |chunks|
  {
    if chunks == [] then t else FedAll(Fed(t, chunks[0]), chunks[1..])
  }

  /** However the output is cut into reads, short of cutting a string terminator, the terminal is the same. */
  lemma {:induction false} ReadsDoNotMatter(t: Terminal, chunks: seq<seq<byte>>)
    requires Running(t) && VtChunking.CleanCuts(t.parser, chunks)
    ensures SafeAll(t, chunks) <==> Safe(t, Flatten(chunks))
    ensures SafeAll(t, chunks) ==> FedAll(t, chunks) == Fed(t, Flatten(chunks))
    decreases |chunks|
  {
    hide Apply, Run;
    if chunks == [] {
      assert Run(t.parser, []) == Quiet(t.parser) by { RunEmpty(Quiet(t.parser), []); }
    } else {
      var first := Run(t.parser, chunks[0]);
      VtChunking.RunConcat(t.parser, chunks[0], Flatten(chunks[1..]));
      ApplyAllConcat(t.screen, first.calls, Run(first.machine, Flatten(chunks[1..])).calls);
      hide ApplyAll, Ready;
      if Safe(t, chunks[0]) { ReadsDoNotMatter(Fed(t, chunks[0]), chunks[1..]); }
    }
  }

  /** A snapshot mirrors the screen it was taken of exactly when the scroll region is not inverted. */
  lemma SnapshotMirrorsIff(prior: Terminal, t: Terminal, max: int)
    requires FitsScreen(t.screen, max)
    ensures Restored(prior, t, max).screen.WellFormed()
    ensures Mirrors(t.screen, Restored(prior, t, max).screen) <==> t.screen.region.top <= t.screen.region.bottom
    ensures SameNumbers(t.screen, Restored(prior, t, max).screen)
  {
    RegionRestoredIff(prior, t, max);
  }

  /** The calls a terminal makes of these reads. */
  function CallsOf(m: Machine, chunks: seq<seq<byte>>): seq<Call>
    requires m.Valid()
  {
    VtChunking.RunAll(m, chunks).calls
  }

  lemma {:induction false} FedInStep(t: Terminal, u: Terminal, chunks: seq<seq<byte>>)
    requires Running(t) && Running(u) && Mirrors(t.screen, u.screen) && t.parser == u.parser && SafeAll(t, chunks)
    ensures SafeAll(u, chunks)
    ensures Mirrors(FedAll(t, chunks).screen, FedAll(u, chunks).screen)
    ensures FedAll(t, chunks).parser == FedAll(u, chunks).parser
    ensures SameNumbers(t.screen, u.screen) && NeverErasesScrollback(CallsOf(t.parser, chunks)) ==>
              SameNumbers(FedAll(t, chunks).screen, FedAll(u, chunks).screen)
    decreases |chunks|
  {
    hide ApplyAll, Ready, Run, EndsWith, SameState, SameNumbers, ErasesScrollback;
    if chunks != [] {
      var o := Run(t.parser, chunks[0]);
      RunInStep(t.screen, u.screen, o.calls);
      FedInStep(Fed(t, chunks[0]), Fed(u, chunks[0]), chunks[1..]);
      assert CallsOf(t.parser, chunks) == o.calls + CallsOf(o.machine, chunks[1..]);
      NeverInParts(o.calls, CallsOf(o.machine, chunks[1..]));
    }
  }

  lemma NeverInParts(c: seq<Call>, d: seq<Call>)
    ensures NeverErasesScrollback(c + d) ==> NeverErasesScrollback(c) && NeverErasesScrollback(d)
  {
    hide ErasesScrollback;
    if NeverErasesScrollback(c + d) {
      forall i | 0 <= i < |c| ensures !ErasesScrollback(c[i]) { assert (c + d)[i] == c[i]; }
      forall i | 0 <= i < |d| ensures !ErasesScrollback(d[i]) { assert (c + d)[|c| + i] == d[i]; }
    }
  }

  /**
    The replication law. A terminal has been fed some of its output, a snapshot of it is applied
    over any state, and the rest is fed to the result in any reads that cut no terminator: the
    outcome mirrors the terminal that got the whole output at once, and if none of the rest erases
    the scrollback the lines have the same numbers on both. The state at the snapshot must fit the
    format, and the scroll region must not be inverted there.
  */
  lemma SnapshotThenTail(start: Terminal, head: seq<byte>, tail: seq<seq<byte>>, prior: Terminal, order: seq<nat>, max: int)
    requires Running(start) && VtChunking.CleanCuts(start.parser, [head] + tail) && SafeAll(start, [head] + tail)
    requires var t := Fed(start, head);
             Encodable(t, order, max) && t.screen.region.top <= t.screen.region.bottom
    ensures Safe(start, head + Flatten(tail))
    ensures var snapshot := Deserialize(prior, Serialize(Fed(start, head), order, max));
            && snapshot.Some? && Running(snapshot.value) && SafeAll(snapshot.value, tail)
            && var (whole, replica) := (Fed(start, head + Flatten(tail)), FedAll(snapshot.value, tail));
            && replica.parser == whole.parser
            && Mirrors(whole.screen, replica.screen)
            && (NeverErasesScrollback(CallsOf(Run(start.parser, head).machine, tail)) ==> SameNumbers(whole.screen, replica.screen))
  {
    hide Run, ApplyAll, Ready, Serialize, Deserialize, Restored, FitsScreen, Mirrors, Screen.WellFormed, SameNumbers, CallsOf, NeverErasesScrollback;
    var t := Fed(start, head);
    assert ([head] + tail)[1..] == tail;
    SnapshotRoundTrip(prior, t, order, max);
    SnapshotMirrorsIff(prior, t, max);
    var u := Restored(prior, t, max);
    assert u.parser == t.parser by { ParserRestored(prior, t, max); }
    FedInStep(t, u, tail);
    ReadsDoNotMatter(start, [head] + tail);
  }

  lemma ParserRestored(prior: Terminal, t: Terminal, max: int)
    ensures Restored(prior, t, max).parser == t.parser
  {
  }
}
