/**
  The terminal screen as a value: what every operation does to the visible rows,
  the scrollback and the cursor, with the rows a plain list. The program, which
  keeps the rows in a ring, is in ScreenBuffer.dfy and is proved against this.

  `history` is the list of every line that has left the main screen through its
  top; no operation reads it.
*/
module Screens {
  import opened Bytes
  import opened Cells
  import opened VtParsing

  datatype Pen = Pen(fg: nat, bg: nat, attrs: nat)
  datatype Charset = Charset(g0: nat, g1: nat, gl: nat)
  /** Where and how the next character is written; this is also what saving the cursor saves. */
  datatype Position = Position(row: int, col: int, pen: Pen, charset: Charset)
  datatype Region = Region(top: int, bottom: int)
  datatype Keyboard = Keyboard(stack: seq<int>, saved: seq<int>)
  datatype Modes = Modes(appCursor: bool, cursorBlink: bool, focusEvents: bool, bracketedPaste: bool,
                         sgrMouse: bool, graphemes: bool, synchronized: bool, cursorVisible: bool, mouse: nat)
  datatype Links = Links(uris: map<nat, seq<byte>>, current: nat, next: nat)

  const PLAIN := Pen(COLOR_DEFAULT, COLOR_DEFAULT, 0)
  const ASCII := Charset(0, 0, 0)
  const HOME := Position(0, 0, PLAIN, ASCII)
  const MODES := Modes(false, false, false, false, false, false, false, true, 0)
  const NO_LINKS := Links(map[], 0, 1)

  predicate Shaped(grid: seq<Line>, rows: int, cols: int) {
    |grid| == rows && forall i | 0 <= i < |grid| :: |grid[i].cells| == cols
  }

  datatype Screen = Screen(
    cols: int, rows: int, limit: nat,
    grid: seq<Line>, alt: seq<Line>, usingAlt: bool,
    scrollback: seq<Line>, trimmed: int, viewport: int, savedViewport: int,
    here: Position, saved: Position, region: Region,
    modes: Modes, lastPrinted: nat, keyboard: Keyboard, links: Links,
    history: seq<Line>)
  {
    predicate InRange(p: Position) {
      0 <= p.row < rows && 0 <= p.col <= cols
    }

    /** Rows and columns as announced; the scroll region may be inverted. */
    predicate Framed() {
      && cols >= 1 && rows >= 1
      && Shaped(grid, rows, cols) && Shaped(alt, rows, cols)
      && 0 <= region.top && -1 <= region.bottom < rows
    }

    /** The cursor is on the screen, or right behind it. Nothing is said of the saved cursor. */
    predicate WellFormed() {
      Framed() && InRange(here)
    }

    predicate SameGeometry(t: Screen) {
      cols == t.cols && rows == t.rows
    }
  }

  function Fresh(cols: int, rows: int, limit: nat): (s: Screen)
    requires cols >= 1 && rows >= 1
    ensures s.WellFormed() && s.InRange(s.saved)
  {
    Screen(cols, rows, limit, BlankGrid(rows, cols), BlankGrid(rows, cols), false, [], 0, 0, 0,
           HOME, HOME, Region(0, rows - 1), MODES, 0, Keyboard([], []), NO_LINKS, [])
  }

  // ---------- scrolling ----------

  /** The oldest lines past the limit go; a viewport beyond what is left is pulled in. */
  function PushScrollback(s: Screen, line: Line): Screen {
    if s.usingAlt then s
    else
      var held := s.scrollback + [line];
      var excess := Max(0, |held| - s.limit);
      s.(scrollback := held[excess..],
         trimmed := s.trimmed + excess,
         viewport := if excess > 0 then Max(s.viewport, -(|held| - excess)) else s.viewport,
         history := s.history + [line])
  }

  /** Older lines go in front, and are not trimmed any more. */
  function PrependScrollback(s: Screen, lines: seq<Line>): Screen {
    s.(scrollback := lines + s.scrollback, trimmed := s.trimmed - |lines|)
  }

  function RecordTopLine(s: Screen): (r: Screen)
    requires s.WellFormed()
    ensures r.WellFormed() && r.SameGeometry(s) && r.saved == s.saved && r.grid == s.grid
  {
    if s.usingAlt then s
    else
      var p := PushScrollback(s, s.grid[0]);
      if p.viewport < 0 then p.(viewport := p.viewport - 1) else p
  }

  predicate Inside(s: Screen, top: int, bottom: int) {
    0 <= top <= bottom < s.rows
  }

  function ScrollUpOnce(s: Screen, top: int, bottom: int): (r: Screen)
    requires s.WellFormed() && Inside(s, top, bottom)
    ensures r.WellFormed() && r.SameGeometry(s) && r.saved == s.saved
  {
    var p := if top == 0 then RecordTopLine(s) else s;
    p.(grid := s.grid[..top] + s.grid[top + 1..bottom + 1] + [BlankLine(s.cols)] + s.grid[bottom + 1..])
  }

  function ScrollUp(s: Screen, top: int, bottom: int, count: int): (r: Screen)
    requires s.WellFormed() && 0 <= top && bottom < s.rows
    ensures r.WellFormed() && r.SameGeometry(s) && r.saved == s.saved
    decreases Min(count, bottom - top + 1)
  {
    var n := Min(count, bottom - top + 1);
    if n <= 0 then s
    else ScrollUpOnce(ScrollUp(s, top, bottom, n - 1), top, bottom)
  }

  function ScrollDownOnce(s: Screen, top: int, bottom: int): (r: Screen)
    requires s.WellFormed() && Inside(s, top, bottom)
    ensures r.WellFormed() && r.SameGeometry(s) && r.saved == s.saved
  {
    s.(grid := s.grid[..top] + [BlankLine(s.cols)] + s.grid[top..bottom] + s.grid[bottom + 1..])
  }

  function ScrollDown(s: Screen, top: int, bottom: int, count: int): (r: Screen)
    requires s.WellFormed() && 0 <= top && bottom < s.rows
    ensures r.WellFormed() && r.SameGeometry(s) && r.saved == s.saved
    decreases Min(count, bottom - top + 1)
  {
    var n := Min(count, bottom - top + 1);
    if n <= 0 then s
    else ScrollDownOnce(ScrollDown(s, top, bottom, n - 1), top, bottom)
  }

  function NewLine(s: Screen): (r: Screen)
    requires s.WellFormed()
    ensures r.WellFormed() && r.SameGeometry(s) && r.saved == s.saved
  {
    if s.here.row == s.region.bottom then ScrollUp(s, s.region.top, s.region.bottom, 1)
    else if s.here.row < s.rows - 1 then s.(here := s.here.(row := s.here.row + 1))
    else s
  }

  function ReverseIndex(s: Screen): (r: Screen)
    requires s.WellFormed()
    ensures r.WellFormed() && r.SameGeometry(s) && r.saved == s.saved
  {
    if s.here.row == s.region.top then ScrollDown(s, s.region.top, s.region.bottom, 1)
    else if s.here.row > 0 then s.(here := s.here.(row := s.here.row - 1))
    else s
  }

  /** What the viewport shows at a row: a line of the scrollback followed by the rows, or nothing. */
  function Shown(s: Screen, row: int): Line {
    var at := |s.scrollback| + s.viewport + row;
    if s.viewport != 0 && 0 <= at < |s.scrollback| then s.scrollback[at]
    else if |s.scrollback| <= at < |s.scrollback| + |s.grid| then s.grid[at - |s.scrollback|]
    else BlankLine(0)
  }

  // ---------- writing and erasing ----------

  function SetCursor(s: Screen, row: int, col: int): (r: Screen)
    requires s.Framed()
    ensures r.WellFormed() && r.SameGeometry(s) && r.saved == s.saved
  {
    s.(here := s.here.(row := Clamp(row, 0, s.rows - 1), col := Clamp(col, 0, s.cols - 1)))
  }

  function WithRow(s: Screen, row: int, line: Line): (r: Screen)
    requires s.WellFormed() && 0 <= row < s.rows && |line.cells| == s.cols
    ensures r.WellFormed() && r.SameGeometry(s) && r.saved == s.saved
  {
    s.(grid := s.grid[row := line])
  }

  /** The row is marked as continued on the next one. */
  function MarkWrapped(l: Line): (r: Line)
    requires l.cells != []
    ensures |r.cells| == |l.cells|
  {
    var last := |l.cells| - 1;
    l.(wrapped := true, cells := l.cells[last := l.cells[last].(attrs := SetBit(l.cells[last].attrs, ATTR_WRAP))])
  }

  function WrapAtMargin(s: Screen): (r: Screen)
    requires s.WellFormed()
    ensures r.WellFormed() && r.SameGeometry(s) && r.saved == s.saved && r.here.col < r.cols
  {
    if s.here.col < s.cols then s
    else
      var n := NewLine(WithRow(s, s.here.row, MarkWrapped(s.grid[s.here.row])));
      n.(here := n.here.(col := 0))
  }

  function Written(s: Screen, cp: nat): Cell {
    Cell(cp, s.here.pen.fg, s.here.pen.bg,
         if s.links.current != 0 then SetBit(s.here.pen.attrs, ATTR_HYPERLINK) else s.here.pen.attrs, s.links.current)
  }

  function PutChar(s: Screen, cp: nat): (r: Screen)
    requires s.WellFormed()
    ensures r.WellFormed() && r.SameGeometry(s) && r.saved == s.saved
  {
    var w := WrapAtMargin(s);
    var line := w.grid[w.here.row];
    var r := WithRow(w, w.here.row, line.(cells := line.cells[w.here.col := Written(w, cp)]));
    r.(here := r.here.(col := r.here.col + 1))
  }

  function PutChars(s: Screen, cp: nat, count: nat): (r: Screen)
    requires s.WellFormed()
    ensures r.WellFormed() && r.SameGeometry(s) && r.saved == s.saved
  {
    if count == 0 then s else PutChar(PutChars(s, cp, count - 1), cp)
  }

  function EraseIn(l: Line, first: int, last: int, bg: nat): (r: Line)
    ensures |r.cells| == |l.cells|
  {
    l.(cells := seq(|l.cells|, c requires 0 <= c < |l.cells| => if first <= c <= last then Erased(bg) else l.cells[c]))
  }

  function EraseCells(s: Screen, row: int, first: int, last: int): (r: Screen)
    requires s.WellFormed()
    ensures r.WellFormed() && r.SameGeometry(s) && r.saved == s.saved
  {
    if 0 <= row < s.rows then WithRow(s, row, EraseIn(s.grid[row], first, last, s.here.pen.bg)) else s
  }

  /** Whole rows from first up to, not including, end. */
  function EraseRows(s: Screen, first: int, end: int): (r: Screen)
    requires s.WellFormed() && 0 <= first && end <= s.rows
    ensures r.WellFormed() && r.SameGeometry(s) && r.saved == s.saved
  {
    s.(grid := seq(|s.grid|, i requires 0 <= i < |s.grid| =>
      if first <= i < end then EraseIn(s.grid[i], 0, s.cols - 1, s.here.pen.bg) else s.grid[i]))
  }

  function EraseDisplay(s: Screen, mode: int): (r: Screen)
    requires s.WellFormed()
    ensures r.WellFormed() && r.SameGeometry(s) && r.saved == s.saved
  {
    match mode
    case 0 => EraseRows(EraseCells(s, s.here.row, s.here.col, s.cols - 1), s.here.row + 1, s.rows)
    case 1 => EraseRows(EraseCells(s, s.here.row, 0, s.here.col), 0, s.here.row)
    case 2 => EraseRows(s, 0, s.rows)
    case 3 => EraseRows(s.(scrollback := [], viewport := 0), 0, s.rows)
    case _ => s
  }

  function EraseInLine(s: Screen, mode: int): (r: Screen)
    requires s.WellFormed()
    ensures r.WellFormed() && r.SameGeometry(s) && r.saved == s.saved
  {
    match mode
    case 0 => EraseCells(s, s.here.row, s.here.col, s.cols - 1)
    case 1 => EraseCells(s, s.here.row, 0, s.here.col)
    case 2 => EraseCells(s, s.here.row, 0, s.cols - 1)
    case _ => s
  }

  /** Cells from col on move right by count; the gap is erased. */
  function InsertIn(l: Line, col: nat, count: int, bg: nat): (r: Line)
    requires col <= |l.cells| && count >= 1
    ensures |r.cells| == |l.cells|
  {
    l.(cells := seq(|l.cells|, k requires 0 <= k < |l.cells| =>
      if k < col then l.cells[k] else if k < col + count then Erased(bg) else l.cells[k - count]))
  }

  /** Cells after the deleted ones move left; the freed cells at the end are erased. */
  function DeleteIn(l: Line, col: nat, count: int, bg: nat): (r: Line)
    requires col <= |l.cells| && count >= 1
    ensures |r.cells| == |l.cells|
  {
    l.(cells := seq(|l.cells|, k requires 0 <= k < |l.cells| =>
      if k < col then l.cells[k] else if k + count < |l.cells| then l.cells[k + count] else Erased(bg)))
  }

  function InsertChars(s: Screen, count: int): (r: Screen)
    requires s.WellFormed() && count >= 1
    ensures r.WellFormed() && r.SameGeometry(s) && r.saved == s.saved
  {
    WithRow(s, s.here.row, InsertIn(s.grid[s.here.row], s.here.col, count, s.here.pen.bg))
  }

  function DeleteChars(s: Screen, count: int): (r: Screen)
    requires s.WellFormed() && count >= 1
    ensures r.WellFormed() && r.SameGeometry(s) && r.saved == s.saved
  {
    WithRow(s, s.here.row, DeleteIn(s.grid[s.here.row], s.here.col, count, s.here.pen.bg))
  }

  function InsertLines(s: Screen, count: int): (r: Screen)
    requires s.WellFormed()
    ensures r.WellFormed() && r.SameGeometry(s) && r.saved == s.saved
  {
    if s.region.top <= s.here.row <= s.region.bottom then ScrollDown(s, s.here.row, s.region.bottom, count) else s
  }

  function DeleteLines(s: Screen, count: int): (r: Screen)
    requires s.WellFormed()
    ensures r.WellFormed() && r.SameGeometry(s) && r.saved == s.saved
  {
    if s.region.top <= s.here.row <= s.region.bottom then ScrollUp(s, s.here.row, s.region.bottom, count) else s
  }

  // ---------- the pen ----------

  function ParamValue(ps: seq<Param>, i: int, default: int): int {
    if 0 <= i < |ps| && ps[i].value >= 0 then ps[i].value else default
  }

  function Rgb(r: int, g: int, b: int): nat {
    COLOR_TRUECOLOR + r % 0x100 * 0x1_0000 + g % 0x100 * 0x100 + b % 0x100
  }

  /** An extended color at parameter i, if complete, and how many parameters after i it takes. */
  function ExtendedColor(ps: seq<Param>, i: nat, prior: nat): (r: (nat, nat))
    requires i < |ps|
  {
    var sub := ps[i].sub;
    if sub != [] then
      if sub[0] == 2 && |sub| >= 4 then
        var at := if |sub| >= 5 then 2 else 1;
        (Rgb(Max(0, sub[at]), Max(0, sub[at + 1]), Max(0, sub[at + 2])), 0)
      else if sub[0] == 5 && |sub| >= 2 then (Max(0, sub[1]) % 0x100, 0)
      else (prior, 0)
    else
      var mode := ParamValue(ps, i + 1, 0);
      if mode == 5 && i + 2 < |ps| then (ParamValue(ps, i + 2, 0) % 0x100, 2)
      else if mode == 2 && i + 4 < |ps| then
        (Rgb(ParamValue(ps, i + 2, 0), ParamValue(ps, i + 3, 0), ParamValue(ps, i + 4, 0)), 4)
      else (prior, 0)
  }

  function Underlined(attrs: nat, sub: seq<int>): nat {
    var none := ClearBit(ClearBit(ClearBit(attrs, 8), 16), 32);
    if sub == [] then SetBit(none, 8)
    else match sub[0]
      case 0 => none
      case 2 => SetBit(none, 16)
      case 3 => SetBit(none, 32)
      case _ => SetBit(none, 8)
  }

  /** Parameter i of a graphic-rendition sequence: the pen after it and the index to go on from. */
  function SgrStep(pen: Pen, ps: seq<Param>, i: nat): (r: (Pen, nat))
    requires i < |ps|
    ensures r.1 > i
  {
    var p := ParamValue(ps, i, 0);
    if p == 38 then var (c, n) := ExtendedColor(ps, i, pen.fg); (pen.(fg := c), i + 1 + n)
    else if p == 48 then var (c, n) := ExtendedColor(ps, i, pen.bg); (pen.(bg := c), i + 1 + n)
    else if p == 58 then (pen, i + 1 + ExtendedColor(ps, i, 0).1)
    else
      var pen' :=
        if p == 0 then PLAIN
        else if p == 1 then pen.(attrs := SetBit(pen.attrs, 1))
        else if p == 2 then pen.(attrs := SetBit(pen.attrs, 2))
        else if p == 3 then pen.(attrs := SetBit(pen.attrs, 4))
        else if p == 4 then pen.(attrs := Underlined(pen.attrs, ps[i].sub))
        else if p == 7 then pen.(attrs := SetBit(pen.attrs, 128))
        else if p == 8 then pen.(attrs := SetBit(pen.attrs, 256))
        else if p == 9 then pen.(attrs := SetBit(pen.attrs, 64))
        else if p == 21 then pen.(attrs := ClearBit(pen.attrs, 1))
        else if p == 22 then pen.(attrs := ClearBit(ClearBit(pen.attrs, 1), 2))
        else if p == 23 then pen.(attrs := ClearBit(pen.attrs, 4))
        else if p == 24 then pen.(attrs := ClearBit(ClearBit(ClearBit(pen.attrs, 8), 16), 32))
        else if p == 27 then pen.(attrs := ClearBit(pen.attrs, 128))
        else if p == 28 then pen.(attrs := ClearBit(pen.attrs, 256))
        else if p == 29 then pen.(attrs := ClearBit(pen.attrs, 64))
        else if 30 <= p <= 37 then pen.(fg := p - 30)
        else if p == 39 then pen.(fg := COLOR_DEFAULT)
        else if 40 <= p <= 47 then pen.(bg := p - 40)
        else if p == 49 then pen.(bg := COLOR_DEFAULT)
        else if 90 <= p <= 97 then pen.(fg := p - 90 + 8)
        else if 100 <= p <= 107 then pen.(bg := p - 100 + 8)
        else pen;
      (pen', i + 1)
  }

  function SgrFrom(pen: Pen, ps: seq<Param>, i: nat): Pen
    decreases |ps| - i
  {
    if i >= |ps| then pen else SgrFrom(SgrStep(pen, ps, i).0, ps, SgrStep(pen, ps, i).1)
  }

  function Sgr(pen: Pen, ps: seq<Param>): Pen {
    if ps == [] then PLAIN else SgrFrom(pen, ps, 0)
  }

  // ---------- modes ----------

  /** The saved cursor becomes the cursor, unclamped. */
  function RestorePosition(s: Screen): (r: Screen)
    requires s.Framed()
    ensures r.Framed() && r.SameGeometry(s) && r.saved == s.saved == r.here
  {
    s.(here := s.saved)
  }

  /** The cursor is saved; the alternate rows become the active ones. */
  function SwitchToAlternate(s: Screen): (r: Screen)
    requires s.Framed()
    ensures r.Framed() && r.SameGeometry(s) && r.saved == s.here == r.here
  {
    var p := s.(saved := s.here, keyboard := s.keyboard.(saved := s.keyboard.stack));
    if s.usingAlt then p
    else p.(grid := s.alt, alt := s.grid, usingAlt := true, savedViewport := s.viewport, viewport := 0)
  }

  function ClearRows(s: Screen): (r: Screen)
    requires s.Framed()
    ensures r.Framed() && r.SameGeometry(s) && r.saved == s.saved && r.here == s.here
  {
    s.(grid := BlankGrid(|s.grid|, s.cols))
  }

  function EnterAlternate(s: Screen): (r: Screen)
    requires s.Framed()
    ensures r.WellFormed() && r.SameGeometry(s) && r.saved == s.here
  {
    SetCursor(ClearRows(SwitchToAlternate(s)), 0, 0)
  }

  function BackToMain(s: Screen): (r: Screen)
    requires s.Framed()
    ensures r.Framed() && r.SameGeometry(s) && r.saved == s.saved && r.here == s.here
  {
    if s.usingAlt
    then s.(grid := s.alt, alt := s.grid, usingAlt := false, viewport := s.savedViewport, savedViewport := 0)
    else s
  }

  function LeaveAlternate(s: Screen): (r: Screen)
    requires s.Framed()
    ensures r.Framed() && r.SameGeometry(s) && r.saved == s.saved == r.here
  {
    var p := RestorePosition(BackToMain(s));
    p.(keyboard := Keyboard(p.keyboard.saved, []))
  }

  function SetMode(s: Screen, mode: int, on: bool, decPrivate: bool): (r: Screen)
    requires s.Framed()
    ensures r.Framed() && r.SameGeometry(s)
    ensures on ==> (s.WellFormed() ==> r.WellFormed()) && (r.saved == s.saved || r.saved == s.here)
    ensures !on ==> r.saved == s.saved && r.here == if decPrivate && mode == 1049 then s.saved else s.here
  {
    if !decPrivate then s
    else match mode
      case 1 => s.(modes := s.modes.(appCursor := on))
      case 12 => s.(modes := s.modes.(cursorBlink := on))
      case 25 => s.(modes := s.modes.(cursorVisible := on))
      case 1000 => s.(modes := s.modes.(mouse := if on then 1000 else 0))
      case 1002 => s.(modes := s.modes.(mouse := if on then 1002 else 0))
      case 1003 => s.(modes := s.modes.(mouse := if on then 1003 else 0))
      case 1004 => s.(modes := s.modes.(focusEvents := on))
      case 1006 => s.(modes := s.modes.(sgrMouse := on))
      case 1049 => if on then EnterAlternate(s) else LeaveAlternate(s)
      case 2004 => s.(modes := s.modes.(bracketedPaste := on))
      case 2026 => s.(modes := s.modes.(synchronized := on))
      case 2027 => s.(modes := s.modes.(graphemes := on))
      case _ => s
  }

  /** Mode 1049 is among the first n parameters. */
  predicate Lists1049(ps: seq<Param>, n: nat)
    requires n <= |ps|
  {
    exists i | 0 <= i < n :: ParamValue(ps, i, 0) == 1049
  }

  function SetModes(s: Screen, ps: seq<Param>, n: nat, on: bool, decPrivate: bool): (r: Screen)
    requires s.Framed() && n <= |ps|
    ensures r.Framed() && r.SameGeometry(s)
    ensures on && s.WellFormed() ==> r.WellFormed() && (s.InRange(s.saved) ==> r.InRange(r.saved))
    ensures !on ==> r.saved == s.saved && r.here == if decPrivate && Lists1049(ps, n) then s.saved else s.here
  {
    if n == 0 then s
    else SetMode(SetModes(s, ps, n - 1, on, decPrivate), ParamValue(ps, n - 1, 0), on, decPrivate)
  }

  // ---------- the handler calls ----------

  function Translate(c: Charset, cp: nat): nat {
    var charset := if c.gl == 0 then c.g0 else c.g1;
    if charset == 1 && 0x60 <= cp <= 0x7E then DEC_SPECIAL[cp - 0x60] else cp
  }

  const DEC_SPECIAL: seq<nat> := [
    0x25C6, 0x2592, 0x2409, 0x240C, 0x240D, 0x240A, 0x00B0, 0x00B1,
    0x2424, 0x240B, 0x2518, 0x2510, 0x250C, 0x2514, 0x253C, 0x23BA,
    0x23BB, 0x2500, 0x23BC, 0x23BD, 0x251C, 0x2524, 0x2534, 0x252C,
    0x2502, 0x2264, 0x2265, 0x03C0, 0x2260, 0x00A3, 0x00B7]

  function PrintChar(s: Screen, cp: nat): (r: Screen)
    requires s.WellFormed()
    ensures r.WellFormed() && r.SameGeometry(s) && r.saved == s.saved
  {
    var t := Translate(s.here.charset, cp);
    PutChar(s.(lastPrinted := t), t)
  }

  function ExecuteCode(s: Screen, code: byte): (r: Screen)
    requires s.WellFormed()
    ensures r.WellFormed() && r.SameGeometry(s) && r.saved == s.saved
  {
    match code
    case 0x08 => if s.here.col > 0 then s.(here := s.here.(col := s.here.col - 1)) else s
    case 0x09 => s.(here := s.here.(col := Min((s.here.col / 8 + 1) * 8, s.cols - 1)))
    case 0x0A => NewLine(s)
    case 0x0B => NewLine(s)
    case 0x0C => NewLine(s)
    case 0x0D => s.(here := s.here.(col := 0))
    case 0x0E => s.(here := s.here.(charset := s.here.charset.(gl := 1)))
    case 0x0F => s.(here := s.here.(charset := s.here.charset.(gl := 0)))
    case _ => s
  }

  function KittyKeyboard(s: Screen, ps: seq<Param>, intermediate: byte): (r: Screen)
    requires s.WellFormed()
    ensures r.WellFormed() && r.SameGeometry(s) && r.saved == s.saved
  {
    var stack := s.keyboard.stack;
    if intermediate == '>' as int then s.(keyboard := s.keyboard.(stack := stack + [ParamValue(ps, 0, 0)]))
    else if intermediate == '<' as int then
      s.(keyboard := s.keyboard.(stack := stack[..|stack| - Min(Max(1, ParamValue(ps, 0, 1)), |stack|)]))
    else s
  }

  function SetRegion(s: Screen, ps: seq<Param>): (r: Screen)
    requires s.WellFormed()
    ensures r.WellFormed() && r.SameGeometry(s) && r.saved == s.saved
  {
    SetCursor(s.(region := Region(Max(0, ParamValue(ps, 0, 1) - 1),
                                  Min(s.rows - 1, ParamValue(ps, 1, s.rows) - 1))), 0, 0)
  }

  /** Cursor movement; the default of every parameter is 1 and 0 counts as 1 in relative moves. */
  function Move(s: Screen, final: char, ps: seq<Param>): (r: Screen)
    requires s.WellFormed()
    ensures r.WellFormed() && r.SameGeometry(s) && r.saved == s.saved
  {
    var p := ParamValue(ps, 0, 1);
    var n := Max(1, p);
    var (row, col) := (s.here.row, s.here.col);
    match final
    case 'A' => SetCursor(s, row - n, col)
    case 'B' => SetCursor(s, row + n, col)
    case 'C' => SetCursor(s, row, col + n)
    case 'D' => SetCursor(s, row, col - n)
    case 'E' => SetCursor(s, row + n, 0)
    case 'F' => SetCursor(s, row - n, 0)
    case 'G' => SetCursor(s, row, p - 1)
    case 'd' => SetCursor(s, p - 1, col)
    case _ => SetCursor(s, p - 1, ParamValue(ps, 1, 1) - 1)
  }

  /** The call makes the saved cursor the cursor: ESC 8, or leaving mode 1049. */
  predicate Restores(c: Call) {
    match c
    case Esc(intermediate, final) => intermediate == 0 && final as char == '8'
    case Csi(ps, intermediate, final) => intermediate == '?' as int && final as char == 'l' && Lists1049(ps, |ps|)
    case _ => false
  }

  function CsiDispatch(s: Screen, ps: seq<Param>, intermediate: byte, final: byte): (r: Screen)
    requires s.WellFormed()
    ensures r.Framed() && r.SameGeometry(s) && (s.InRange(s.saved) ==> r.InRange(r.saved))
    ensures r.WellFormed() <==> (Restores(Csi(ps, intermediate, final)) ==> s.InRange(s.saved))
  {
    var n := Max(1, ParamValue(ps, 0, 1));
    match final as char
    case 'A' => Move(s, 'A', ps)
    case 'B' => Move(s, 'B', ps)
    case 'C' => Move(s, 'C', ps)
    case 'D' => Move(s, 'D', ps)
    case 'E' => Move(s, 'E', ps)
    case 'F' => Move(s, 'F', ps)
    case 'G' => Move(s, 'G', ps)
    case 'd' => Move(s, 'd', ps)
    case 'H' => Move(s, 'H', ps)
    case 'f' => Move(s, 'f', ps)
    case 'J' => EraseDisplay(s, ParamValue(ps, 0, 0))
    case 'K' => EraseInLine(s, ParamValue(ps, 0, 0))
    case 'L' => InsertLines(s, n)
    case 'M' => DeleteLines(s, n)
    case 'P' => DeleteChars(s, n)
    case 'S' => ScrollUp(s, s.region.top, s.region.bottom, n)
    case 'T' => ScrollDown(s, s.region.top, s.region.bottom, n)
    case 'X' => EraseCells(s, s.here.row, s.here.col, Min(s.here.col + n - 1, s.cols - 1))
    case '@' => InsertChars(s, n)
    case 'b' => if s.lastPrinted != 0 then PutChars(s, s.lastPrinted, n) else s
    case 'h' => SetModes(s, ps, |ps|, true, intermediate == '?' as int)
    case 'l' => SetModes(s, ps, |ps|, false, intermediate == '?' as int)
    case 'm' => if intermediate == 0 then s.(here := s.here.(pen := Sgr(s.here.pen, ps))) else s
    case 'r' => SetRegion(s, ps)
    case 'u' => KittyKeyboard(s, ps, intermediate)
    case _ => s
  }

  function EscDispatch(s: Screen, intermediate: byte, final: byte): (r: Screen)
    requires s.WellFormed()
    ensures r.Framed() && r.SameGeometry(s) && (s.InRange(s.saved) ==> r.InRange(r.saved))
    ensures r.WellFormed() <==> (Restores(Esc(intermediate, final)) ==> s.InRange(s.saved))
  {
    if intermediate == 0 then
      match final as char
      case '7' => s.(saved := s.here)
      case '8' => RestorePosition(s)
      case 'D' => NewLine(s)
      case 'E' => NewLine(s.(here := s.here.(col := 0)))
      case 'M' => ReverseIndex(s)
      case 'c' => Fresh(s.cols, s.rows, s.limit)
      case _ => s
    else
      var special := if final == '0' as int then 1 else 0;
      if intermediate == '(' as int then s.(here := s.here.(charset := s.here.charset.(g0 := special)))
      else if intermediate == ')' as int then s.(here := s.here.(charset := s.here.charset.(g1 := special)))
      else s
  }

  /** OSC 8 hyperlinks; link 0 means none, so the 16-bit counter skips it. */
  function Hyperlink(l: Links, payload: seq<byte>): Links {
    var semi := FindSemicolon(payload);
    if semi == |payload| then l
    else
      var uri := payload[semi + 1..];
      if uri == [] then l.(current := 0)
      else
        var next := (l.next + 1) % 0x1_0000;
        Links(l.uris[l.next := uri], l.next, if next == 0 then 1 else next)
  }

  function OscDispatch(s: Screen, command: nat, payload: seq<byte>): (r: Screen)
    requires s.WellFormed()
    ensures r.WellFormed() && r.SameGeometry(s) && r.saved == s.saved
  {
    if command == 8 then s.(links := Hyperlink(s.links, payload))
    else if command == 133 && payload != [] && (payload[0] == 'A' as int || payload[0] == 'C' as int) then
      WithRow(s, s.here.row, s.grid[s.here.row].(zone := payload[0]))
    else s
  }

  /** What one call does. It leaves the cursor on the screen, unless it restores one that is not. */
  function Apply(s: Screen, c: Call): (r: Screen)
    requires s.WellFormed()
    ensures r.Framed() && r.SameGeometry(s) && (s.InRange(s.saved) ==> r.InRange(r.saved))
    ensures r.WellFormed() <==> (Restores(c) ==> s.InRange(s.saved))
  {
    match c
    case Print(cp) => PrintChar(s, cp)
    case Execute(code) => ExecuteCode(s, code)
    case Csi(ps, intermediate, final) => CsiDispatch(s, ps, intermediate, final)
    case Osc(command, payload) => OscDispatch(s, command, payload)
    case Esc(intermediate, final) => EscDispatch(s, intermediate, final)
    case _ => s
  }

  /** No call of the run restores a cursor that is not on the screen. */
  predicate Ready(s: Screen, calls: seq<Call>)
    requires s.WellFormed()
    decreases |calls|
  {
    calls == [] || (Apply(s, calls[0]).WellFormed() && Ready(Apply(s, calls[0]), calls[1..]))
  }

  function ApplyAll(s: Screen, calls: seq<Call>): (r: Screen)
    requires s.WellFormed() && Ready(s, calls)
    ensures r.WellFormed() && r.SameGeometry(s) && (s.InRange(s.saved) ==> r.InRange(r.saved))
    decreases |calls|
  {
    if calls == [] then s else ApplyAll(Apply(s, calls[0]), calls[1..])
  }

  /** Once the saved cursor is on the screen, everything keeps it there, so that nothing can go wrong. */
  lemma {:induction false} SavedInRangeIsReady(s: Screen, calls: seq<Call>)
    requires s.WellFormed() && s.InRange(s.saved)
    ensures Ready(s, calls)
    decreases |calls|
  {
    hide Apply;
    if calls != [] { SavedInRangeIsReady(Apply(s, calls[0]), calls[1..]); }
  }
}
