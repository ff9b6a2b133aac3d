/** Character cells and lines. */
module Cells {
  import opened Bytes

  const COLOR_TRUECOLOR: nat := 0x100_0000
  const COLOR_DEFAULT: nat := 0x200_0000
  const ATTR_WRAP: nat := 0x800
  const ATTR_HYPERLINK: nat := 0x1000

  /** Bit tests on attribute words; mask is a power of two. */
  predicate HasBit(word: nat, mask: nat)
    requires mask > 0
  {
    word / mask % 2 == 1
  }

  function SetBit(word: nat, mask: nat): nat
    requires mask > 0
  {
    if HasBit(word, mask) then word else word + mask
  }

  function ClearBit(word: nat, mask: nat): nat
    requires mask > 0
  {
    if HasBit(word, mask) && word >= mask then word - mask else word
  }

  datatype Cell = Cell(codepoint: nat, fg: nat, bg: nat, attrs: nat, link: nat)

  const BLANK := Cell(' ' as nat, COLOR_DEFAULT, COLOR_DEFAULT, 0, 0)

  function Erased(bg: nat): Cell {
    BLANK.(bg := bg)
  }

  predicate DefaultSpace(c: Cell) {
    c.codepoint == ' ' as nat && HasBit(c.fg, COLOR_DEFAULT) && HasBit(c.bg, COLOR_DEFAULT) && c.attrs == 0
  }

  /** A row of cells; wrapped says that its text continues on the next row. */
  datatype Line = Line(cells: seq<Cell>, wrapped: bool, zone: nat)

  function Blanks(n: nat): (s: seq<Cell>)
    ensures |s| == n && forall i | 0 <= i < n :: s[i] == BLANK
  {
    seq(n, i => BLANK)
  }

  function BlankLine(cols: nat): Line {
    Line(Blanks(cols), false, 0)
  }

  function BlankGrid(rows: nat, cols: nat): (g: seq<Line>)
    ensures |g| == rows && forall i | 0 <= i < rows :: g[i] == BlankLine(cols)
  {
    seq(rows, i => BlankLine(cols))
  }

  /** std::vector resize: truncate or pad with default cells. */
  function Resized(l: Line, cols: nat): Line {
    l.(cells := if cols <= |l.cells| then l.cells[..cols] else l.cells + Blanks(cols - |l.cells|))
  }
}
