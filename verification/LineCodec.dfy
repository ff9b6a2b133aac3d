/** Run-length encoding of one line, shared by snapshots and scrollback replies. */
module LineCodec {
  import opened Bytes
  import opened Cells
  import opened Wire
  import opened Wrappers

  const LINE_HEAD: seq<nat> := [1, 4, 2]          // wrapped, zone, number of cells
  const RUN: seq<nat> := [2, 4, 4, 4, 2, 2]       // length, then the cell
  const MAX_CELLS: nat := 4096

  predicate FitsCell(c: Cell) {
    c.codepoint < Range(4) && c.fg < Range(4) && c.bg < Range(4) && c.attrs < Range(2) && c.link < Range(2)
  }

  predicate FitCells(cells: seq<Cell>) {
    forall i | 0 <= i < |cells| :: FitsCell(cells[i])
  }

  predicate FitsLine(l: Line) {
    |l.cells| <= MAX_CELLS && l.zone < Range(4) && FitCells(l.cells)
  }

  function Repeat(c: Cell, n: nat): (s: seq<Cell>)
    ensures |s| == n
  {
    seq(n, i => c)
  }

  /** How many cells from the front are the same. */
  function RunLength(cells: seq<Cell>): (n: nat)
    requires cells != []
    ensures 1 <= n <= |cells| && cells[..n] == Repeat(cells[0], n)
    ensures n < |cells| ==> cells[n] != cells[0]
  {
    if |cells| > 1 && cells[1] == cells[0] then
      var n := RunLength(cells[1..]);
      assert cells[..n + 1] == [cells[0]] + cells[1..][..n];
      n + 1
    else 1
  }

  function RunFields(run: nat, c: Cell): (v: seq<nat>)
    ensures |v| == |RUN|
  {
    [run, c.codepoint, c.fg, c.bg, c.attrs, c.link]
  }

  function EncodeRuns(cells: seq<Cell>): seq<byte> {
    if cells == [] then []
    else PutFields(RUN, RunFields(RunLength(cells), cells[0])) + EncodeRuns(cells[RunLength(cells)..])
  }

  function EncodeLine(l: Line): seq<byte> {
    PutFields(LINE_HEAD, [if l.wrapped then 1 else 0, l.zone, |l.cells|]) + EncodeRuns(l.cells)
  }

  /** Runs until exactly left more cells are there. */
  function DecodeRuns(i: Input, left: nat): (r: Option<(Input, seq<Cell>)>)
    ensures r.Some? ==> |r.value.1| == left && |r.value.0.rest| <= |i.rest|
    ensures r.Some? && i.ok ==> r.value.0.ok
    decreases left
  {
    if left == 0 then Some((i, []))
    else
      var (j, v) := GetFields(i, RUN);
      if !j.ok || v[0] == 0 || v[0] > left then None
      else match DecodeRuns(j, left - v[0])
        case None => None
        case Some((k, cells)) => Some((k, Repeat(Cell(v[1], v[2], v[3], v[4], v[5]), v[0]) + cells))
  }

  function DecodeLine(i: Input): (r: Option<(Input, Line)>)
    ensures r.Some? ==> |r.value.0.rest| <= |i.rest| && r.value.0.ok
  {
    var (j, v) := GetFields(i, LINE_HEAD);
    if !j.ok || v[2] > MAX_CELLS then None
    else match DecodeRuns(j, v[2])
      case None => None
      case Some((k, cells)) => Some((k, Line(cells, v[0] != 0, v[1])))
  }

  lemma FitsRun(n: nat, c: Cell)
    requires n < Range(2) && FitsCell(c)
    ensures Fits(RUN, RunFields(n, c))
  {
  }

  lemma {:induction false} RunsRoundTrip(cells: seq<Cell>, rest: seq<byte>)
    requires |cells| < Range(2) && FitCells(cells)
    ensures DecodeRuns(Input(EncodeRuns(cells) + rest, true), |cells|) == Some((Input(rest, true), cells))
    decreases |cells|
  {
    hide *;
    if cells == [] {
      NoRunsAtAll(rest);
    } else {
      var n := RunLength(cells);
      FirstRun(cells, rest, n, cells[n..]);
      RunsRoundTrip(cells[n..], rest);
      DecodeFirstRun(Input(EncodeRuns(cells) + rest, true), Input(EncodeRuns(cells[n..]) + rest, true), cells[0], n, |cells|);
      RunAndRest(cells, n);
    }
  }

  lemma NoRunsAtAll(rest: seq<byte>)
    ensures EncodeRuns([]) + rest == rest && DecodeRuns(Input(rest, true), 0) == Some((Input(rest, true), []))
  {
  }

  lemma RunAndRest(cells: seq<Cell>, n: nat)
    requires 1 <= n <= |cells| && cells[..n] == Repeat(cells[0], n)
    ensures cells == Repeat(cells[0], n) + cells[n..]
  {
    hide Repeat;
  }

  /** Reading one run takes off the first run written. */
  lemma FirstRun(cells: seq<Cell>, rest: seq<byte>, n: nat, tail: seq<Cell>)
    requires cells != [] && |cells| < Range(2) && FitCells(cells) && n == RunLength(cells) && tail == cells[n..]
    ensures FitCells(tail)
    ensures GetFields(Input(EncodeRuns(cells) + rest, true), RUN) == (Input(EncodeRuns(tail) + rest, true), RunFields(n, cells[0]))
  {
    var v := RunFields(n, cells[0]);
    assert EncodeRuns(cells) == PutFields(RUN, v) + EncodeRuns(tail);
    assert FitsCell(cells[0]);
    hide *;
    Associative(PutFields(RUN, v), EncodeRuns(tail), rest);
    FitsRun(n, cells[0]);
    FieldsRoundTrip(RUN, v, EncodeRuns(tail) + rest);
  }

  /** A run at the front, then the rest of the runs. */
  lemma DecodeFirstRun(i: Input, j: Input, c: Cell, n: nat, left: nat)
    requires GetFields(i, RUN) == (j, RunFields(n, c)) && j.ok && 1 <= n <= left
    ensures DecodeRuns(i, left) == match DecodeRuns(j, left - n)
                                   case None => None
                                   case Some((k, cells)) => Some((k, Repeat(c, n) + cells))
  {
    hide GetFields, Repeat;
  }

  lemma HeadFits(l: Line, v: seq<nat>)
    requires FitsLine(l) && v == [if l.wrapped then 1 else 0, l.zone, |l.cells|]
    ensures Fits(LINE_HEAD, v) && |l.cells| < Range(2)
  {
    RangeValues();
    hide FitsCell;
  }

  /** Every line that fits the format is restored, and nothing behind it is consumed. */
  lemma LineRoundTrip(l: Line, rest: seq<byte>)
    requires FitsLine(l)
    ensures DecodeLine(Input(EncodeLine(l) + rest, true)) == Some((Input(rest, true), l))
  {
    var v := [if l.wrapped then 1 else 0, l.zone, |l.cells|];
    HeadFits(l, v);
    hide PutFields, GetFields, Range, Fits, FitsCell, EncodeRuns, DecodeRuns;
    Associative(PutFields(LINE_HEAD, v), EncodeRuns(l.cells), rest);
    FieldsRoundTrip(LINE_HEAD, v, EncodeRuns(l.cells) + rest);
    RunsRoundTrip(l.cells, rest);
  }

  // ---------- several lines ----------

  function EncodeLines(lines: seq<Line>): seq<byte> {
    if lines == [] then [] else EncodeLines(lines[..|lines| - 1]) + EncodeLine(lines[|lines| - 1])
  }

  function DecodeLines(i: Input, n: nat): (r: Option<(Input, seq<Line>)>)
    ensures r.Some? ==> |r.value.1| == n && |r.value.0.rest| <= |i.rest|
    decreases n
  {
    if n == 0 then Some((i, []))
    else match DecodeLine(i)
      case None => None
      case Some((j, l)) =>
        match DecodeLines(j, n - 1)
        case None => None
        case Some((k, lines)) => Some((k, [l] + lines))
  }

  predicate FitLines(lines: seq<Line>) {
    forall i | 0 <= i < |lines| :: FitsLine(lines[i])
  }

  lemma {:induction false} EncodeLinesFront(lines: seq<Line>)
    requires lines != []
    ensures EncodeLines(lines) == EncodeLine(lines[0]) + EncodeLines(lines[1..])
    decreases |lines|
  {
    hide EncodeLine;
    var init, last := lines[..|lines| - 1], lines[|lines| - 1];
    if init == [] {
      assert lines[1..] == [] && EncodeLines(init) == [];
    } else {
      EncodeLinesFront(init);
      assert lines[1..][..|lines| - 2] == init[1..];
    }
  }

  lemma {:induction false} LinesRoundTrip(lines: seq<Line>, rest: seq<byte>)
    requires FitLines(lines)
    ensures DecodeLines(Input(EncodeLines(lines) + rest, true), |lines|) == Some((Input(rest, true), lines))
    decreases |lines|
  {
    hide EncodeLine, DecodeLine, FitsLine;
    if lines == [] {
      assert EncodeLines(lines) + rest == rest;
    } else {
      var tail := lines[1..];
      EncodeLinesFront(lines);
      assert EncodeLine(lines[0]) + EncodeLines(tail) + rest == EncodeLine(lines[0]) + (EncodeLines(tail) + rest);
      LineRoundTrip(lines[0], EncodeLines(tail) + rest);
      LinesRoundTrip(tail, rest);
      assert lines == [lines[0]] + tail;
    }
  }

  // ---------- the program ----------

  method WriteFields(w: Writer, widths: seq<nat>, values: seq<nat>)
    requires |widths| == |values|
    modifies w
    ensures w.buf == old(w.buf) + PutFields(widths, values)
  {
    ghost var start := w.buf;
    var i := 0;
    while i < |widths|
      invariant 0 <= i <= |widths|
      invariant start + PutFields(widths, values) == w.buf + PutFields(widths[i..], values[i..])
    {
      assert widths[i..][1..] == widths[i + 1..] && values[i..][1..] == values[i + 1..];
      w.Int(values[i], widths[i]);
      i := i + 1;
    }
  }

  method ReadFields(r: Reader, widths: seq<nat>) returns (values: seq<nat>)
    requires r.Valid()
    modifies r
    ensures r.Valid() && r.Left() == GetFields(old(r.Left()), widths).0
    ensures values == GetFields(old(r.Left()), widths).1
  {
    ghost var start := r.Left();
    values := [];
    var i := 0;
    while i < |widths|
      invariant 0 <= i <= |widths| && r.Valid()
      invariant GetFields(r.Left(), widths[i..]).0 == GetFields(start, widths).0
      invariant values + GetFields(r.Left(), widths[i..]).1 == GetFields(start, widths).1
    {
      assert widths[i..][1..] == widths[i + 1..];
      var v := r.Int(widths[i]);
      values := values + [v];
      i := i + 1;
    }
    assert widths[i..] == [];
  }

  method WriteLine(w: Writer, l: Line)
    modifies w
    ensures w.buf == old(w.buf) + EncodeLine(l)
  {
    hide PutFields, RunLength, EncodeRuns;
    WriteFields(w, LINE_HEAD, [if l.wrapped then 1 else 0, l.zone, |l.cells|]);
    ghost var start := w.buf;
    var i := 0;
    while i < |l.cells|
      invariant 0 <= i <= |l.cells|
      invariant start + EncodeRuns(l.cells) == w.buf + EncodeRuns(l.cells[i..])
    {
      var run := MeasureRun(l.cells, i);
      RunsOnward(l.cells, i);
      WriteFields(w, RUN, RunFields(run, l.cells[i]));
      i := i + run;
    }
    assert l.cells[i..] == [];
    NoRuns(l.cells[i..]);
    assert start + EncodeRuns(l.cells) == old(w.buf) + EncodeLine(l);
  }

  lemma NoRuns(cells: seq<Cell>)
    requires cells == []
    ensures EncodeRuns(cells) == []
  {
  }

  lemma RunsOnward(cells: seq<Cell>, i: nat)
    requires i < |cells|
    ensures var run := RunLength(cells[i..]);
            EncodeRuns(cells[i..]) == PutFields(RUN, RunFields(run, cells[i])) + EncodeRuns(cells[i + run..])
  {
    hide PutFields;
    assert cells[i..][RunLength(cells[i..])..] == cells[i + RunLength(cells[i..])..];
  }

  method MeasureRun(cells: seq<Cell>, i: nat) returns (run: nat)
    requires i < |cells|
    ensures run == RunLength(cells[i..])
  {
    ghost var n := RunLength(cells[i..]);
    ghost var all := cells[i..];
    run := 1;
    while i + run < |cells| && cells[i + run] == cells[i]
      invariant 1 <= run <= n
    {
      assert all[run] == cells[i + run];
      run := run + 1;
    }
  }

  method ReadLine(r: Reader) returns (ok: bool, l: Line)
    requires r.Valid()
    modifies r
    ensures r.Valid()
    ensures ok <==> DecodeLine(old(r.Left())).Some?
    ensures ok ==> r.Left() == DecodeLine(old(r.Left())).value.0 && l == DecodeLine(old(r.Left())).value.1
  {
    hide GetFields, DecodeRuns;
    l := BlankLine(0);
    var head := ReadFields(r, LINE_HEAD);
    if !r.ok || head[2] > MAX_CELLS { return false, l; }
    var cells;
    ok, cells := ReadRuns(r, head[2]);
    if ok { l := Line(cells, head[0] != 0, head[1]); }
  }

  method ReadRuns(r: Reader, n: nat) returns (ok: bool, cells: seq<Cell>)
    requires r.Valid() && r.ok
    modifies r
    ensures r.Valid()
    ensures ok <==> DecodeRuns(old(r.Left()), n).Some?
    ensures ok ==> r.Left() == DecodeRuns(old(r.Left()), n).value.0 && cells == DecodeRuns(old(r.Left()), n).value.1
  {
    hide GetFields;
    ghost var start := r.Left();
    cells := [];
    while |cells| < n
      invariant |cells| <= n && r.Valid() && r.ok
      invariant Prefixed([], DecodeRuns(start, n)) == Prefixed(cells, DecodeRuns(r.Left(), n - |cells|))
    {
      PrefixedByNothing(DecodeRuns(start, n));
      var v := ReadFields(r, RUN);
      if !r.ok || v[0] == 0 || |cells| + v[0] > n { return false, []; }
      ghost var c := Repeat(Cell(v[1], v[2], v[3], v[4], v[5]), v[0]);
      PrefixedTwice(cells, c, DecodeRuns(r.Left(), n - |cells| - v[0]));
      cells := cells + Repeat(Cell(v[1], v[2], v[3], v[4], v[5]), v[0]);
    }
    PrefixedByNothing(DecodeRuns(start, n));
    ok := true;
    assert cells + [] == cells;
  }

  /** A decoding result with what was decoded before it. */
  ghost function Prefixed<T>(before: seq<T>, r: Option<(Input, seq<T>)>): Option<(Input, seq<T>)> {
    match r
    case None => None
    case Some((i, more)) => Some((i, before + more))
  }

  lemma PrefixedByNothing<T>(r: Option<(Input, seq<T>)>)
    ensures Prefixed([], r) == r
  {
    if r.Some? { assert [] + r.value.1 == r.value.1; }
  }

  lemma PrefixedTwice<T>(a: seq<T>, b: seq<T>, r: Option<(Input, seq<T>)>)
    ensures Prefixed(a, Prefixed(b, r)) == Prefixed(a + b, r)
  {
    if r.Some? { assert a + (b + r.value.1) == a + b + r.value.1; }
  }

  method WriteLines(w: Writer, lines: seq<Line>)
    modifies w
    ensures w.buf == old(w.buf) + EncodeLines(lines)
  {
    ghost var start := w.buf;
    var i := 0;
    while i < |lines|
      invariant 0 <= i <= |lines| && w.buf == start + EncodeLines(lines[..i])
    {
      assert lines[..i + 1][..i] == lines[..i];
      WriteLine(w, lines[i]);
      i := i + 1;
    }
    assert lines[..i] == lines;
  }

  method ReadLines(r: Reader, n: nat) returns (ok: bool, lines: seq<Line>)
    requires r.Valid()
    modifies r
    ensures r.Valid()
    ensures ok <==> DecodeLines(old(r.Left()), n).Some?
    ensures ok ==> r.Left() == DecodeLines(old(r.Left()), n).value.0 && lines == DecodeLines(old(r.Left()), n).value.1
  {
    hide DecodeLine;
    ghost var start := r.Left();
    lines := [];
    while |lines| < n
      invariant |lines| <= n && r.Valid()
      invariant Prefixed([], DecodeLines(start, n)) == Prefixed(lines, DecodeLines(r.Left(), n - |lines|))
    {
      PrefixedByNothing(DecodeLines(start, n));
      var good, l := ReadLine(r);
      if !good { return false, []; }
      PrefixedTwice(lines, [l], DecodeLines(r.Left(), n - |lines| - 1));
      lines := lines + [l];
    }
    ok := true;
    assert lines + [] == lines;
    PrefixedByNothing(DecodeLines(start, n));
  }
}
