/** What re-wrapping keeps: the text of the buffer and the place of the cursor. */
module ReflowTheorems {
  import opened Bytes
  import opened Cells
  import opened Reflowing
  import S = Screens

  // ---------- text ----------

  function ClearAll(cells: seq<Cell>): (r: seq<Cell>)
    ensures |r| == |cells|
  {
    seq(|cells|, i requires 0 <= i < |cells| => ClearWrap(cells[i]))
  }

  function Trim(cells: seq<Cell>): seq<Cell> {
    TrimTo(cells, 0)
  }

  /** The text of the logical lines, the first one already holding the text acc. */
  function TextFrom(acc: seq<Cell>, open: bool, lines: seq<Line>): seq<seq<Cell>>
    decreases |lines|
  {
    if lines == [] then if open then [Trim(acc)] else []
    else
      var text := acc + ClearAll(lines[0].cells);
      if lines[0].wrapped then TextFrom(text, true, lines[1..])
      else [Trim(text)] + TextFrom([], false, lines[1..])
  }

  function Text(lines: seq<Line>): seq<seq<Cell>> {
    TextFrom([], false, lines)
  }

  predicate AllBlank(text: seq<seq<Cell>>) {
    forall i | 0 <= i < |text| :: text[i] == []
  }

  /** From line n on there are only blank lines; before that the two are equal. */
  predicate SameUpTo(a: seq<seq<Cell>>, b: seq<seq<Cell>>, n: nat) {
    n <= |a| && n <= |b| && a[..n] == b[..n] && AllBlank(a[n..]) && AllBlank(b[n..])
  }

  predicate AllDefault(cells: seq<Cell>) {
    forall i | 0 <= i < |cells| :: DefaultSpace(cells[i])
  }

  // ---------- trimming ----------

  lemma {:induction false} TrimDropsDefaults(a: seq<Cell>, b: seq<Cell>)
    requires AllDefault(b)
    ensures Trim(a + b) == Trim(a)
    decreases |b|
  {
    if b == [] {
      assert a + b == a;
    } else {
      var front := b[..|b| - 1];
      assert (a + b)[..|a + b| - 1] == a + front;
      TrimDropsDefaults(a, front);
    }
  }

  /** What TrimTo removes is default blanks. */
  lemma {:induction false} TrimToRest(cells: seq<Cell>, keep: int)
    ensures var r := TrimTo(cells, keep); AllDefault(cells[|r|..])
    decreases |cells|
  {
    if |cells| > keep && cells != [] && DefaultSpace(cells[|cells| - 1]) {
      var front := cells[..|cells| - 1];
      TrimToRest(front, keep);
      var r := TrimTo(front, keep);
      assert cells[|r|..] == front[|r|..] + [cells[|cells| - 1]];
    }
  }

  lemma ClearAllConcat(a: seq<Cell>, b: seq<Cell>)
    ensures ClearAll(a + b) == ClearAll(a) + ClearAll(b)
  {
  }

  lemma ClearIdempotent(c: Cell)
    ensures ClearWrap(ClearWrap(c)) == ClearWrap(c)
    ensures ClearWrap(SetWrap(c)) == ClearWrap(c)
  {
  }

  lemma ClearAllIgnoresWrap(cells: seq<Cell>)
    ensures ClearAll(ClearLast(cells)) == ClearAll(cells)
    ensures ClearAll(SetLast(cells)) == ClearAll(cells)
  {
    if cells != [] { ClearIdempotent(cells[|cells| - 1]); }
  }

  lemma ClearAllDefault(cells: seq<Cell>)
    requires AllDefault(cells)
    ensures ClearAll(cells) == cells
  {
  }

  lemma ClearedTrim(cells: seq<Cell>, keep: int)
    ensures Trim(ClearAll(TrimTo(cells, keep))) == Trim(ClearAll(cells))
  {
    hide *;
    var r := TrimTo(cells, keep);
    TrimToRest(cells, keep);
    var rest := cells[|r|..];
    assert cells == r + rest;
    ClearAllConcat(r, rest);
    ClearAllDefault(rest);
    TrimDropsDefaults(ClearAll(r), rest);
  }

  // ---------- grouping keeps text ----------

  function Texts(logical: seq<seq<Cell>>): (r: seq<seq<Cell>>)
    ensures |r| == |logical|
  {
    seq(|logical|, i requires 0 <= i < |logical| => Trim(ClearAll(logical[i])))
  }

  lemma TextsCons(first: seq<Cell>, rest: seq<seq<Cell>>)
    ensures Texts([first] + rest) == [Trim(ClearAll(first))] + Texts(rest)
  {
  }

  lemma {:induction false} GroupingKeepsText(acc: seq<Cell>, open: bool, line: nat, lines: seq<Line>, cursor: Place)
    ensures Texts(LogicalFrom(acc, open, line, lines, cursor)) == TextFrom(ClearAll(acc), open, lines)
    decreases |lines|
  {
    if lines == [] {
      if open { ClearedTrim(acc, Keep(line, cursor)); }
    } else {
      var cells := acc + lines[0].cells;
      ClearAllConcat(acc, lines[0].cells);
      if lines[0].wrapped {
        ClearAllIgnoresWrap(cells);
        GroupingKeepsText(ClearLast(cells), true, line, lines[1..], cursor);
      } else {
        ClearedTrim(cells, Keep(line, cursor));
        GroupingKeepsText([], false, line + 1, lines[1..], cursor);
        TextsCons(TrimTo(cells, Keep(line, cursor)), LogicalFrom([], false, line + 1, lines[1..], cursor));
        assert ClearAll([]) == [];
      }
    }
  }

  // ---------- wrapping keeps text ----------

  lemma TextStep(acc: seq<Cell>, open: bool, lines: seq<Line>)
    requires lines != []
    ensures TextFrom(acc, open, lines) ==
              if lines[0].wrapped then TextFrom(acc + ClearAll(lines[0].cells), true, lines[1..])
              else [Trim(acc + ClearAll(lines[0].cells))] + TextFrom([], false, lines[1..])
  {
  }

  lemma {:induction false} WrapKeepsText(acc: seq<Cell>, open: bool, cells: seq<Cell>, cols: nat, rest: seq<Line>)
    requires cols >= 1
    ensures TextFrom(acc, open, Wrap(cells, cols) + rest) == [Trim(acc + ClearAll(cells))] + TextFrom([], false, rest)
    decreases |cells|
  {
    hide ClearAll;
    var lines := Wrap(cells, cols) + rest;
    if |cells| <= cols {
      var blanks := Blanks(cols - |cells|);
      assert lines[0] == Line(cells + blanks, false, 0);
      assert lines[1..] == rest;
      hide Wrap;
      TextStep(acc, open, lines);
      hide TextFrom, TrimTo;
      ClearAllConcat(cells, blanks);
      ClearAllDefault(blanks);
      Associative(acc, ClearAll(cells), blanks);
      TrimDropsDefaults(acc + ClearAll(cells), blanks);
    } else {
      var first, tail := cells[..cols], cells[cols..];
      assert lines[0] == Line(SetLast(first), true, 0);
      assert lines[1..] == Wrap(tail, cols) + rest;
      hide Wrap;
      TextStep(acc, open, lines);
      hide TextFrom, TrimTo;
      ClearAllIgnoresWrap(first);
      WrapKeepsText(acc + ClearAll(first), true, tail, cols, rest);
      ClearAllConcat(first, tail);
      assert cells == first + tail;
      Associative(acc, ClearAll(first), ClearAll(tail));
    }
  }

  lemma TextsSnoc(init: seq<seq<Cell>>, last: seq<Cell>)
    ensures Texts(init + [last]) == Texts(init) + [Trim(ClearAll(last))]
  {
  }

  lemma {:induction false} WrapAllKeepsText(logical: seq<seq<Cell>>, cols: nat, rest: seq<Line>)
    requires cols >= 1
    ensures Text(WrapAll(logical, cols) + rest) == Texts(logical) + Text(rest)
    decreases |logical|
  {
    hide Wrap, TextFrom, Trim, Texts, ClearAll;
    if logical == [] {
      assert WrapAll(logical, cols) + rest == rest;
    } else {
      var init, last := logical[..|logical| - 1], logical[|logical| - 1];
      var w, all := Wrap(last, cols), WrapAll(init, cols);
      assert WrapAll(logical, cols) == all + w;
      hide WrapAll;
      assert all + w + rest == all + (w + rest);
      WrapAllKeepsText(init, cols, w + rest);
      WrapKeepsText([], false, last, cols, rest);
      assert [] + ClearAll(last) == ClearAll(last);
      assert logical == init + [last];
      TextsSnoc(init, last);
    }
  }

  // ---------- blank lines at the end ----------

  lemma {:induction false} BlankLineAtEnd(acc: seq<Cell>, open: bool, lines: seq<Line>, blank: Line)
    requires BlankBelow(blank) && (!open ==> acc == [])
    ensures var t := TextFrom(acc, open, lines);
            TextFrom(acc, open, lines + [blank]) == t || TextFrom(acc, open, lines + [blank]) == t + [[]]
    decreases |lines|
  {
    if lines == [] {
      ClearAllDefault(blank.cells);
      TrimDropsDefaults(acc, blank.cells);
      assert (lines + [blank])[1..] == [];
      assert Trim([]) == [];
    } else {
      assert (lines + [blank])[1..] == lines[1..] + [blank];
      var text := acc + ClearAll(lines[0].cells);
      if lines[0].wrapped {
        BlankLineAtEnd(text, true, lines[1..], blank);
      } else {
        BlankLineAtEnd([], false, lines[1..], blank);
      }
    }
  }

  /** The text is all of the other but for blank lines at its end. */
  predicate AllButBlank(t: seq<seq<Cell>>, text: seq<seq<Cell>>) {
    t <= text && AllBlank(text[|t|..])
  }

  lemma OneMoreBlank(t: seq<seq<Cell>>, text: seq<seq<Cell>>)
    requires AllButBlank(t, text)
    ensures AllButBlank(t, text + [[]])
  {
    assert (text + [[]])[..|t|] == text[..|t|];
    assert (text + [[]])[|t|..] == text[|t|..] + [[]];
  }

  lemma {:induction false} TrimBelowKeepsText(lines: seq<Line>, keep: nat)
    requires keep <= |lines|
    ensures AllButBlank(Text(TrimBelow(lines, keep)), Text(lines))
    decreases |lines|
  {
    hide AllButBlank;
    if |lines| > keep && BlankBelow(lines[|lines| - 1]) {
      var front := lines[..|lines| - 1];
      assert lines == front + [lines[|lines| - 1]];
      TrimBelowKeepsText(front, keep);
      BlankLineAtEnd([], false, front, lines[|lines| - 1]);
      OneMoreBlank(Text(TrimBelow(front, keep)), Text(front));
    } else {
      NothingBlank(Text(lines));
    }
  }

  lemma NothingBlank(t: seq<seq<Cell>>)
    ensures AllButBlank(t, t)
  {
  }

  lemma {:induction false} BlankGridKeepsText(lines: seq<Line>, n: nat, cols: nat)
    ensures AllButBlank(Text(lines), Text(lines + BlankGrid(n, cols)))
  {
    hide AllButBlank, TextFrom;
    if n == 0 {
      assert lines + BlankGrid(0, cols) == lines;
      NothingBlank(Text(lines));
    } else {
      BlankGridKeepsText(lines, n - 1, cols);
      var front := lines + BlankGrid(n - 1, cols);
      assert lines + BlankGrid(n, cols) == front + [BlankLine(cols)];
      BlankLineAtEnd([], false, front, BlankLine(cols));
      OneMoreBlank(Text(lines), Text(front));
    }
  }

  lemma BothAllButBlank(t: seq<seq<Cell>>, a: seq<seq<Cell>>, b: seq<seq<Cell>>)
    requires AllButBlank(t, a) && AllButBlank(t, b)
    ensures SameUpTo(a, b, |t|)
  {
  }

  // ---------- the cursor ----------

  lemma {:induction false} PlaceInWrap(line: nat, base: nat, cells: seq<Cell>, cols: nat, rest: seq<Line>, offset: nat)
    requires cols >= 1 && offset < |cells|
    ensures offset / cols < |Wrap(cells, cols)|
    ensures PlaceFrom(line, base, Wrap(cells, cols) + rest, offset / cols, offset % cols) == Place(line, base + offset)
    decreases |cells|
  {
    var lines := Wrap(cells, cols) + rest;
    if offset < cols {
      DivisionOf(offset, cols, 0, offset);
    } else {
      var tail := cells[cols..];
      PlaceInWrap(line, base + cols, tail, cols, rest, offset - cols);
      DivisionStep(offset, cols);
      assert lines[1..] == Wrap(tail, cols) + rest;
      assert |lines[0].cells| == cols;
    }
  }

  lemma DivisionOf(x: nat, n: nat, q: nat, r: nat)
    requires n >= 1 && r < n && x == q * n + r
    ensures x / n == q && x % n == r
  {
    QuotientIs(x, n, q);
  }

  lemma DivisionStep(x: nat, n: nat)
    requires 1 <= n <= x
    ensures x / n == (x - n) / n + 1 && x % n == (x - n) % n
  {
    var y := x - n;
    assert x == (y / n + 1) * n + y % n by { assert y == y / n * n + y % n; assert (y / n + 1) * n == y / n * n + n; }
    DivisionOf(x, n, y / n + 1, y % n);
  }

  /** Skipping the wrapped form of a whole logical line. */
  lemma {:induction false} PlacePastWrap(line: nat, base: nat, cells: seq<Cell>, cols: nat, rest: seq<Line>, abs: nat, col: nat)
    requires cols >= 1 && abs < |rest|
    ensures PlaceFrom(line, base, Wrap(cells, cols) + rest, |Wrap(cells, cols)| + abs, col)
         == PlaceFrom(line + 1, 0, rest, abs, col)
    decreases |cells|
  {
    var w := Wrap(cells, cols);
    if |cells| <= cols {
      assert (w + rest)[1..] == rest;
    } else {
      PlacePastWrap(line, base + cols, cells[cols..], cols, rest, abs, col);
      assert (w + rest)[1..] == Wrap(cells[cols..], cols) + rest;
      assert |(w + rest)[0].cells| == cols;
    }
  }

  lemma {:induction false} PlacePastAll(line: nat, logical: seq<seq<Cell>>, cols: nat, rest: seq<Line>, abs: nat, col: nat)
    requires cols >= 1 && abs < |rest|
    ensures PlaceFrom(line, 0, WrapAll(logical, cols) + rest, |WrapAll(logical, cols)| + abs, col)
         == PlaceFrom(line + |logical|, 0, rest, abs, col)
    decreases |logical|
  {
    if logical == [] {
      assert WrapAll(logical, cols) + rest == rest;
    } else {
      var init, last := logical[..|logical| - 1], logical[|logical| - 1];
      var w := Wrap(last, cols);
      assert WrapAll(logical, cols) + rest == WrapAll(init, cols) + (w + rest);
      PlacePastAll(line, init, cols, w + rest, |w| + abs, col);
      PlacePastWrap(line + |init|, 0, last, cols, rest, abs, col);
    }
  }

  lemma {:induction false} WrapAllSplit(logical: seq<seq<Cell>>, cols: nat, k: nat)
    requires cols >= 1 && k < |logical|
    ensures WrapAll(logical, cols)
         == WrapAll(logical[..k], cols) + (Wrap(logical[k], cols) + WrapAll(logical[k + 1..], cols))
    decreases |logical|
  {
    hide Wrap;
    var init := logical[..|logical| - 1];
    if k == |init| {
      assert logical[k + 1..] == [];
    } else {
      WrapAllSplit(init, cols, k);
      assert init[..k] == logical[..k];
      assert logical[k + 1..][..|logical| - k - 2] == init[k + 1..];
    }
  }

  /** The wrapped line and column found for the cursor are the same place in the same logical line. */
  lemma WrappedPlace(logical: seq<seq<Cell>>, cols: nat, p: Place, rest: seq<Line>)
    requires cols >= 1 && p.line < |logical| && p.offset < |logical[p.line]|
    ensures WrappedLine(logical, cols, p) < |WrapAll(logical, cols)|
    ensures PlaceOf(WrapAll(logical, cols) + rest, WrappedLine(logical, cols, p), p.offset % cols) == p
  {
    hide WrapAll, Wrap, PlaceFrom;
    var before, w, after := WrapAll(logical[..p.line], cols), Wrap(logical[p.line], cols), WrapAll(logical[p.line + 1..], cols);
    WrapAllSplit(logical, cols, p.line);
    PlaceInWrap(p.line, 0, logical[p.line], cols, after + rest, p.offset);
    PlacePastAll(0, logical[..p.line], cols, w + (after + rest), p.offset / cols, p.offset % cols);
    assert before + (w + after) + rest == before + (w + (after + rest));
  }

  // ---------- without the oldest lines ----------

  /** How many logical lines end among the first d lines. */
  function Ended(lines: seq<Line>, d: nat): nat
    requires d <= |lines|
    decreases |lines|
  {
    if d == 0 then 0 else (if lines[0].wrapped then 0 else 1) + Ended(lines[1..], d - 1)
  }

  /** How many begin there; `open` says that one has begun before. */
  function Begun(open: bool, lines: seq<Line>, d: nat): nat
    requires d <= |lines|
    decreases |lines|
  {
    if d == 0 then if open then 1 else 0
    else if lines[0].wrapped then Begun(true, lines[1..], d - 1)
    else 1 + Begun(false, lines[1..], d - 1)
  }

  /** The one text without the first j lines of the other, of which those from line e on are whole. */
  predicate Remains(a: seq<seq<Cell>>, b: seq<seq<Cell>>, j: nat, e: nat) {
    j <= e <= |b| && |a| + j == |b| && a[e - j..] == b[e..]
  }

  /** What went before shows in the first line only. */
  lemma {:induction false} FirstLineOnly(acc: seq<Cell>, open: bool, lines: seq<Line>)
    requires lines != []
    ensures Remains(TextFrom([], false, lines), TextFrom(acc, open, lines), 0, 1)
    decreases |lines|
  {
    hide ClearAll, Trim;
    TwoTexts([], false, acc, open, lines);
  }

  lemma {:induction false} TwoTexts(acc: seq<Cell>, open: bool, acc': seq<Cell>, open': bool, lines: seq<Line>)
    requires lines != []
    ensures var (a, b) := (TextFrom(acc, open, lines), TextFrom(acc', open', lines));
            |a| == |b| >= 1 && a[1..] == b[1..]
    decreases |lines|
  {
    hide ClearAll, Trim;
    if lines[0].wrapped && lines[1..] != [] {
      TwoTexts(acc + ClearAll(lines[0].cells), true, acc' + ClearAll(lines[0].cells), true, lines[1..]);
    }
  }

  lemma AllRemains(a: seq<seq<Cell>>)
    ensures Remains(a, a, 0, 0)
  {
  }

  lemma RemainsOfMore(a: seq<seq<Cell>>, first: seq<Cell>, b: seq<seq<Cell>>, j: nat, e: nat)
    requires Remains(a, b, j, e)
    ensures Remains(a, [first] + b, j + 1, e + 1)
  {
    assert ([first] + b)[e + 1..] == b[e..];
  }

  lemma {:induction false} TextWithout(acc: seq<Cell>, open: bool, lines: seq<Line>, d: nat)
    requires d < |lines| && (!open ==> acc == [])
    ensures Remains(TextFrom([], false, lines[d..]), TextFrom(acc, open, lines), Ended(lines, d), Begun(open, lines, d))
    decreases |lines|
  {
    hide ClearAll, TrimTo, Remains;
    if d == 0 {
      assert lines[0..] == lines;
      if !open { AllRemains(TextFrom(acc, open, lines)); }
      FirstLineOnly(acc, open, lines);
    } else {
      var text := acc + ClearAll(lines[0].cells);
      assert lines[d..] == lines[1..][d - 1..];
      if lines[0].wrapped {
        TextWithout(text, true, lines[1..], d - 1);
      } else {
        TextWithout([], false, lines[1..], d - 1);
        RemainsOfMore(TextFrom([], false, lines[d..]), Trim(text), TextFrom([], false, lines[1..]), Ended(lines[1..], d - 1), Begun(false, lines[1..], d - 1));
      }
    }
  }

  lemma {:induction false} ShiftedPlace(line: nat, offset: nat, lines: seq<Line>, abs: nat, col: nat, line': nat, offset': nat)
    requires abs < |lines|
    ensures var (p, q) := (PlaceFrom(line, offset, lines, abs, col), PlaceFrom(line', offset', lines, abs, col));
            && p.line - line == q.line - line' >= 0
            && (p.line > line || offset == offset' ==> p.offset == q.offset)
    decreases |lines|
  {
    if abs > 0 {
      if lines[0].wrapped {
        ShiftedPlace(line, offset + |lines[0].cells|, lines[1..], abs - 1, col, line', offset' + |lines[0].cells|);
      } else {
        ShiftedPlace(line + 1, 0, lines[1..], abs - 1, col, line' + 1, 0);
      }
    }
  }

  /** A place among the lines that remain. */
  lemma {:induction false} PlaceWithout(line: nat, offset: nat, open: bool, lines: seq<Line>, d: nat, abs: nat, col: nat)
    requires d <= abs < |lines| && (!open ==> offset == 0)
    ensures var (p, q) := (PlaceFrom(line, offset, lines, abs, col), PlaceFrom(0, 0, lines[d..], abs - d, col));
            && p.line == line + Ended(lines, d) + q.line
            && (p.line >= line + Begun(open, lines, d) ==> p.offset == q.offset)
    decreases |lines|
  {
    if d == 0 {
      assert lines[0..] == lines;
      ShiftedPlace(line, offset, lines, abs, col, 0, 0);
    } else {
      assert lines[d..] == lines[1..][d - 1..];
      if lines[0].wrapped {
        PlaceWithout(line, offset + |lines[0].cells|, true, lines[1..], d - 1, abs - 1, col);
      } else {
        PlaceWithout(line + 1, 0, false, lines[1..], d - 1, abs - 1, col);
      }
    }
  }

  /** Line i of a text; there are blank ones behind it. */
  function At(text: seq<seq<Cell>>, i: int): seq<Cell> {
    if 0 <= i < |text| then text[i] else []
  }

  lemma SameAt(a: seq<seq<Cell>>, b: seq<seq<Cell>>, n: nat)
    requires SameUpTo(a, b, n)
    ensures forall i :: At(a, i) == At(b, i)
  {
    forall i ensures At(a, i) == At(b, i) {
      if 0 <= i < n {
        assert a[i] == a[..n][i] == b[..n][i] == b[i];
      } else if i >= n {
        assert i < |a| ==> a[i] == a[n..][i - n];
        assert i < |b| ==> b[i] == b[n..][i - n];
      }
    }
  }

  lemma RemainsAt(a: seq<seq<Cell>>, b: seq<seq<Cell>>, j: nat, e: nat)
    requires Remains(a, b, j, e)
    ensures forall i | i >= e :: At(a, i - j) == At(b, i)
  {
    forall i | i >= e ensures At(a, i - j) == At(b, i) {
      if i < |b| { assert a[e - j..][i - e] == b[e..][i - e]; }
    }
  }

  // ---------- the whole operation ----------

  /** All lines after reflow, before the oldest ones past the limit are dropped. */
  function Unlimited(s: S.Screen, cols: int, rows: int): seq<Line>
    requires s.WellFormed() && cols >= 1 && rows >= 1
  {
    Rewrapped(s, cols) + BlankGrid(Max(0, rows - |Rewrapped(s, cols)|), cols)
  }

  function Dropped(s: S.Screen, cols: int, rows: int): nat
    requires s.WellFormed() && cols >= 1 && rows >= 1
  {
    Max(0, ScreenStart(s, cols, rows) - s.limit)
  }

  /** What is left of the buffer is all its re-wrapped lines but the oldest past the limit. */
  lemma ReflowIsSuffix(s: S.Screen, cols: int, rows: int)
    requires s.WellFormed() && cols >= 1 && rows >= 1
    ensures var r := Reflow(s, cols, rows);
            && Dropped(s, cols, rows) <= |Unlimited(s, cols, rows)|
            && r.scrollback + r.grid == Unlimited(s, cols, rows)[Dropped(s, cols, rows)..]
            && r.trimmed == s.trimmed + Dropped(s, cols, rows)
            && |r.scrollback| <= s.limit
  {
    hide Rewrapped;
  }

  /** Grouping into logical lines and wrapping them anew leaves the text. */
  lemma RewrappingKeepsText(lines: seq<Line>, cursor: Place, cols: int)
    requires cols >= 1
    ensures Text(WrapAll(Logical(lines, cursor), cols)) == Text(lines)
  {
    hide WrapAll, LogicalFrom, Trim;
    var logical := Logical(lines, cursor);
    WrapAllKeepsText(logical, cols, []);
    assert WrapAll(logical, cols) + [] == WrapAll(logical, cols);
    assert Text([]) == [] && Texts(logical) + [] == Texts(logical);
    GroupingKeepsText([], false, 0, lines, cursor);
    assert ClearAll([]) == [];
  }

  lemma TextsLength(logical: seq<seq<Cell>>)
    ensures |Texts(logical)| == |logical|
  {
  }

  /** The text of the lines that are re-wrapped reaches past the cursor's logical line. */
  lemma CursorLineHasText(s: S.Screen)
    requires s.WellFormed()
    ensures CursorPlace(s).line < |Text(BelowTrimmed(s))|
  {
    CursorOnLogicalLine(s);
    hide LogicalFrom, TextFrom, CursorPlace, BelowTrimmed, S.Screen.WellFormed;
    var logical := Logical(BelowTrimmed(s), CursorPlace(s));
    GroupingKeepsText([], false, 0, BelowTrimmed(s), CursorPlace(s));
    assert ClearAll([]) == [];
    TextsLength(logical);
  }

  /** Re-wrapping changes no text: all logical lines down to some line below the cursor's are the same, and
      there are only blank ones from there on. */
  lemma ReflowKeepsText(s: S.Screen, cols: int, rows: int)
    requires s.WellFormed() && cols >= 1 && rows >= 1
    ensures var n := |Text(BelowTrimmed(s))|;
            CursorPlace(s).line < n && SameUpTo(Text(s.scrollback + s.grid), Text(Unlimited(s, cols, rows)), n)
  {
    assert 0 <= s.here.row < |s.grid|;
    CursorLineHasText(s);
    hide S.Screen.WellFormed, WrapAll, Logical, Text, CursorPlace, TrimBelow, BlankGrid, AllButBlank, SameUpTo;
    BlankGridKeepsText(Rewrapped(s, cols), Max(0, rows - |Rewrapped(s, cols)|), cols);
    RewrappingKeepsText(BelowTrimmed(s), CursorPlace(s), cols);
    TrimBelowKeepsText(s.scrollback + s.grid, |s.scrollback| + s.here.row + 1);
    BothAllButBlank(Text(BelowTrimmed(s)), Text(s.scrollback + s.grid), Text(Unlimited(s, cols, rows)));
  }

  function TextOf(s: S.Screen): seq<seq<Cell>> {
    Text(s.scrollback + s.grid)
  }

  /** Logical line i of the buffer. */
  function LineOf(s: S.Screen, i: int): seq<Cell> {
    At(TextOf(s), i)
  }

  /** Logical lines that a reflow drops as a whole. */
  function Gone(s: S.Screen, cols: int, rows: int): nat
    requires s.WellFormed() && cols >= 1 && rows >= 1
  {
    DroppedFewer(s, cols, rows);
    Ended(Unlimited(s, cols, rows), Dropped(s, cols, rows))
  }

  /** Logical lines that it drops or cuts: one more if the last line dropped goes on in the next. */
  function Touched(s: S.Screen, cols: int, rows: int): nat
    requires s.WellFormed() && cols >= 1 && rows >= 1
  {
    DroppedFewer(s, cols, rows);
    Begun(false, Unlimited(s, cols, rows), Dropped(s, cols, rows))
  }

  lemma DroppedFewer(s: S.Screen, cols: int, rows: int)
    requires s.WellFormed() && cols >= 1 && rows >= 1
    ensures Dropped(s, cols, rows) <= ScreenStart(s, cols, rows) < |Unlimited(s, cols, rows)|
    ensures Dropped(s, cols, rows) == 0 ==> Ended(Unlimited(s, cols, rows), 0) == 0 == Begun(false, Unlimited(s, cols, rows), 0)
  {
    hide Rewrapped;
  }

  /** The buffer reads the same at the new width, from the first logical line on that is neither dropped nor
      cut, and the cursor's line has not gone from its end. */
  lemma ReflowReadsTheSame(s: S.Screen, cols: int, rows: int)
    requires s.WellFormed() && cols >= 1 && rows >= 1
    ensures var (r, gone) := (Reflow(s, cols, rows), Gone(s, cols, rows));
            && (forall i | i >= Touched(s, cols, rows) :: LineOf(r, i - gone) == LineOf(s, i))
            && CursorPlace(s).line < gone + |TextOf(r)|
  {
    hide Reflow, Unlimited, Dropped, SameUpTo, CursorPlace, BelowTrimmed, TextFrom, At, Begun, Ended, ScreenStart, S.Screen.WellFormed;
    ReflowIsSuffix(s, cols, rows);
    ReflowKeepsText(s, cols, rows);
    DroppedFewer(s, cols, rows);
    var (all, d) := (Unlimited(s, cols, rows), Dropped(s, cols, rows));
    TextWithout([], false, all, d);
    RemainsAt(Text(all[d..]), Text(all), Ended(all, d), Begun(false, all, d));
    SameAt(Text(s.scrollback + s.grid), Text(all), |Text(BelowTrimmed(s))|);
    LongEnough(Text(s.scrollback + s.grid), Text(all), |Text(BelowTrimmed(s))|);
  }

  lemma LongEnough(a: seq<seq<Cell>>, b: seq<seq<Cell>>, n: nat)
    requires SameUpTo(a, b, n)
    ensures n <= |b|
  {
  }

  /** A reflowed screen is well formed; the saved cursor is not moved. */
  lemma ReflowedWellFormed(s: S.Screen, cols: int, rows: int)
    requires s.WellFormed() && cols >= 1 && rows >= 1
    ensures var r := Reflow(s, cols, rows); r.WellFormed() && r.cols == cols && r.rows == rows && r.saved == s.saved
  {
    RewrappedWidth(s, cols);
    hide Rewrapped, CursorLine, CursorPlace;
  }

  lemma RewrappedWidth(s: S.Screen, cols: int)
    requires s.WellFormed() && cols >= 1
    ensures forall i | 0 <= i < |Rewrapped(s, cols)| :: |Rewrapped(s, cols)[i].cells| == cols
  {
  }

  lemma {:induction false} PlaceBehind(line: nat, offset: nat, lines: seq<Line>, more: seq<Line>, abs: nat, col: nat)
    requires abs < |lines|
    ensures PlaceFrom(line, offset, lines + more, abs, col) == PlaceFrom(line, offset, lines, abs, col)
    decreases |lines|
  {
    var all := lines + more;
    assert all[0] == lines[0] && all[1..] == lines[1..] + more;
    if abs > 0 {
      if lines[0].wrapped {
        PlaceBehind(line, offset + |lines[0].cells|, lines[1..], more, abs - 1, col);
      } else {
        PlaceBehind(line + 1, 0, lines[1..], more, abs - 1, col);
      }
    }
  }

  lemma {:induction false} PlaceGrows(line: nat, offset: nat, lines: seq<Line>, abs: nat, col: nat, abs': nat, col': nat)
    requires abs <= abs' < |lines|
    ensures PlaceFrom(line, offset, lines, abs, col).line <= PlaceFrom(line, offset, lines, abs', col').line
    decreases |lines|
  {
    if abs > 0 {
      if lines[0].wrapped {
        PlaceGrows(line, offset + |lines[0].cells|, lines[1..], abs - 1, col, abs' - 1, col');
      } else {
        PlaceGrows(line + 1, 0, lines[1..], abs - 1, col, abs' - 1, col');
      }
    }
  }

  /** The cursor stays on its cell, counted in logical lines and offsets from the top of the buffer, before the
      oldest lines are dropped, whenever that cell is on the new screen; otherwise it goes to the top row. */
  lemma ReflowKeepsCursor(s: S.Screen, cols: int, rows: int)
    requires s.WellFormed() && cols >= 1 && rows >= 1
    ensures var (r, at, start) := (Reflow(s, cols, rows), CursorLine(s, cols), ScreenStart(s, cols, rows));
            && Dropped(s, cols, rows) + |r.scrollback| == start
            && 0 <= r.here.row < rows && 0 <= r.here.col < cols && at < start + rows
            && r.here.row == Max(0, at - start)
            && at < |Unlimited(s, cols, rows)| && PlaceOf(Unlimited(s, cols, rows), at, r.here.col) == CursorPlace(s)
  {
    CursorOnLogicalLine(s);
    var logical := Logical(BelowTrimmed(s), CursorPlace(s));
    WrappedPlace(logical, cols, CursorPlace(s), BlankGrid(Max(0, rows - |Rewrapped(s, cols)|), cols));
    hide WrapAll, PlaceOf, Logical, WrappedLine, BelowTrimmed, CursorPlace;
  }

  /** With its line neither dropped nor cut and its cell on the new screen, the cursor is where it was in the
      buffer, less the logical lines dropped. */
  lemma CursorStays(s: S.Screen, cols: int, rows: int)
    requires s.WellFormed() && cols >= 1 && rows >= 1
    requires CursorPlace(s).line >= Touched(s, cols, rows) && CursorLine(s, cols) >= ScreenStart(s, cols, rows)
    ensures var r := Reflow(s, cols, rows);
            && 0 <= r.here.row < |r.grid|
            && var p := PlaceOf(s.scrollback + s.grid, |s.scrollback| + s.here.row, Min(s.here.col, s.cols - 1));
               && p.line >= Gone(s, cols, rows)
               && PlaceOf(r.scrollback + r.grid, |r.scrollback| + r.here.row, r.here.col) == Place(p.line - Gone(s, cols, rows), p.offset)
  {
    CursorInGrid(s, cols, rows);
    hide *;
    ReflowKeepsCursor(s, cols, rows);
    ReflowIsSuffix(s, cols, rows);
    PlaceBelowTrimmed(s);
    DroppedFewer(s, cols, rows);
    GoneIs(s, cols, rows);
    PlaceAmongRest(Unlimited(s, cols, rows), Dropped(s, cols, rows), CursorLine(s, cols), Reflow(s, cols, rows).here.col);
  }

  lemma CursorInGrid(s: S.Screen, cols: int, rows: int)
    requires s.WellFormed() && cols >= 1 && rows >= 1
    ensures 0 <= Reflow(s, cols, rows).here.row < |Reflow(s, cols, rows).grid|
    ensures 0 <= s.here.row < |s.grid| && 0 <= s.here.col && s.cols >= 1
    ensures |s.scrollback| <= CursorLine(s, cols) + |s.scrollback|
  {
    ReflowedWellFormed(s, cols, rows);
    hide Reflow, CursorLine;
  }

  lemma GoneIs(s: S.Screen, cols: int, rows: int)
    requires s.WellFormed() && cols >= 1 && rows >= 1
    ensures var (all, d) := (Unlimited(s, cols, rows), Dropped(s, cols, rows));
            d <= |all| && Gone(s, cols, rows) == Ended(all, d) && Touched(s, cols, rows) == Begun(false, all, d)
  {
    DroppedFewer(s, cols, rows);
    hide Unlimited, Dropped, ScreenStart, Ended, Begun;
  }

  lemma PlaceAmongRest(all: seq<Line>, d: nat, abs: nat, col: nat)
    requires d <= abs < |all|
    ensures var (p, q) := (PlaceOf(all, abs, col), PlaceOf(all[d..], abs - d, col));
            p.line == Ended(all, d) + q.line && (p.line >= Begun(false, all, d) ==> p.offset == q.offset)
  {
    hide PlaceFrom, Ended, Begun;
    PlaceWithout(0, 0, false, all, d, abs, col);
  }

  lemma PlaceBelowTrimmed(s: S.Screen)
    requires s.WellFormed()
    ensures CursorPlace(s) == PlaceOf(s.scrollback + s.grid, |s.scrollback| + s.here.row, Min(s.here.col, s.cols - 1))
  {
    var (all, kept) := (s.scrollback + s.grid, BelowTrimmed(s));
    assert all == kept + all[|kept|..];
    PlaceBehind(0, 0, kept, all[|kept|..], |s.scrollback| + s.here.row, Min(s.here.col, s.cols - 1));
    hide PlaceFrom, BelowTrimmed;
  }

  /** The cursor of a reflowed screen is on its old logical line or below it. */
  lemma CursorNotAbove(s: S.Screen, cols: int, rows: int)
    requires s.WellFormed() && cols >= 1 && rows >= 1
    ensures var r := Reflow(s, cols, rows); r.WellFormed() && CursorPlace(s).line <= Gone(s, cols, rows) + CursorPlace(r).line
  {
    ReflowedWellFormed(s, cols, rows);
    hide *;
    var r := Reflow(s, cols, rows);
    GoneIs(s, cols, rows);
    RowBelow(s, cols, rows);
    PlaceBelow(Unlimited(s, cols, rows), Dropped(s, cols, rows), CursorLine(s, cols), CursorPlace(s), r);
  }

  /** The wrapped line `at` holds the place p, and the screen's cursor is on it or below it. */
  predicate Below(all: seq<Line>, d: nat, at: nat, p: Place, r: S.Screen) {
    && 0 <= r.here.row && 0 <= r.here.col && r.cols >= 1
    && at <= d + |r.scrollback| + r.here.row < |all| && r.scrollback + r.grid == all[d..]
    && PlaceOf(all, at, r.here.col) == p
  }

  lemma RowBelow(s: S.Screen, cols: int, rows: int)
    requires s.WellFormed() && cols >= 1 && rows >= 1
    ensures Below(Unlimited(s, cols, rows), Dropped(s, cols, rows), CursorLine(s, cols), CursorPlace(s), Reflow(s, cols, rows))
  {
    ReflowedWellFormed(s, cols, rows);
    ReflowKeepsCursor(s, cols, rows);
    ReflowIsSuffix(s, cols, rows);
    assert ScreenStart(s, cols, rows) + rows <= |Unlimited(s, cols, rows)|;
    hide Reflow, Unlimited, Dropped, CursorLine, ScreenStart, CursorPlace, PlaceOf;
  }

  lemma PlaceBelow(all: seq<Line>, d: nat, at: nat, p: Place, r: S.Screen)
    requires r.WellFormed() && d <= |all| && Below(all, d, at, p, r)
    ensures p.line <= Ended(all, d) + CursorPlace(r).line
  {
    PlaceBelowTrimmed(r);
    hide PlaceFrom, Ended, CursorPlace, S.Screen.WellFormed;
    var (row, col) := (|r.scrollback| + r.here.row, Min(r.here.col, r.cols - 1));
    PlaceGrows(0, 0, all, at, r.here.col, d + row, col);
    PlaceWithout(0, 0, false, all, d, d + row, col);
  }

  /** Two reflows in a row leave the text of the last one alone: line i of the buffer reads the same after both
      as after the last one only, and as before, when it is neither dropped nor cut by any of them. */
  lemma LastReflowDecides(s: S.Screen, cols1: int, rows1: int, cols2: int, rows2: int, i: nat)
    requires s.WellFormed() && cols1 >= 1 && rows1 >= 1 && cols2 >= 1 && rows2 >= 1
    ensures Reflow(s, cols1, rows1).WellFormed()
    ensures var (r, once) := (Reflow(s, cols1, rows1), Reflow(s, cols2, rows2));
            var (twice, first) := (Reflow(r, cols2, rows2), Gone(s, cols1, rows1));
            i >= Touched(s, cols1, rows1) && i - first >= Touched(r, cols2, rows2) && i >= Touched(s, cols2, rows2) ==>
              LineOf(twice, i - first - Gone(r, cols2, rows2)) == LineOf(once, i - Gone(s, cols2, rows2)) == LineOf(s, i)
  {
    hide Reflow, CursorPlace, TextOf, LineOf, Gone, Touched, S.Screen.WellFormed;
    ReflowedWellFormed(s, cols1, rows1);
    ReflowReadsTheSame(s, cols1, rows1);
    ReflowReadsTheSame(Reflow(s, cols1, rows1), cols2, rows2);
    ReflowReadsTheSame(s, cols2, rows2);
    var (r, first) := (Reflow(s, cols1, rows1), Gone(s, cols1, rows1));
    if i >= Touched(s, cols1, rows1) && i - first >= Touched(r, cols2, rows2) && i >= Touched(s, cols2, rows2) {
      assert LineOf(r, i - first) == LineOf(s, i);
      assert LineOf(Reflow(r, cols2, rows2), i - first - Gone(r, cols2, rows2)) == LineOf(r, i - first);
    }
  }

  /** Both times what is dropped is not all: the cursor's line and what is behind it stay within reach. */
  lemma CursorLineRemains(s: S.Screen, cols1: int, rows1: int, cols2: int, rows2: int)
    requires s.WellFormed() && cols1 >= 1 && rows1 >= 1 && cols2 >= 1 && rows2 >= 1
    ensures Reflow(s, cols1, rows1).WellFormed()
    ensures var r := Reflow(s, cols1, rows1);
            CursorPlace(s).line < Gone(s, cols1, rows1) + Gone(r, cols2, rows2) + |TextOf(Reflow(r, cols2, rows2))|
  {
    hide Reflow, CursorPlace, TextOf, LineOf, Gone, Touched, S.Screen.WellFormed;
    ReflowedWellFormed(s, cols1, rows1);
    CursorNotAbove(s, cols1, rows1);
    ReflowReadsTheSame(Reflow(s, cols1, rows1), cols2, rows2);
  }
}
