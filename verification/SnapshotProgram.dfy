/** Writing a snapshot from a screen buffer and a parser, and overwriting them from one. */
module SnapshotProgram {
  import opened Bytes
  import opened Cells
  import opened Wire
  import opened Wrappers
  import opened LineCodec
  import opened Snapshots
  import S = Screens
  import V = VtParsing
  import B = ScreenBuffers

  // ---------- writing ----------

  method WriteSection(out: Writer, tag: byte, payload: Writer)
    requires out != payload
    modifies out
    ensures out.buf == old(out.buf) + Section(tag, payload.buf)
  {
    out.Raw([tag]);
    out.Int(|payload.buf|, 4);
    out.Raw(payload.buf);
  }

  method WriteStack(w: Writer, stack: seq<int>)
    modifies w
    ensures w.buf == old(w.buf) + PutStack(stack)
  {
    hide LE, FromSigned;
    w.Int(|stack|, 2);
    ghost var start := w.buf;
    var i := 0;
    while i < |stack|
      invariant 0 <= i <= |stack| && w.buf == start + PutSigned(stack[..i])
    {
      assert stack[..i + 1][..i] == stack[..i];
      Associative(start, PutSigned(stack[..i]), LE(FromSigned(stack[i], 4), 4));
      w.Int(FromSigned(stack[i], 4), 4);
      i := i + 1;
    }
    assert stack[..i] == stack;
  }

  /** The keys of the link table in whatever order its iteration yields them. */
  method IterationOrder(uris: map<nat, seq<byte>>) returns (order: seq<nat>)
    ensures EnumeratesLinks(uris, order)
  {
    order := [];
    var left := uris.Keys;
    while left != {}
      invariant left <= uris.Keys
      invariant forall i | 0 <= i < |order| :: order[i] in uris && order[i] !in left
      invariant forall i, j | 0 <= i < j < |order| :: order[i] != order[j]
      invariant forall id | id in uris :: id in left || id in order
      decreases left
    {
      var id :| id in left;
      order := order + [id];
      left := left - {id};
    }
  }

  method WriteLinks(w: Writer, l: S.Links, order: seq<nat>)
    requires EnumeratesLinks(l.uris, order)
    modifies w
    ensures w.buf == old(w.buf) + LinksPayload(l, order)
  {
    hide PutFields, PutLinks;
    WriteFields(w, LINK_HEAD, [l.current, l.next, |l.uris|]);
    WriteLinkTable(w, l.uris, order);
  }

  lemma PutOneMore(uris: map<nat, seq<byte>>, order: seq<nat>, n: nat)
    requires forall i | 0 <= i < |order| :: order[i] in uris
    ensures PutLinks(uris, []) == []
    ensures n < |order| ==>
              PutLinks(uris, order[..n + 1]) == PutLinks(uris, order[..n]) + (LE(order[n], 2) + Str(uris[order[n]]))
  {
    if n < |order| { assert order[..n + 1][..n] == order[..n]; }
  }

  method WriteLinkTable(w: Writer, uris: map<nat, seq<byte>>, order: seq<nat>)
    requires forall i | 0 <= i < |order| :: order[i] in uris
    modifies w
    ensures w.buf == old(w.buf) + PutLinks(uris, order)
  {
    hide PutLinks, LE, Str;
    PutOneMore(uris, order, 0);
    assert order[..0] == [];
    var i := 0;
    while i < |order|
      invariant 0 <= i <= |order| && w.buf == old(w.buf) + PutLinks(uris, order[..i])
    {
      PutOneMore(uris, order, i);
      Associative(PutLinks(uris, order[..i]), LE(order[i], 2), Str(uris[order[i]]));
      Associative(old(w.buf), PutLinks(uris, order[..i]), LE(order[i], 2) + Str(uris[order[i]]));
      Associative(w.buf, LE(order[i], 2), Str(uris[order[i]]));
      w.Int(order[i], 2);
      w.Text(uris[order[i]]);
      i := i + 1;
    }
    assert order[..i] == order;
  }

  lemma EncodeOneMore(lines: seq<Line>, n: nat)
    ensures n < |lines| ==> EncodeLines(lines[..n + 1]) == EncodeLines(lines[..n]) + EncodeLine(lines[n])
    ensures EncodeLines([]) == []
  {
    if n < |lines| { assert lines[..n + 1][..n] == lines[..n]; }
  }

  method WriteRows(w: Writer, sb: B.ScreenBuffer)
    requires sb.Valid()
    modifies w
    ensures w.buf == old(w.buf) + EncodeLines(sb.View().grid)
  {
    B.Bounds(sb.View());
    hide B.Rotated, S.Screen.WellFormed, S.Screen.Framed, EncodeLine, EncodeLines;
    ghost var grid := sb.Rows();
    ghost var start := w.buf;
    EncodeOneMore([], 0);
    assert grid[..0] == [];
    var r := 0;
    while r < sb.rows
      invariant 0 <= r <= |grid| && w.buf == start + EncodeLines(grid[..r])
      invariant unchanged(sb)
    {
      EncodeOneMore(grid, r);
      Associative(start, EncodeLines(grid[..r]), EncodeLine(grid[r]));
      WriteLine(w, sb.RowAt(r));
      r := r + 1;
    }
    assert grid[..r] == grid;
  }

  method WriteScrollback(w: Writer, sb: B.ScreenBuffer, max: int)
    modifies w
    ensures w.buf == old(w.buf) + ScrollbackPayload(sb.View(), max)
  {
    hide PutFields, EncodeLines, FromSigned, B.Rotated;
    var total := |sb.scrollback|;
    var sent := if max < 0 || max >= total then total else max;
    WriteFields(w, COUNTS, [sent, FromSigned(total - sent + sb.trimmed, 4)]);
    WriteLines(w, sb.scrollback[total - sent..]);
  }

  method WriteParser(w: Writer, vp: V.VtParser)
    modifies w
    ensures w.buf == old(w.buf) + ParserPayload(vp.Value())
  {
    hide PutFields, Str;
    WriteFields(w, PARSER_HEAD, [StateCode(vp.state), vp.utf8Codepoint, vp.utf8Remaining]);
    w.Text(vp.csiParams);
    WriteFields(w, PARSER_BYTES, [vp.csiIntermediate as nat, vp.escIntermediate as nat]);
    w.Text(vp.osc);
    w.Text(vp.apc);
    w.Text(vp.dcsParams);
  }

  method WritePayload(w: Writer, sb: B.ScreenBuffer, vp: V.VtParser, order: seq<nat>, max: int, tag: nat)
    requires sb.Valid() && w.buf == [] && 1 <= tag <= 11 && EnumeratesLinks(sb.links.uris, order)
    modifies w
    ensures w.buf == Payload(Terminal(sb.View(), vp.Value()), order, max, tag)
  {
    hide PutFields, EncodeLines, LinksPayload, ScrollbackPayload, ParserPayload, PutStack, S.Screen.WellFormed, B.Rotated;
    match tag {
      case 1 => WriteFields(w, GEOM, [FromSigned(sb.cols, 2), FromSigned(sb.rows, 2), sb.limit, Bit(sb.usingAlt)]);
      case 2 => WriteRows(w, sb);
      case 3 =>
        w.Int(|sb.altScreen|, 2);
        WriteLines(w, sb.altScreen);
      case 4 => WriteScrollback(w, sb, max);
      case 5 => WriteFields(w, CURSOR, [
        FromSigned(sb.here.row, 2), FromSigned(sb.here.col, 2), FromSigned(sb.saved.row, 2), FromSigned(sb.saved.col, 2),
        sb.saved.pen.fg, sb.saved.pen.bg, sb.saved.pen.attrs,
        sb.saved.charset.g0, sb.saved.charset.g1, sb.saved.charset.gl,
        FromSigned(sb.region.top, 2), FromSigned(sb.region.bottom, 2)]);
      case 6 => WriteFields(w, SGR, [sb.here.pen.fg, sb.here.pen.bg, sb.here.pen.attrs, sb.lastPrinted]);
      case 7 => WriteFields(w, MODE_FIELDS, [ModeWord(sb.modes), sb.modes.mouse]);
      case 8 => WriteFields(w, CHARSETS, [sb.here.charset.g0, sb.here.charset.g1, sb.here.charset.gl]);
      case 9 =>
        WriteStack(w, sb.keyboard.stack);
        WriteStack(w, sb.keyboard.saved);
      case 10 => WriteLinks(w, sb.links, order);
      case 11 => WriteParser(w, vp);
    }
    assert [] + w.buf == w.buf;
  }

  /** One step of the writing loop: the section just appended is the first of those still owed. */
  lemma SectionWritten(t: Terminal, order: seq<nat>, max: int, tag: nat, head: seq<byte>, before: seq<byte>)
    requires EnumeratesLinks(t.screen.links.uris, order) && 1 <= tag < 12
    requires head + SectionsFrom(t, order, max, 1) == before + SectionsFrom(t, order, max, tag)
    ensures head + SectionsFrom(t, order, max, 1)
         == before + Section(tag, Payload(t, order, max, tag)) + SectionsFrom(t, order, max, tag + 1)
  {
    hide Payload, Section, EnumeratesLinks;
  }

  lemma NoSectionLeft(t: Terminal, order: seq<nat>, max: int)
    requires EnumeratesLinks(t.screen.links.uris, order)
    ensures SectionsFrom(t, order, max, 12) == []
  {
    hide EnumeratesLinks;
  }

  method WriteSections(out: Writer, sb: B.ScreenBuffer, vp: V.VtParser, order: seq<nat>, max: int)
    requires sb.Valid() && EnumeratesLinks(sb.links.uris, order)
    modifies out
    ensures out.buf == old(out.buf) + SectionsFrom(Terminal(sb.View(), vp.Value()), order, max, 1)
  {
    hide Payload, Section, EnumeratesLinks, SectionsFrom, S.Screen.WellFormed, B.Rotated;
    ghost var t := Terminal(sb.View(), vp.Value());
    ghost var head := out.buf;
    var tag: nat := 1;
    while tag < 12
      invariant 1 <= tag <= 12 && unchanged(sb) && unchanged(vp)
      invariant head + SectionsFrom(t, order, max, 1) == out.buf + SectionsFrom(t, order, max, tag)
    {
      var w := new Writer();
      WritePayload(w, sb, vp, order, max, tag);
      SectionWritten(t, order, max, tag, head, out.buf);
      WriteSection(out, tag, w);
      tag := tag + 1;
    }
    NoSectionLeft(t, order, max);
  }

  /** The snapshot, with the order in which the link table was iterated. */
  method Serialize(sb: B.ScreenBuffer, vp: V.VtParser, max: int) returns (data: seq<byte>, order: seq<nat>)
    requires sb.Valid()
    ensures EnumeratesLinks(sb.links.uris, order)
    ensures data == Snapshots.Serialize(Terminal(sb.View(), vp.Value()), order, max)
  {
    hide SectionsFrom, EnumeratesLinks, LE, S.Screen.WellFormed, B.Rotated;
    order := IterationOrder(sb.links.uris);
    var out := new Writer();
    out.Int(MAGIC, 4);
    out.Raw([VERSION]);
    WriteSections(out, sb, vp, order, max);
    data := out.buf;
  }

  // ---------- reading ----------

  ghost function State(sb: B.ScreenBuffer, vp: V.VtParser, geom: bool): Loading
    reads sb, vp
  {
    Loading(sb.View(), vp.Value(), geom)
  }

  method ReadGeom(sb: B.ScreenBuffer, r: Reader) returns (ok: bool)
    requires r.Valid()
    modifies sb`cols, sb`rows, sb`limit, sb`usingAlt, r
    ensures ok ==> sb.rows >= 1
    ensures forall m: V.Machine, g: bool {:trigger Loading(old(sb.View()), m, g)} ::
      LoadGeom(Loading(old(sb.View()), m, g), old(r.Left())) == if ok then Some(Loading(sb.View(), m, true)) else None
  {
    hide GetFields, B.Rotated;
    var v := ReadFields(r, GEOM);
    ok := r.ok && v[0] >= 1 && v[1] >= 1 && v[0] <= MAX_SIDE && v[1] <= MAX_SIDE;
    if ok { sb.cols, sb.rows, sb.limit, sb.usingAlt := v[0], v[1], v[2], v[3] != 0; }
  }

  method ReadGrid(sb: B.ScreenBuffer, r: Reader) returns (ok: bool)
    requires r.Valid() && sb.rows >= 1
    modifies sb`screen, sb`screenTop, r
    ensures old(sb.InRing()) ==> sb.InRing()
    ensures forall m: V.Machine {:trigger Loading(old(sb.View()), m, true)} ::
      LoadGrid(Loading(old(sb.View()), m, true), old(r.Left())) == if ok then Some(Loading(sb.View(), m, true)) else None
  {
    hide DecodeLines, B.Rotated;
    var lines;
    ok, lines := ReadLines(r, sb.rows);
    ok := ok && r.ok;
    if ok {
      B.RotatedZero(lines);
      sb.screen, sb.screenTop := lines, 0;
    }
  }

  method ReadAlt(sb: B.ScreenBuffer, r: Reader) returns (ok: bool)
    requires r.Valid()
    modifies sb`altScreen, r
    ensures forall m: V.Machine, g: bool {:trigger Loading(old(sb.View()), m, g)} ::
      LoadAlt(Loading(old(sb.View()), m, g), old(r.Left())) == if ok then Some(Loading(sb.View(), m, g)) else None
  {
    hide DecodeLines, Get, B.Rotated;
    var n := r.Int(2);
    if !r.ok || n > MAX_SIDE { return false; }
    var lines;
    ok, lines := ReadLines(r, n);
    ok := ok && r.ok;
    if ok { sb.altScreen := lines; }
  }

  method ReadScrollback(sb: B.ScreenBuffer, r: Reader) returns (ok: bool)
    requires r.Valid()
    modifies sb`scrollback, sb`trimmed, sb`history, r
    ensures forall m: V.Machine, g: bool {:trigger Loading(old(sb.View()), m, g)} ::
      LoadScrollback(Loading(old(sb.View()), m, g), old(r.Left())) == if ok then Some(Loading(sb.View(), m, g)) else None
  {
    hide DecodeLines, GetFields, B.Rotated, ToSigned, KnownHistory;
    var v := ReadFields(r, COUNTS);
    if !r.ok || v[0] > MAX_SCROLLBACK { return false; }
    var lines;
    ok, lines := ReadLines(r, v[0]);
    ok := ok && r.ok;
    if ok {
      sb.scrollback, sb.trimmed := lines, ToSigned(v[1], 4);
      sb.history := KnownHistory(Max(0, ToSigned(v[1], 4)), lines);
    }
  }

  method ReadCursor(sb: B.ScreenBuffer, r: Reader) returns (ok: bool)
    requires r.Valid()
    modifies sb`here, sb`saved, sb`region, r
    ensures forall m: V.Machine, g: bool {:trigger Loading(old(sb.View()), m, g)} ::
      LoadCursor(Loading(old(sb.View()), m, g), old(r.Left())) == if ok then Some(Loading(sb.View(), m, g)) else None
  {
    hide GetFields, B.Rotated;
    var v := ReadFields(r, CURSOR);
    ok := r.ok;
    if ok {
      sb.here := sb.here.(row := v[0], col := v[1]);
      sb.saved := S.Position(v[2], v[3], S.Pen(v[4], v[5], v[6]), S.Charset(v[7], v[8], v[9]));
      sb.region := S.Region(v[10], v[11]);
    }
  }

  method ReadSgr(sb: B.ScreenBuffer, r: Reader) returns (ok: bool)
    requires r.Valid()
    modifies sb`here, sb`lastPrinted, r
    ensures forall m: V.Machine, g: bool {:trigger Loading(old(sb.View()), m, g)} ::
      LoadSgr(Loading(old(sb.View()), m, g), old(r.Left())) == if ok then Some(Loading(sb.View(), m, g)) else None
  {
    hide GetFields, B.Rotated;
    var v := ReadFields(r, SGR);
    ok := r.ok;
    if ok { sb.here, sb.lastPrinted := sb.here.(pen := S.Pen(v[0], v[1], v[2])), v[3]; }
  }

  method ReadModes(sb: B.ScreenBuffer, r: Reader) returns (ok: bool)
    requires r.Valid()
    modifies sb`modes, r
    ensures forall m: V.Machine, g: bool {:trigger Loading(old(sb.View()), m, g)} ::
      LoadModes(Loading(old(sb.View()), m, g), old(r.Left())) == if ok then Some(Loading(sb.View(), m, g)) else None
  {
    hide GetFields, B.Rotated, ModesOf;
    var v := ReadFields(r, MODE_FIELDS);
    ok := r.ok;
    if ok { sb.modes := ModesOf(v[0], v[1]); }
  }

  method ReadCharsets(sb: B.ScreenBuffer, r: Reader) returns (ok: bool)
    requires r.Valid()
    modifies sb`here, r
    ensures forall m: V.Machine, g: bool {:trigger Loading(old(sb.View()), m, g)} ::
      LoadCharsets(Loading(old(sb.View()), m, g), old(r.Left())) == if ok then Some(Loading(sb.View(), m, g)) else None
  {
    hide GetFields, B.Rotated;
    var v := ReadFields(r, CHARSETS);
    ok := r.ok;
    if ok { sb.here := sb.here.(charset := S.Charset(v[0], v[1], v[2])); }
  }

  lemma NextSigned(i: Input, n: nat, had: seq<int>)
    requires n > 0
    ensures var (j, v) := Get(i, 4);
            GetSigned(i, n).0 == GetSigned(j, n - 1).0
            && had + GetSigned(i, n).1 == had + [ToSigned(v, 4)] + GetSigned(j, n - 1).1
  {
    hide Get, ToSigned;
    Associative(had, [ToSigned(Get(i, 4).1, 4)], GetSigned(Get(i, 4).0, n - 1).1);
  }

  method ReadStack(r: Reader) returns (ok: bool, stack: seq<int>)
    requires r.Valid()
    modifies r
    ensures r.Valid()
    ensures GetStack(old(r.Left())) == if ok then Some((r.Left(), stack)) else None
  {
    stack := [];
    var n := r.Int(2);
    if !r.ok || n > MAX_KITTY { return false, []; }
    ghost var start := r.Left();
    var i := 0;
    while i < n
      invariant 0 <= i <= n && r.Valid()
      invariant GetSigned(start, n).0 == GetSigned(r.Left(), n - i).0
      invariant GetSigned(start, n).1 == stack + GetSigned(r.Left(), n - i).1
    {
      ghost var (before, had) := (r.Left(), stack);
      var v := r.Int(4);
      NextSigned(before, n - i, had);
      hide ToSigned, GetSigned, Get;
      stack := stack + [ToSigned(v, 4)];
      i := i + 1;
    }
    ok := true;
    assert GetSigned(r.Left(), 0).1 == [] && stack + [] == stack;
    assert GetSigned(start, n) == (GetSigned(start, n).0, GetSigned(start, n).1);
  }

  method ReadKeyboard(sb: B.ScreenBuffer, r: Reader) returns (ok: bool)
    requires r.Valid()
    modifies sb`keyboard, r
    ensures forall m: V.Machine, g: bool {:trigger Loading(old(sb.View()), m, g)} ::
      LoadKeyboard(Loading(old(sb.View()), m, g), old(r.Left())) == if ok then Some(Loading(sb.View(), m, g)) else None
  {
    hide GetStack, B.Rotated;
    var stack, saved;
    ok, stack := ReadStack(r);
    if !ok { return; }
    ok, saved := ReadStack(r);
    ok := ok && r.ok;
    if ok { sb.keyboard := S.Keyboard(stack, saved); }
  }

  method ReadLinks(sb: B.ScreenBuffer, r: Reader) returns (ok: bool)
    requires r.Valid()
    modifies sb`links, r
    ensures forall m: V.Machine, g: bool {:trigger Loading(old(sb.View()), m, g)} ::
      LoadLinks(Loading(old(sb.View()), m, g), old(r.Left())) == if ok then Some(Loading(sb.View(), m, g)) else None
  {
    hide GetFields, B.Rotated;
    var v := ReadFields(r, LINK_HEAD);
    if !r.ok || v[2] > MAX_LINKS { return false; }
    var uris := ReadLinkTable(r, v[2]);
    ok := r.ok;
    if ok { sb.links := S.Links(uris, v[0], v[1]); }
  }

  method ReadLinkTable(r: Reader, n: nat) returns (uris: map<nat, seq<byte>>)
    requires r.Valid()
    modifies r
    ensures r.Valid() && GetLinks(old(r.Left()), n, map[]) == (r.Left(), uris)
  {
    hide Get, GetStr;
    ghost var start := r.Left();
    uris := map[];
    var i := 0;
    while i < n
      invariant 0 <= i <= n && r.Valid()
      invariant GetLinks(start, n, map[]) == GetLinks(r.Left(), n - i, uris)
    {
      var id := r.Int(2);
      var uri := r.Text();
      uris := uris[id := uri];
      i := i + 1;
    }
  }

  /** The parser's fields, all read before any is set. */
  method ReadMachine(r: Reader) returns (ok: bool, m: V.Machine)
    requires r.Valid()
    modifies r
    ensures forall st: Loading {:trigger LoadParser(st, old(r.Left()))} ::
      LoadParser(st, old(r.Left())) == if ok then Some(st.(parser := m)) else None
  {
    hide GetFields, GetStr, StateOf;
    var v := ReadFields(r, PARSER_HEAD);
    var csi := r.Text();
    var w := ReadFields(r, PARSER_BYTES);
    var osc := r.Text();
    var apc := r.Text();
    var dcs := r.Text();
    ok, m := r.ok, V.Machine(StateOf(v[0]), v[1], v[2], csi, w[0] % 0x100, w[1] % 0x100, osc, apc, dcs);
  }

  method ReadParser(vp: V.VtParser, r: Reader) returns (ok: bool)
    requires r.Valid()
    modifies vp, r
    ensures forall s: S.Screen, g: bool {:trigger Loading(s, old(vp.Value()), g)} ::
      LoadParser(Loading(s, old(vp.Value()), g), old(r.Left())) == if ok then Some(Loading(s, vp.Value(), g)) else None
  {
    hide LoadParser;
    var m;
    ok, m := ReadMachine(r);
    if ok {
      vp.state, vp.utf8Codepoint, vp.utf8Remaining := m.state, m.utf8Codepoint, m.utf8Remaining;
      vp.csiParams, vp.csiIntermediate, vp.escIntermediate := m.csiParams, m.csiIntermediate, m.escIntermediate;
      vp.osc, vp.apc, vp.dcsParams := m.osc, m.apc, m.dcsParams;
    }
  }

  /** One section applied to the buffer and the parser. */
  method ReadSection(sb: B.ScreenBuffer, vp: V.VtParser, geom: bool, tag: nat, r: Reader) returns (ok: bool, geom': bool)
    requires r.Valid() && (geom ==> sb.rows >= 1)
    modifies sb, vp, r
    ensures Load(old(State(sb, vp, geom)), tag, old(r.Left())) == if ok then Some(State(sb, vp, geom')) else None
    ensures ok && geom' ==> sb.rows >= 1
    ensures old(sb.InRing()) ==> sb.InRing()
  {
    hide LoadGeom, LoadAlt, LoadScrollback, LoadCursor, LoadSgr, LoadModes, LoadCharsets, LoadKeyboard, LoadLinks, LoadParser;
    hide B.Rotated;
    ok, geom' := true, geom;
    ghost var before := Loading(sb.View(), vp.Value(), geom);
    match tag {
      case 1 =>
        ok := ReadGeom(sb, r);
        geom' := true;
      case 2 => if !geom { ok := false; } else { ok := ReadGrid(sb, r); }
      case 3 => ok := ReadAlt(sb, r);
      case 4 => ok := ReadScrollback(sb, r);
      case 5 => ok := ReadCursor(sb, r);
      case 6 => ok := ReadSgr(sb, r);
      case 7 => ok := ReadModes(sb, r);
      case 8 => ok := ReadCharsets(sb, r);
      case 9 => ok := ReadKeyboard(sb, r);
      case 10 => ok := ReadLinks(sb, r);
      case 11 => ok := ReadParser(vp, r);
      case _ =>
    }
  }

  /** Out-of-range cursor and region pulled in; the view goes to the bottom. */
  method ClampState(sb: B.ScreenBuffer)
    modifies sb`here, sb`region, sb`viewport
    ensures sb.View() == Clamped(old(sb.View()))
  {
    hide B.Rotated;
    var h := sb.here;
    if h.row >= sb.rows { h := h.(row := sb.rows - 1); }
    if h.col > sb.cols { h := h.(col := sb.cols); }
    var top, bottom := sb.region.top, sb.region.bottom;
    if bottom >= sb.rows || bottom < top { bottom := sb.rows - 1; }
    if top < 0 || top > bottom { top := 0; }
    sb.here, sb.region, sb.viewport := h, S.Region(top, bottom), 0;
  }

  /** LoadAll through one section whose head has been read. */
  lemma OneSection(st: Loading, i: Input)
    requires i.ok && i.rest != []
    ensures var (k, n) := Get(Get(i, 1).0, 4);
      LoadAll(st, i) ==
        if !k.ok || |k.rest| < n then None
        else match Load(st, Get(i, 1).1, Input(k.rest[..n], true))
          case None => None
          case Some(next) => LoadAll(next, Input(k.rest[n..], true))
  {
    hide Load, Get;
  }

  /** Reads one section of the snapshot and applies it; on false nothing more can be read. */
  method ReadNext(sb: B.ScreenBuffer, vp: V.VtParser, geom: bool, top: Reader) returns (ok: bool, geom': bool)
    requires top.Valid() && top.ok && top.p < |top.data| && (geom ==> sb.rows >= 1)
    modifies sb, vp, top
    ensures ok ==> top.Valid() && top.p > old(top.p) && (geom' ==> sb.rows >= 1)
    ensures LoadAll(old(State(sb, vp, geom)), old(top.Left()))
         == if ok then LoadAll(State(sb, vp, geom'), top.Left()) else None
    ensures old(sb.InRing()) ==> sb.InRing()
  {
    hide Load, Get, LoadAll, B.Rotated, State;
    geom' := geom;
    OneSection(State(sb, vp, geom), top.Left());
    var tag, r;
    ok, tag, r := NextSection(top);
    if ok { ok, geom' := ReadSection(sb, vp, geom, tag, r); }
  }

  lemma Parted(data: seq<byte>, p: nat, n: nat)
    requires p + n <= |data|
    ensures data[p..][..n] == data[p..p + n] && data[p..][n..] == data[p + n..]
  {
  }

  /** The tag of the next section and a reader for its payload; the top reader moves behind it. */
  method NextSection(top: Reader) returns (ok: bool, tag: nat, r: Reader)
    requires top.Valid() && top.ok && top.p < |top.data|
    modifies top
    ensures top.Valid() && fresh(r) && r.Valid()
    ensures var (k, n) := Get(Get(old(top.Left()), 1).0, 4);
            && (ok <==> k.ok && |k.rest| >= n)
            && (ok ==> tag == Get(old(top.Left()), 1).1 && r.Left() == Input(k.rest[..n], true)
                       && top.Left() == Input(k.rest[n..], true) && top.p > old(top.p))
  {
    hide Get;
    tag := top.Int(1);
    assert top.ok ==> top.p > old(top.p);
    var n := top.Int(4);
    ok := top.ok && |top.data| - top.p >= n;
    if ok {
      Parted(top.data, top.p, n);
      r := new Reader(top.data[top.p..top.p + n]);
      top.p := top.p + n;
    } else {
      r := new Reader([]);
    }
  }

  lemma NothingLeft(st: Loading, i: Input)
    requires !i.ok || i.rest == []
    ensures LoadAll(st, i) == if i.ok then Some(st) else None
  {
  }

  /** Applies every section of a snapshot whose head has been read. */
  method ReadSections(sb: B.ScreenBuffer, vp: V.VtParser, top: Reader) returns (ok: bool)
    requires top.Valid() && top.ok
    modifies sb, vp, top
    ensures var r := LoadAll(old(State(sb, vp, false)), old(top.Left()));
            && (ok <==> r.Some? && r.value.geom)
            && (ok ==> r == Some(State(sb, vp, true)) && sb.rows >= 1)
    ensures old(sb.InRing()) ==> sb.InRing()
  {
    hide LoadAll, B.Rotated, State;
    ghost var all := LoadAll(State(sb, vp, false), top.Left());
    var geom := false;
    while top.ok && top.p < |top.data|
      invariant top.Valid() && (geom ==> sb.rows >= 1)
      invariant all == LoadAll(State(sb, vp, geom), top.Left())
      invariant old(sb.InRing()) ==> sb.InRing()
      decreases |top.data| - top.p
    {
      var more;
      more, geom := ReadNext(sb, vp, geom, top);
      if !more { return false; }
    }
    NothingLeft(State(sb, vp, geom), top.Left());
    assert State(sb, vp, geom).geom == geom by { StateGeom(sb, vp, geom); }
    return top.ok && geom;
  }

  lemma StateGeom(sb: B.ScreenBuffer, vp: V.VtParser, geom: bool)
    ensures State(sb, vp, geom).geom == geom
  {
  }

  /** The magic number and the version. */
  method ReadHead(top: Reader) returns (ok: bool)
    requires top.Valid() && top.p == 0 && top.ok
    modifies top
    ensures ok <==> HeadIsKnown(old(top.Left()))
    ensures ok ==> top.Valid() && top.ok && top.Left() == AfterHead(old(top.Left()))
  {
    hide Get;
    var magic := top.Int(4);
    if magic != MAGIC { return false; }
    var version := top.Int(1);
    ok := version == VERSION && top.ok;
  }

  /** Applies a snapshot; on false the buffer and the parser may be partly overwritten. */
  method Deserialize(sb: B.ScreenBuffer, vp: V.VtParser, data: seq<byte>) returns (ok: bool)
    modifies sb, vp
    ensures ok <==> Snapshots.Deserialize(old(Terminal(sb.View(), vp.Value())), data).Some?
    ensures ok ==> Some(Terminal(sb.View(), vp.Value())) == Snapshots.Deserialize(old(Terminal(sb.View(), vp.Value())), data)
    ensures old(sb.InRing()) ==> sb.InRing()
  {
    hide LoadAll, Get, Clamped, B.Rotated;
    var top := new Reader(data);
    var known := ReadHead(top);
    if !known { return false; }
    ok := ReadSections(sb, vp, top);
    if ok { ClampState(sb); }
  }
}
