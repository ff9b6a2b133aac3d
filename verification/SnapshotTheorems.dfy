/** A snapshot restores what it was taken of, and passes over sections it does not know. */
module SnapshotTheorems {
  import opened Bytes
  import opened Cells
  import opened Wire
  import opened Wrappers
  import opened LineCodec
  import opened Screens
  import opened Snapshots
  import V = VtParsing

  // ---------- what the format can hold ----------

  predicate FitsPen(p: Pen) {
    p.fg < Range(4) && p.bg < Range(4) && p.attrs < Range(2)
  }

  predicate FitsPosition(p: Position) {
    FitsPen(p.pen) && p.charset.g0 < 0x100 && p.charset.g1 < 0x100 && p.charset.gl < 0x100
  }

  predicate FitsStack(stack: seq<int>) {
    |stack| <= MAX_KITTY && forall i | 0 <= i < |stack| :: -0x8000_0000 <= stack[i] < 0x8000_0000
  }

  predicate FitsLinks(l: Links) {
    && l.current < Range(2) && l.next < Range(2) && |l.uris| <= MAX_LINKS
    && forall id | id in l.uris :: id < Range(2) && |l.uris[id]| < Range(4)
  }

  predicate FitsParser(m: V.Machine) {
    && m.utf8Codepoint < Range(4) && m.utf8Remaining < 0x100
    && |m.csiParams| < Range(4) && |m.osc| < Range(4) && |m.apc| < Range(4) && |m.dcsParams| < Range(4)
  }

  function Tail(s: Screen, max: int): seq<Line> {
    s.scrollback[|s.scrollback| - Included(s, max)..]
  }

  predicate FitsScreen(s: Screen, max: int) {
    && s.WellFormed() && s.cols <= MAX_SIDE && s.rows <= MAX_SIDE && s.limit < Range(4)
    && FitLines(s.grid) && FitLines(s.alt) && FitLines(Tail(s, max))
    && Included(s, max) <= MAX_SCROLLBACK && 0 <= Omitted(s, max) < 0x8000_0000
    && FitsPosition(s.here) && FitsPosition(s.saved) && 0 <= s.saved.row < Range(2) && 0 <= s.saved.col < Range(2)
    && s.modes.mouse < Range(2) && s.lastPrinted < Range(4)
    && FitsStack(s.keyboard.stack) && FitsStack(s.keyboard.saved) && FitsLinks(s.links)
  }

  predicate Encodable(t: Terminal, order: seq<nat>, max: int) {
    && EnumeratesLinks(t.screen.links.uris, order)
    && FitsScreen(t.screen, max) && FitsParser(t.parser)
    && forall tag {:trigger Payload(t, order, max, tag)} | 1 <= tag <= 11 :: |Payload(t, order, max, tag)| < Range(4)
  }

  // ---------- what is restored ----------

  /** What section tag carries over from t. */
  function Merge(st: Loading, t: Terminal, max: int, tag: nat): Loading {
    var (s, r) := (t.screen, st.screen);
    match tag
    case 1 => st.(screen := r.(cols := s.cols, rows := s.rows, limit := s.limit, usingAlt := s.usingAlt), geom := true)
    case 2 => st.(screen := r.(grid := s.grid))
    case 3 => st.(screen := r.(alt := s.alt))
    case 4 => st.(screen := r.(scrollback := Tail(s, max), trimmed := Omitted(s, max),
                               history := KnownHistory(Max(0, Omitted(s, max)), Tail(s, max))))
    case 5 => st.(screen := r.(here := r.here.(row := s.here.row, col := s.here.col), saved := s.saved,
                               region := Region(FromSigned(s.region.top, 2), FromSigned(s.region.bottom, 2))))
    case 6 => st.(screen := r.(here := r.here.(pen := s.here.pen), lastPrinted := s.lastPrinted))
    case 7 => st.(screen := r.(modes := s.modes))
    case 8 => st.(screen := r.(here := r.here.(charset := s.here.charset)))
    case 9 => st.(screen := r.(keyboard := s.keyboard))
    case 10 => st.(screen := r.(links := s.links))
    case 11 => st.(parser := t.parser)
    case _ => st
  }

  /** Everything but the viewport, older history and a scroll region that is not proper. */
  function Restored(prior: Terminal, t: Terminal, max: int): Terminal {
    t.(screen := t.screen.(
      scrollback := Tail(t.screen, max), trimmed := Omitted(t.screen, max),
      history := KnownHistory(Max(0, Omitted(t.screen, max)), Tail(t.screen, max)),
      region := RestoredRegion(Region(FromSigned(t.screen.region.top, 2), FromSigned(t.screen.region.bottom, 2)), t.screen.rows),
      viewport := 0, savedViewport := prior.screen.savedViewport))
  }

  // ---------- small encodings ----------

  lemma SmallSigned(n: int)
    requires -1 <= n < 0x1_0000
    ensures FromSigned(n, 2) == if n < 0 then n + 0x1_0000 else n
  {
    RangeValues();
    if n >= 0 { Remainder(n, 0x1_0000, 0, n); } else { Remainder(n, 0x1_0000, -1, n + 0x1_0000); }
  }

  lemma {:induction false} BitsRoundTrip(flags: seq<bool>)
    ensures UnpackBits(PackBits(flags), |flags|) == flags
    ensures |flags| <= 8 ==> PackBits(flags) < 0x100
    decreases |flags|
  {
    if flags != [] {
      BitsRoundTrip(flags[1..]);
      LowBit(flags[0], PackBits(flags[1..]));
      assert flags == [flags[0]] + flags[1..];
      PackedBound(flags);
    }
  }

  lemma LowBit(b: bool, rest: nat)
    ensures (Bit(b) + 2 * rest) % 2 == Bit(b) && (Bit(b) + 2 * rest) / 2 == rest
  {
  }

  lemma {:induction false} PackedBound(flags: seq<bool>)
    ensures PackBits(flags) < Power2(|flags|)
    ensures |flags| <= 8 ==> Power2(|flags|) <= 0x100
    decreases |flags|
  {
    if flags != [] { PackedBound(flags[1..]); }
    PowersOfTwo();
  }

  lemma ModesRoundTrip(m: Modes)
    ensures ModesOf(ModeWord(m), m.mouse) == m && ModeWord(m) < 0x100
  {
    BitsRoundTrip(ModeFlags(m));
    hide PackBits, UnpackBits;
  }

  lemma {:induction false} PutSignedFront(values: seq<int>)
    requires values != []
    ensures PutSigned(values) == LE(FromSigned(values[0], 4), 4) + PutSigned(values[1..])
    decreases |values|
  {
    var init := values[..|values| - 1];
    if init == [] {
      assert values[1..] == [] && PutSigned(init) == [];
    } else {
      PutSignedFront(init);
      assert values[1..][..|values| - 2] == init[1..];
      hide LE, FromSigned;
      Associative(LE(FromSigned(values[0], 4), 4), PutSigned(init[1..]), LE(FromSigned(values[|values| - 1], 4), 4));
    }
  }

  lemma {:induction false} SignedListRoundTrip(values: seq<int>, rest: seq<byte>)
    requires FitsStack(values)
    ensures GetSigned(Input(PutSigned(values) + rest, true), |values|) == (Input(rest, true), values)
    decreases |values|
  {
    RangeValues();
    hide LE, Get, Range, FromSigned, ToSigned;
    if values == [] {
      assert PutSigned(values) + rest == rest;
    } else {
      var word, tail := FromSigned(values[0], 4), PutSigned(values[1..]);
      PutSignedFront(values);
      hide PutSigned;
      Associative(LE(word, 4), tail, rest);
      GetOfSmall(word, 4, tail + rest);
      SignedRoundTrip(values[0], 4);
      assert FitsStack(values[1..]);
      SignedListRoundTrip(values[1..], rest);
      assert values == [values[0]] + values[1..];
    }
  }

  lemma StackRoundTrip(stack: seq<int>, rest: seq<byte>)
    requires FitsStack(stack)
    ensures GetStack(Input(PutStack(stack) + rest, true)) == Some((Input(rest, true), stack))
  {
    RangeValues();
    assert PutStack(stack) + rest == LE(|stack|, 2) + (PutSigned(stack) + rest);
    GetOfSmall(|stack|, 2, PutSigned(stack) + rest);
    SignedListRoundTrip(stack, rest);
  }

  /** The entries of the first keys of an enumeration. */
  function Entries(uris: map<nat, seq<byte>>, order: seq<nat>): map<nat, seq<byte>>
    requires forall i | 0 <= i < |order| :: order[i] in uris
  {
    map id | id in uris && id in order :: uris[id]
  }

  lemma {:induction false} PutLinksFront(uris: map<nat, seq<byte>>, order: seq<nat>)
    requires order != [] && forall i | 0 <= i < |order| :: order[i] in uris
    ensures PutLinks(uris, order) == LE(order[0], 2) + Str(uris[order[0]]) + PutLinks(uris, order[1..])
    decreases |order|
  {
    var init := order[..|order| - 1];
    if init == [] {
      assert order[1..] == [] && PutLinks(uris, init) == [];
    } else {
      PutLinksFront(uris, init);
      assert order[1..][..|order| - 2] == init[1..];
      var last := LE(order[|order| - 1], 2) + Str(uris[order[|order| - 1]]);
      var first := LE(order[0], 2) + Str(uris[order[0]]);
      assert (first + PutLinks(uris, init[1..])) + last == first + (PutLinks(uris, init[1..]) + last);
    }
  }

  lemma {:induction false} LinksRoundTrip(uris: map<nat, seq<byte>>, done: seq<nat>, order: seq<nat>, rest: seq<byte>)
    requires forall i | 0 <= i < |done| :: done[i] in uris
    requires forall i | 0 <= i < |order| :: order[i] in uris
    requires forall id | id in uris :: id < Range(2) && |uris[id]| < Range(4)
    ensures GetLinks(Input(PutLinks(uris, order) + rest, true), |order|, Entries(uris, done))
         == (Input(rest, true), Entries(uris, done + order))
    decreases |order|
  {
    hide Range, GetStr, Str, LE, Get;
    if order == [] {
      assert PutLinks(uris, order) + rest == rest && done + order == done;
    } else {
      var id, tail := order[0], PutLinks(uris, order[1..]);
      PutLinksFront(uris, order);
      assert LE(id, 2) + Str(uris[id]) + tail + rest == LE(id, 2) + (Str(uris[id]) + (tail + rest));
      GetOfSmall(id, 2, Str(uris[id]) + (tail + rest));
      GetStrOfStr(uris[id], tail + rest);
      assert Entries(uris, done)[id := uris[id]] == Entries(uris, done + [id]);
      LinksRoundTrip(uris, done + [id], order[1..], rest);
      assert done + order == done + [id] + order[1..];
    }
  }

  lemma {:induction false} EnumerationLength(uris: map<nat, seq<byte>>, order: seq<nat>)
    requires EnumeratesLinks(uris, order)
    ensures |order| == |uris|
    decreases |order|
  {
    var keys := set i | 0 <= i < |order| :: order[i];
    DistinctCount(order);
    assert keys == uris.Keys;
  }

  lemma {:induction false} DistinctCount(order: seq<nat>)
    requires forall i, j | 0 <= i < j < |order| :: order[i] != order[j]
    ensures |set i | 0 <= i < |order| :: order[i]| == |order|
    decreases |order|
  {
    if order != [] {
      var init := order[..|order| - 1];
      DistinctCount(init);
      assert (set i | 0 <= i < |order| :: order[i]) == (set i | 0 <= i < |init| :: init[i]) + {order[|order| - 1]};
    }
  }

  // ---------- section by section ----------

  lemma FieldsAlone(widths: seq<nat>, values: seq<nat>)
    requires Fits(widths, values)
    ensures GetFields(Input(PutFields(widths, values), true), widths) == (Input([], true), values)
  {
    FieldsRoundTrip(widths, values, []);
    assert PutFields(widths, values) + [] == PutFields(widths, values);
  }

  lemma GeomLoads(st: Loading, s: Screen, max: int)
    requires FitsScreen(s, max)
    ensures LoadGeom(st, Input(PutFields(GEOM, GeomFields(s)), true)) == Some(st.(geom := true,
      screen := st.screen.(cols := s.cols, rows := s.rows, limit := s.limit, usingAlt := s.usingAlt)))
  {
    RangeValues();
    SmallSigned(s.cols);
    SmallSigned(s.rows);
    assert Fits(GEOM, GeomFields(s));
    hide GetFields, PutFields, Range, FromSigned;
    FieldsAlone(GEOM, GeomFields(s));
  }

  lemma LinesAlone(lines: seq<Line>)
    requires FitLines(lines)
    ensures DecodeLines(Input(EncodeLines(lines), true), |lines|) == Some((Input([], true), lines))
  {
    LinesRoundTrip(lines, []);
    assert EncodeLines(lines) + [] == EncodeLines(lines);
  }

  lemma AltLoads(st: Loading, s: Screen, max: int)
    requires FitsScreen(s, max)
    ensures LoadAlt(st, Input(AltPayload(s), true)) == Some(st.(screen := st.screen.(alt := s.alt)))
  {
    RangeValues();
    hide EncodeLines, DecodeLines, Get;
    GetOfSmall(|s.alt|, 2, EncodeLines(s.alt));
    LinesAlone(s.alt);
  }

  lemma ScrollbackLoads(st: Loading, s: Screen, max: int)
    requires FitsScreen(s, max)
    ensures LoadScrollback(st, Input(ScrollbackPayload(s, max), true)) == Some(st.(screen := st.screen.(
      scrollback := Tail(s, max), trimmed := Omitted(s, max),
      history := KnownHistory(Max(0, Omitted(s, max)), Tail(s, max)))))
  {
    TailFits(s, max);
    hide *;
    CountedLinesLoad(st, Omitted(s, max), Tail(s, max));
  }

  lemma TailFits(s: Screen, max: int)
    requires FitsScreen(s, max)
    ensures FitLines(Tail(s, max)) && |Tail(s, max)| <= MAX_SCROLLBACK && 0 <= Omitted(s, max) < 0x8000_0000
    ensures ScrollbackPayload(s, max) == PutFields(COUNTS, [|Tail(s, max)|, FromSigned(Omitted(s, max), 4)]) + EncodeLines(Tail(s, max))
  {
    hide PutFields, EncodeLines, FromSigned, FitLines, LineCodec.FitsLine, Screen.WellFormed;
  }

  lemma CountsFit(n: nat, omitted: int)
    requires n <= MAX_SCROLLBACK && 0 <= omitted < 0x8000_0000
    ensures Fits(COUNTS, [n, FromSigned(omitted, 4)]) && ToSigned(FromSigned(omitted, 4), 4) == omitted
  {
    RangeValues();
    hide Range;
    SignedRoundTrip(omitted, 4);
    hide FromSigned, ToSigned;
  }

  lemma CountedLinesLoad(st: Loading, omitted: int, lines: seq<Line>)
    requires FitLines(lines) && |lines| <= MAX_SCROLLBACK && 0 <= omitted < 0x8000_0000
    ensures LoadScrollback(st, Input(PutFields(COUNTS, [|lines|, FromSigned(omitted, 4)]) + EncodeLines(lines), true))
         == Some(st.(screen := st.screen.(scrollback := lines, trimmed := omitted, history := KnownHistory(Max(0, omitted), lines))))
  {
    hide FitLines, GetFields, PutFields, EncodeLines, DecodeLines, Range, FromSigned, ToSigned, KnownHistory, Fits, LoadScrollback;
    var v := [|lines|, FromSigned(omitted, 4)];
    CountsFit(|lines|, omitted);
    FieldsRoundTrip(COUNTS, v, EncodeLines(lines));
    LinesAlone(lines);
    CountsThenLines(st, Input(PutFields(COUNTS, v) + EncodeLines(lines), true), v, Input(EncodeLines(lines), true), lines);
  }

  lemma CountsThenLines(st: Loading, i: Input, v: seq<nat>, j: Input, lines: seq<Line>)
    requires GetFields(i, COUNTS) == (j, v) && j.ok && |v| == 2 && v[0] <= MAX_SCROLLBACK
    requires DecodeLines(j, v[0]) == Some((Input([], true), lines))
    ensures LoadScrollback(st, i) == Some(st.(screen := st.screen.(scrollback := lines, trimmed := ToSigned(v[1], 4),
              history := KnownHistory(Max(0, ToSigned(v[1], 4)), lines))))
  {
    hide GetFields, DecodeLines, ToSigned, KnownHistory;
  }

  lemma CursorLoads(st: Loading, s: Screen, max: int)
    requires FitsScreen(s, max)
    ensures LoadCursor(st, Input(PutFields(CURSOR, CursorFields(s)), true)) == Some(st.(screen := st.screen.(
      here := st.screen.here.(row := s.here.row, col := s.here.col), saved := s.saved,
      region := Region(FromSigned(s.region.top, 2), FromSigned(s.region.bottom, 2)))))
  {
    RangeValues();
    SmallSigned(s.here.row);
    SmallSigned(s.here.col);
    SmallSigned(s.saved.row);
    SmallSigned(s.saved.col);
    assert Fits(CURSOR, CursorFields(s));
    hide GetFields, PutFields, Range, FromSigned, Screen.WellFormed;
    FieldsAlone(CURSOR, CursorFields(s));
  }

  lemma SgrLoads(st: Loading, s: Screen, max: int)
    requires FitsScreen(s, max)
    ensures LoadSgr(st, Input(PutFields(SGR, SgrFields(s)), true))
      == Some(st.(screen := st.screen.(here := st.screen.here.(pen := s.here.pen), lastPrinted := s.lastPrinted)))
  {
    assert Fits(SGR, SgrFields(s));
    hide GetFields, PutFields, Range;
    FieldsAlone(SGR, SgrFields(s));
  }

  lemma ModesLoad(st: Loading, s: Screen, max: int)
    requires FitsScreen(s, max)
    ensures LoadModes(st, Input(PutFields(MODE_FIELDS, [ModeWord(s.modes), s.modes.mouse]), true))
      == Some(st.(screen := st.screen.(modes := s.modes)))
  {
    RangeValues();
    ModesRoundTrip(s.modes);
    var v := [ModeWord(s.modes), s.modes.mouse];
    hide ModeWord, ModesOf;
    assert Fits(MODE_FIELDS, v);
    hide GetFields, PutFields, Range;
    FieldsAlone(MODE_FIELDS, v);
  }

  lemma CharsetsLoad(st: Loading, s: Screen, max: int)
    requires FitsScreen(s, max)
    ensures LoadCharsets(st, Input(PutFields(CHARSETS, CharsetFields(s)), true))
      == Some(st.(screen := st.screen.(here := st.screen.here.(charset := s.here.charset))))
  {
    RangeValues();
    assert Fits(CHARSETS, CharsetFields(s));
    hide GetFields, PutFields, Range;
    FieldsAlone(CHARSETS, CharsetFields(s));
  }

  lemma KeyboardLoads(st: Loading, k: Keyboard)
    requires FitsStack(k.stack) && FitsStack(k.saved)
    ensures LoadKeyboard(st, Input(PutStack(k.stack) + PutStack(k.saved), true))
      == Some(st.(screen := st.screen.(keyboard := k)))
  {
    hide GetStack, PutStack;
    StackRoundTrip(k.stack, PutStack(k.saved));
    StackRoundTrip(k.saved, []);
    assert PutStack(k.saved) + [] == PutStack(k.saved);
  }

  lemma AllEntries(uris: map<nat, seq<byte>>, order: seq<nat>)
    requires EnumeratesLinks(uris, order)
    ensures Entries(uris, []) == map[] && Entries(uris, order) == uris
    ensures forall i | 0 <= i < |order| :: order[i] in uris
  {
  }

  lemma LinksAlone(uris: map<nat, seq<byte>>, order: seq<nat>)
    requires EnumeratesLinks(uris, order)
    requires forall id | id in uris :: id < Range(2) && |uris[id]| < Range(4)
    ensures |order| == |uris|
    ensures GetLinks(Input(PutLinks(uris, order), true), |uris|, map[]) == (Input([], true), uris)
  {
    hide *;
    EnumerationLength(uris, order);
    AllEntries(uris, order);
    LinksRoundTrip(uris, [], order, []);
    assert PutLinks(uris, order) + [] == PutLinks(uris, order);
    assert [] + order == order;
  }

  lemma LinksLoad(st: Loading, l: Links, order: seq<nat>)
    requires FitsLinks(l) && EnumeratesLinks(l.uris, order)
    ensures LoadLinks(st, Input(LinksPayload(l, order), true)) == Some(st.(screen := st.screen.(links := l)))
  {
    RangeValues();
    LinksAlone(l.uris, order);
    var v := [l.current, l.next, |l.uris|];
    hide EnumeratesLinks, GetLinks, PutLinks;
    assert Fits(LINK_HEAD, v);
    hide GetFields, PutFields, Range;
    FieldsRoundTrip(LINK_HEAD, v, PutLinks(l.uris, order));
  }

  lemma ParserHeadRoundTrip(m: V.Machine, rest: seq<byte>)
    requires FitsParser(m)
    ensures var v, w := [StateCode(m.state), m.utf8Codepoint, m.utf8Remaining], [m.csiIntermediate as nat, m.escIntermediate as nat];
            GetParserHead(Input(PutFields(PARSER_HEAD, v) + (Str(m.csiParams) + (PutFields(PARSER_BYTES, w) + rest)), true))
              == (Input(rest, true), v, m.csiParams, w)
  {
    RangeValues();
    var v, w := [StateCode(m.state), m.utf8Codepoint, m.utf8Remaining], [m.csiIntermediate as nat, m.escIntermediate as nat];
    assert Fits(PARSER_HEAD, v) && Fits(PARSER_BYTES, w);
    hide GetFields, PutFields, GetStr, Str, StateCode, Range;
    var tail := PutFields(PARSER_BYTES, w) + rest;
    FieldsRoundTrip(PARSER_HEAD, v, Str(m.csiParams) + tail);
    GetStrOfStr(m.csiParams, tail);
    FieldsRoundTrip(PARSER_BYTES, w, rest);
  }

  lemma StateRoundTrip(s: V.State)
    ensures StateOf(StateCode(s)) == s
  {
  }

  lemma ParserLoads(st: Loading, m: V.Machine)
    requires FitsParser(m)
    ensures LoadParser(st, Input(ParserPayload(m), true)) == Some(st.(parser := m))
  {
    hide GetParserHead, PutFields, GetStr, Str, StateOf, StateCode, Range;
    StateRoundTrip(m.state);
    var tail := Str(m.apc) + Str(m.dcsParams);
    ParserHeadRoundTrip(m, Str(m.osc) + tail);
    GetStrOfStr(m.osc, tail);
    GetStrOfStr(m.apc, Str(m.dcsParams));
    GetStrOfStr(m.dcsParams, []);
    assert Str(m.dcsParams) + [] == Str(m.dcsParams);
  }

  lemma PayloadLoads(st: Loading, t: Terminal, order: seq<nat>, max: int, tag: nat)
    requires EnumeratesLinks(t.screen.links.uris, order)
    requires FitsScreen(t.screen, max) && FitsParser(t.parser) && 1 <= tag <= 11
    requires tag == 2 ==> st.geom && st.screen.rows == t.screen.rows
    ensures Load(st, tag, Input(Payload(t, order, max, tag), true)) == Some(Merge(st, t, max, tag))
  {
    hide LoadGeom, LoadAlt, LoadScrollback, LoadCursor, LoadSgr, LoadModes, LoadCharsets, LoadKeyboard, LoadLinks, LoadParser;
    hide PutFields, AltPayload, ScrollbackPayload, LinksPayload, ParserPayload, KnownHistory, EncodeLines, DecodeLines;
    var s := t.screen;
    match tag {
      case 1 => GeomLoads(st, s, max);
      case 2 => LinesAlone(s.grid);
      case 3 => AltLoads(st, s, max);
      case 4 => ScrollbackLoads(st, s, max);
      case 5 => CursorLoads(st, s, max);
      case 6 => SgrLoads(st, s, max);
      case 7 => ModesLoad(st, s, max);
      case 8 => CharsetsLoad(st, s, max);
      case 9 => KeyboardLoads(st, s.keyboard);
      case 10 => LinksLoad(st, s.links, order);
      case _ => ParserLoads(st, t.parser);
    }
  }

  // ---------- all sections ----------

  /** A section at the front is loaded, then the rest. */
  lemma SectionIsLoaded(st: Loading, tag: byte, payload: seq<byte>, rest: seq<byte>)
    requires |payload| < Range(4)
    ensures LoadAll(st, Input(Section(tag, payload) + rest, true)) ==
      match Load(st, tag, Input(payload, true))
      case None => None
      case Some(next) => LoadAll(next, Input(rest, true))
  {
    RangeValues();
    var all := Section(tag, payload) + rest;
    assert LE(tag, 1) == [tag] by { assert LE(tag / 0x100, 0) == []; }
    assert all == LE(tag, 1) + (LE(|payload|, 4) + (payload + rest));
    GetOfSmall(tag, 1, LE(|payload|, 4) + (payload + rest));
    GetOfSmall(|payload|, 4, payload + rest);
    assert (payload + rest)[..|payload|] == payload && (payload + rest)[|payload|..] == rest;
  }

  /** A section with an unknown tag, wherever sections meet, is as if it were not there. */
  lemma UnknownSectionIsSkipped(st: Loading, tag: byte, payload: seq<byte>, rest: seq<byte>)
    requires |payload| < Range(4) && (tag == 0 || tag > 11)
    ensures LoadAll(st, Input(Section(tag, payload) + rest, true)) == LoadAll(st, Input(rest, true))
  {
    hide LoadAll;
    SectionIsLoaded(st, tag, payload, rest);
  }

  /** All sections from tag on merged, in order. */
  function MergeFrom(st: Loading, t: Terminal, max: int, tag: nat): Loading
    requires 1 <= tag <= 12
    decreases 12 - tag
  {
    if tag == 12 then st else MergeFrom(Merge(st, t, max, tag), t, max, tag + 1)
  }

  lemma {:induction false} SectionsLoad(st: Loading, t: Terminal, order: seq<nat>, max: int, tag: nat)
    requires Encodable(t, order, max) && 1 <= tag <= 12
    requires tag > 1 ==> st.geom && st.screen.rows == t.screen.rows
    ensures LoadAll(st, Input(SectionsFrom(t, order, max, tag), true)) == Some(MergeFrom(st, t, max, tag))
    decreases 12 - tag
  {
    hide Load, LoadAll, Payload, FitsScreen, FitsParser, Section;
    if tag < 12 {
      PayloadLoads(st, t, order, max, tag);
      SectionIsLoaded(st, tag, Payload(t, order, max, tag), SectionsFrom(t, order, max, tag + 1));
      MergeKeepsGeometry(st, t, max, tag);
      hide Merge;
      SectionsLoad(Merge(st, t, max, tag), t, order, max, tag + 1);
    } else {
      NoMoreSections(st);
    }
  }

  lemma MergeKeepsGeometry(st: Loading, t: Terminal, max: int, tag: nat)
    requires 1 <= tag <= 11 && (tag > 1 ==> st.geom && st.screen.rows == t.screen.rows)
    ensures Merge(st, t, max, tag).geom && Merge(st, t, max, tag).screen.rows == t.screen.rows
  {
    hide KnownHistory, Omitted, Tail, FromSigned;
  }

  lemma NoMoreSections(st: Loading)
    ensures LoadAll(st, Input([], true)) == Some(st)
  {
  }

  lemma MergedIsRestored(prior: Terminal, t: Terminal, max: int)
    requires FitsScreen(t.screen, max)
    ensures var st := MergeFrom(Loading(prior.screen, prior.parser, false), t, max, 1);
            st.geom && Terminal(Clamped(st.screen), st.parser) == Restored(prior, t, max)
  {
    var l0 := Loading(prior.screen, prior.parser, false);
    var l1 := Merge(l0, t, max, 1); var l2 := Merge(l1, t, max, 2); var l3 := Merge(l2, t, max, 3);
    var l4 := Merge(l3, t, max, 4); var l5 := Merge(l4, t, max, 5); var l6 := Merge(l5, t, max, 6);
    var l7 := Merge(l6, t, max, 7); var l8 := Merge(l7, t, max, 8); var l9 := Merge(l8, t, max, 9);
    var l10 := Merge(l9, t, max, 10); var l11 := Merge(l10, t, max, 11);
    assert MergeFrom(l0, t, max, 1) == l11;
  }

  lemma HeadLoads(sections: seq<byte>)
    ensures var i := Input(LE(MAGIC, 4) + ([VERSION] + sections), true);
            HeadIsKnown(i) && AfterHead(i) == Input(sections, true)
  {
    HeadFits();
    hide Get, Range, LE;
    GetOfSmall(MAGIC, 4, [VERSION] + sections);
    GetOfSmall(VERSION, 1, sections);
  }

  lemma HeadFits()
    ensures MAGIC < Range(4) && VERSION < Range(1) && LE(VERSION, 1) == [VERSION]
  {
    RangeValues();
    assert LE(VERSION / 0x100, 0) == [];
  }

  /** Taking a snapshot and applying it over any state restores the terminal. */
  lemma SnapshotRoundTrip(prior: Terminal, t: Terminal, order: seq<nat>, max: int)
    requires Encodable(t, order, max)
    ensures Deserialize(prior, Serialize(t, order, max)) == Some(Restored(prior, t, max))
  {
    var sections := SectionsFrom(t, order, max, 1);
    var st := Loading(prior.screen, prior.parser, false);
    assert Serialize(t, order, max) == LE(MAGIC, 4) + ([VERSION] + sections);
    hide Get, LE, LoadAll, MergeFrom, SectionsFrom, HeadIsKnown, AfterHead, Serialize, Restored, Clamped;
    HeadLoads(sections);
    SectionsLoad(st, t, order, max, 1);
    MergedIsRestored(prior, t, max);
  }

  /** The scroll region comes back unchanged exactly when it is not inverted. */
  lemma RegionRestoredIff(prior: Terminal, t: Terminal, max: int)
    requires t.screen.WellFormed() && t.screen.rows <= MAX_SIDE
    ensures Restored(prior, t, max).screen.region == t.screen.region
       <==> t.screen.region.top <= t.screen.region.bottom
  {
    SmallSigned(t.screen.region.bottom);
    if t.screen.region.top <= t.screen.region.bottom { SmallSigned(t.screen.region.top); }
  }

  /** CSI 5 ; 3 r on a screen of five rows is an inverted region, and a snapshot changes it. */
  lemma InvertedRegionIsChanged(prior: Terminal, m: V.Machine, max: int)
    ensures var s := Apply(Fresh(1, 5, 0), V.Csi([V.Param(5, []), V.Param(3, [])], 0, 'r' as int));
            s.WellFormed() && Restored(prior, Terminal(s, m), max).screen.region != s.region
  {
    var s := Apply(Fresh(1, 5, 0), V.Csi([V.Param(5, []), V.Param(3, [])], 0, 'r' as int));
    assert s.region == Region(4, 2) && s.rows == 5;
    hide Apply, Fresh, Restored;
    RegionRestoredIff(prior, Terminal(s, m), max);
  }
}
