/**
  The snapshot format: tagged sections that carry the whole replicable state of a
  pane, screen and parser. Reading applies the sections one by one to whatever
  state is there before, skips unknown ones, and clamps at the end.
*/
module Snapshots {
  import opened Bytes
  import opened Cells
  import opened Wire
  import opened Wrappers
  import opened LineCodec
  import opened Screens
  import V = VtParsing

  const MAGIC: nat := 0x504E5352
  const VERSION: byte := 1
  const MAX_SIDE: nat := 4096
  const MAX_SCROLLBACK: nat := 1000000
  const MAX_KITTY: nat := 1024
  const MAX_LINKS: nat := 65536

  const GEOM: seq<nat> := [2, 2, 4, 1]
  const COUNTS: seq<nat> := [4, 4]
  const CURSOR: seq<nat> := [2, 2, 2, 2, 4, 4, 2, 1, 1, 1, 2, 2]
  const SGR: seq<nat> := [4, 4, 2, 4]
  const MODE_FIELDS: seq<nat> := [4, 2]
  const CHARSETS: seq<nat> := [1, 1, 1]
  const LINK_HEAD: seq<nat> := [2, 2, 4]
  const PARSER_HEAD: seq<nat> := [1, 4, 1]
  const PARSER_BYTES: seq<nat> := [1, 1]

  /** A pane's terminal: what a snapshot is taken of. */
  datatype Terminal = Terminal(screen: Screen, parser: V.Machine)

  // ---------- small encodings ----------

  function Bit(b: bool): nat {
    if b then 1 else 0
  }

  /** Flags packed into a word, the first in bit 0. */
  function PackBits(flags: seq<bool>): nat {
    if flags == [] then 0 else Bit(flags[0]) + 2 * PackBits(flags[1..])
  }

  function UnpackBits(word: nat, n: nat): (flags: seq<bool>)
    ensures |flags| == n
    decreases n
  {
    if n == 0 then [] else [word % 2 == 1] + UnpackBits(word / 2, n - 1)
  }

  function ModeFlags(m: Modes): seq<bool> {
    [m.appCursor, m.cursorBlink, m.focusEvents, m.bracketedPaste, m.sgrMouse, m.graphemes, m.synchronized, m.cursorVisible]
  }

  function ModeWord(m: Modes): nat {
    PackBits(ModeFlags(m))
  }

  function ModesOf(word: nat, mouse: nat): Modes {
    var f := UnpackBits(word, 8);
    Modes(f[0], f[1], f[2], f[3], f[4], f[5], f[6], f[7], mouse)
  }

  function StateCode(s: V.State): nat {
    match s
    case Ground => 0 case Escape => 1 case EscapeIntermediate => 2 case CsiEntry => 3 case CsiParam => 4
    case CsiIntermediate => 5 case CsiIgnore => 6 case OscString => 7 case DcsEntry => 8 case DcsPassthrough => 9
    case DcsIgnore => 10 case ApcString => 11 case Utf8 => 12
  }

  function StateOf(code: nat): V.State {
    match code
    case 1 => V.Escape case 2 => V.EscapeIntermediate case 3 => V.CsiEntry case 4 => V.CsiParam
    case 5 => V.CsiIntermediate case 6 => V.CsiIgnore case 7 => V.OscString case 8 => V.DcsEntry
    case 9 => V.DcsPassthrough case 10 => V.DcsIgnore case 11 => V.ApcString case 12 => V.Utf8
    case _ => V.Ground
  }

  function PutSigned(values: seq<int>): seq<byte> {
    if values == [] then [] else PutSigned(values[..|values| - 1]) + LE(FromSigned(values[|values| - 1], 4), 4)
  }

  function GetSigned(i: Input, n: nat): (r: (Input, seq<int>))
    ensures |r.1| == n
    decreases n
  {
    if n == 0 then (i, [])
    else
      var (j, v) := Get(i, 4);
      var (k, vs) := GetSigned(j, n - 1);
      (k, [ToSigned(v, 4)] + vs)
  }

  /** A stack of flag sets behind its 16-bit count. */
  function PutStack(stack: seq<int>): seq<byte> {
    LE(|stack|, 2) + PutSigned(stack)
  }

  function GetStack(i: Input): Option<(Input, seq<int>)> {
    var (j, n) := Get(i, 2);
    if !j.ok || n > MAX_KITTY then None else Some(GetSigned(j, n))
  }

  /** The link table in some order of its keys. */
  function PutLinks(uris: map<nat, seq<byte>>, order: seq<nat>): seq<byte>
    requires forall i | 0 <= i < |order| :: order[i] in uris
  {
    if order == [] then []
    else
      var id := order[|order| - 1];
      PutLinks(uris, order[..|order| - 1]) + (LE(id, 2) + Str(uris[id]))
  }

  function GetLinks(i: Input, n: nat, uris: map<nat, seq<byte>>): (Input, map<nat, seq<byte>>)
    decreases n
  {
    if n == 0 then (i, uris)
    else
      var (j, id) := Get(i, 2);
      var (k, uri) := GetStr(j);
      GetLinks(k, n - 1, uris[id := uri])
  }

  /** Every key of the table once. */
  predicate EnumeratesLinks(uris: map<nat, seq<byte>>, order: seq<nat>) {
    && (forall i | 0 <= i < |order| :: order[i] in uris)
    && (forall i, j | 0 <= i < j < |order| :: order[i] != order[j])
    && (forall id | id in uris :: id in order)
  }

  // ---------- writing ----------

  function Included(s: Screen, max: int): nat {
    if max < 0 || max >= |s.scrollback| then |s.scrollback| else max
  }

  function Omitted(s: Screen, max: int): int {
    |s.scrollback| - Included(s, max) + s.trimmed
  }

  function GeomFields(s: Screen): seq<nat> {
    [FromSigned(s.cols, 2), FromSigned(s.rows, 2), s.limit, Bit(s.usingAlt)]
  }

  function CursorFields(s: Screen): seq<nat> {
    [FromSigned(s.here.row, 2), FromSigned(s.here.col, 2), FromSigned(s.saved.row, 2), FromSigned(s.saved.col, 2),
     s.saved.pen.fg, s.saved.pen.bg, s.saved.pen.attrs,
     s.saved.charset.g0, s.saved.charset.g1, s.saved.charset.gl,
     FromSigned(s.region.top, 2), FromSigned(s.region.bottom, 2)]
  }

  function SgrFields(s: Screen): seq<nat> {
    [s.here.pen.fg, s.here.pen.bg, s.here.pen.attrs, s.lastPrinted]
  }

  function CharsetFields(s: Screen): seq<nat> {
    [s.here.charset.g0, s.here.charset.g1, s.here.charset.gl]
  }

  function ParserPayload(m: V.Machine): seq<byte> {
    PutFields(PARSER_HEAD, [StateCode(m.state), m.utf8Codepoint, m.utf8Remaining]) + (Str(m.csiParams) +
      (PutFields(PARSER_BYTES, [m.csiIntermediate, m.escIntermediate]) + (Str(m.osc) + (Str(m.apc) + Str(m.dcsParams)))))
  }

  function AltPayload(s: Screen): seq<byte> {
    LE(|s.alt|, 2) + EncodeLines(s.alt)
  }

  function ScrollbackPayload(s: Screen, max: int): seq<byte> {
    PutFields(COUNTS, [Included(s, max), FromSigned(Omitted(s, max), 4)])
      + EncodeLines(s.scrollback[|s.scrollback| - Included(s, max)..])
  }

  function LinksPayload(l: Links, order: seq<nat>): seq<byte>
    requires EnumeratesLinks(l.uris, order)
  {
    PutFields(LINK_HEAD, [l.current, l.next, |l.uris|]) + PutLinks(l.uris, order)
  }

  /** The payload of section tag, 1 to 11. */
  function Payload(t: Terminal, order: seq<nat>, max: int, tag: nat): seq<byte>
    requires EnumeratesLinks(t.screen.links.uris, order)
  {
    var s := t.screen;
    match tag
    case 1 => PutFields(GEOM, GeomFields(s))
    case 2 => EncodeLines(s.grid)
    case 3 => AltPayload(s)
    case 4 => ScrollbackPayload(s, max)
    case 5 => PutFields(CURSOR, CursorFields(s))
    case 6 => PutFields(SGR, SgrFields(s))
    case 7 => PutFields(MODE_FIELDS, [ModeWord(s.modes), s.modes.mouse])
    case 8 => PutFields(CHARSETS, CharsetFields(s))
    case 9 => PutStack(s.keyboard.stack) + PutStack(s.keyboard.saved)
    case 10 => LinksPayload(s.links, order)
    case _ => ParserPayload(t.parser)
  }

  function Section(tag: byte, payload: seq<byte>): seq<byte> {
    [tag] + (LE(|payload|, 4) + payload)
  }

  /** The sections from tag on. */
  function SectionsFrom(t: Terminal, order: seq<nat>, max: int, tag: nat): seq<byte>
    requires EnumeratesLinks(t.screen.links.uris, order) && 1 <= tag <= 12
    decreases 12 - tag
  {
    if tag == 12 then [] else Section(tag, Payload(t, order, max, tag)) + SectionsFrom(t, order, max, tag + 1)
  }

  function Serialize(t: Terminal, order: seq<nat>, max: int): seq<byte>
    requires EnumeratesLinks(t.screen.links.uris, order)
  {
    LE(MAGIC, 4) + ([VERSION] + SectionsFrom(t, order, max, 1))
  }

  // ---------- reading ----------

  /** The state being overwritten, and whether the geometry section has been seen. */
  datatype Loading = Loading(screen: Screen, parser: V.Machine, geom: bool)

  function LoadGeom(st: Loading, i: Input): Option<Loading> {
    var (j, v) := GetFields(i, GEOM);
    if !j.ok || v[0] < 1 || v[1] < 1 || v[0] > MAX_SIDE || v[1] > MAX_SIDE then None
    else Some(st.(screen := st.screen.(cols := v[0], rows := v[1], limit := v[2], usingAlt := v[3] != 0), geom := true))
  }

  function LoadGrid(st: Loading, i: Input): Option<Loading> {
    if !st.geom || st.screen.rows < 0 then None
    else match DecodeLines(i, st.screen.rows)
      case None => None
      case Some((j, lines)) => if j.ok then Some(st.(screen := st.screen.(grid := lines))) else None
  }

  function LoadAlt(st: Loading, i: Input): Option<Loading> {
    var (j, n) := Get(i, 2);
    if !j.ok || n > MAX_SIDE then None
    else match DecodeLines(j, n)
      case None => None
      case Some((k, lines)) => if k.ok then Some(st.(screen := st.screen.(alt := lines))) else None
  }

  /** What is known of a history whose first lines were not sent. */
  function KnownHistory(omitted: nat, lines: seq<Line>): (h: seq<Line>)
    ensures |h| == omitted + |lines| && h[omitted..] == lines
  {
    BlankGrid(omitted, 0) + lines
  }

  function LoadScrollback(st: Loading, i: Input): Option<Loading> {
    var (j, v) := GetFields(i, COUNTS);
    if !j.ok || v[0] > MAX_SCROLLBACK then None
    else match DecodeLines(j, v[0])
      case None => None
      case Some((k, lines)) =>
        if k.ok
        then Some(st.(screen := st.screen.(scrollback := lines, trimmed := ToSigned(v[1], 4),
                                           history := KnownHistory(Max(0, ToSigned(v[1], 4)), lines))))
        else None
  }

  function LoadCursor(st: Loading, i: Input): Option<Loading> {
    var (j, v) := GetFields(i, CURSOR);
    if !j.ok then None
    else Some(st.(screen := st.screen.(
      here := st.screen.here.(row := v[0], col := v[1]),
      saved := Position(v[2], v[3], Pen(v[4], v[5], v[6]), Charset(v[7], v[8], v[9])),
      region := Region(v[10], v[11]))))
  }

  function LoadSgr(st: Loading, i: Input): Option<Loading> {
    var (j, v) := GetFields(i, SGR);
    if !j.ok then None
    else Some(st.(screen := st.screen.(here := st.screen.here.(pen := Pen(v[0], v[1], v[2])), lastPrinted := v[3])))
  }

  function LoadModes(st: Loading, i: Input): Option<Loading> {
    var (j, v) := GetFields(i, MODE_FIELDS);
    if !j.ok then None else Some(st.(screen := st.screen.(modes := ModesOf(v[0], v[1]))))
  }

  function LoadCharsets(st: Loading, i: Input): Option<Loading> {
    var (j, v) := GetFields(i, CHARSETS);
    if !j.ok then None
    else Some(st.(screen := st.screen.(here := st.screen.here.(charset := Charset(v[0], v[1], v[2])))))
  }

  function LoadKeyboard(st: Loading, i: Input): Option<Loading> {
    match GetStack(i)
    case None => None
    case Some((j, stack)) =>
      match GetStack(j)
      case None => None
      case Some((k, saved)) => if k.ok then Some(st.(screen := st.screen.(keyboard := Keyboard(stack, saved)))) else None
  }

  function LoadLinks(st: Loading, i: Input): Option<Loading> {
    var (j, v) := GetFields(i, LINK_HEAD);
    if !j.ok || v[2] > MAX_LINKS then None
    else
      var (k, uris) := GetLinks(j, v[2], map[]);
      if k.ok then Some(st.(screen := st.screen.(links := Links(uris, v[0], v[1])))) else None
  }

  function GetParserHead(i: Input): (r: (Input, seq<nat>, seq<byte>, seq<nat>))
    ensures |r.1| == 3 && |r.3| == 2
  {
    var (i1, v) := GetFields(i, PARSER_HEAD);
    var (i2, csi) := GetStr(i1);
    var (i3, w) := GetFields(i2, PARSER_BYTES);
    (i3, v, csi, w)
  }

  function LoadParser(st: Loading, i: Input): Option<Loading> {
    var (i3, v, csi, w) := GetParserHead(i);
    var (i4, osc) := GetStr(i3);
    var (i5, apc) := GetStr(i4);
    var (i6, dcs) := GetStr(i5);
    if !i6.ok then None
    else Some(st.(parser := V.Machine(StateOf(v[0]), v[1], v[2], csi, w[0] % 0x100, w[1] % 0x100, osc, apc, dcs)))
  }

  /** One section applied; an unknown tag changes nothing. */
  function Load(st: Loading, tag: nat, i: Input): Option<Loading> {
    match tag
    case 1 => LoadGeom(st, i)
    case 2 => LoadGrid(st, i)
    case 3 => LoadAlt(st, i)
    case 4 => LoadScrollback(st, i)
    case 5 => LoadCursor(st, i)
    case 6 => LoadSgr(st, i)
    case 7 => LoadModes(st, i)
    case 8 => LoadCharsets(st, i)
    case 9 => LoadKeyboard(st, i)
    case 10 => LoadLinks(st, i)
    case 11 => LoadParser(st, i)
    case _ => Some(st)
  }

  function LoadAll(st: Loading, i: Input): Option<Loading>
    decreases |i.rest|
  {
    if !i.ok then None
    else if i.rest == [] then Some(st)
    else
      var (j, tag) := Get(i, 1);
      var (k, n) := Get(j, 4);
      if !k.ok || |k.rest| < n then None
      else match Load(st, tag, Input(k.rest[..n], true))
        case None => None
        case Some(next) => LoadAll(next, Input(k.rest[n..], true))
  }

  /** A region that is not proper on this screen becomes proper. */
  function RestoredRegion(r: Region, rows: int): Region {
    var bottom := if r.bottom >= rows || r.bottom < r.top then rows - 1 else r.bottom;
    Region(if r.top < 0 || r.top > bottom then 0 else r.top, bottom)
  }

  function Clamped(s: Screen): Screen {
    s.(here := s.here.(row := if s.here.row >= s.rows then s.rows - 1 else s.here.row,
                       col := if s.here.col > s.cols then s.cols else s.here.col),
       region := RestoredRegion(s.region, s.rows),
       viewport := 0)
  }

  /** Behind the magic number and the version. */
  function AfterHead(i: Input): Input {
    Get(Get(i, 4).0, 1).0
  }

  predicate HeadIsKnown(i: Input) {
    Get(i, 4).1 == MAGIC && Get(Get(i, 4).0, 1).1 == VERSION && AfterHead(i).ok
  }

  /** A snapshot applied over the state t; None for malformed input. */
  function Deserialize(t: Terminal, data: seq<byte>): Option<Terminal> {
    var i := Input(data, true);
    if !HeadIsKnown(i) then None
    else match LoadAll(Loading(t.screen, t.parser, false), AfterHead(i))
      case None => None
      case Some(st) => if st.geom then Some(Terminal(Clamped(st.screen), st.parser)) else None
  }
}
