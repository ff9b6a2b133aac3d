/**
  The escape-sequence parser: a byte machine with one byte of lookahead for the
  string terminator ESC \.

  `Run` is the meaning of one call of `feed`: it consumes a chunk and yields the
  handler calls made and the machine left behind. The class at the end is the
  program, a loop that updates fields in place; it is proved against `Run`.
  The chunking theorems say when cutting a byte stream differently changes nothing.
*/
module VtParsing {
  import opened Bytes

  // ---------- the machine ----------

  /** A colon-separated group of the control-sequence parameters; -1 is "omitted". */
  datatype Param = Param(value: int, sub: seq<int>)

  /** The calls made on the handler. */
  datatype Call =
    | Print(codepoint: nat)
    | Execute(code: byte)
    | Csi(params: seq<Param>, intermediate: byte, final: byte)
    | Osc(command: nat, payload: seq<byte>)
    | Esc(intermediate: byte, final: byte)
    | DcsStart
    | DcsPut(data: byte)
    | DcsEnd
    | Apc(payload: seq<byte>)

  datatype State =
    | Ground | Escape | EscapeIntermediate
    | CsiEntry | CsiParam | CsiIntermediate | CsiIgnore
    | OscString | DcsEntry | DcsPassthrough | DcsIgnore | ApcString | Utf8

  datatype Machine = Machine(
    state: State,
    utf8Codepoint: nat,
    utf8Remaining: nat,
    csiParams: seq<byte>,
    csiIntermediate: byte,
    escIntermediate: byte,
    osc: seq<byte>,
    apc: seq<byte>,
    dcsParams: seq<byte>)
  {
    predicate Valid() {
      && ParamText(csiParams)
      && (state == Utf8 ==> utf8Remaining >= 1)
    }
  }

  const INITIAL := Machine(Ground, 0, 0, [], 0, 0, [], [], [])

  const OSC_MAX: nat := 16 * 1024 * 1024
  const APC_MAX: nat := 32 * 1024 * 1024

  predicate IsDigit(b: byte) {
    '0' as int <= b <= '9' as int
  }

  predicate ParamText(s: seq<byte>) {
    forall i | 0 <= i < |s| :: IsDigit(s[i]) || s[i] == ';' as int || s[i] == ':' as int
  }

  /** The states in which ESC belongs to the string being collected. */
  predicate InString(s: State) {
    s == OscString || s == DcsPassthrough || s == ApcString
  }

  // ---------- parameters of a control sequence ----------

  /** The end of the digits that start at i. */
  function DigitEnd(s: seq<byte>, i: nat): (j: nat)
    requires i <= |s|
    ensures i <= j <= |s|
    ensures forall k | i <= k < j :: IsDigit(s[k])
    ensures j < |s| ==> !IsDigit(s[j])
    decreases |s| - i
  {
    if i == |s| || !IsDigit(s[i]) then i else DigitEnd(s, i + 1)
  }

  function Number(digits: seq<byte>): nat
    requires forall i | 0 <= i < |digits| :: IsDigit(digits[i])
  {
    if digits == [] then 0
    else
      assert IsDigit(digits[|digits| - 1]);
      Number(digits[..|digits| - 1]) * 10 + (digits[|digits| - 1] - '0' as int)
  }

  /** The optional number at i: its value, or -1 when there is no digit. */
  function NumberAt(s: seq<byte>, i: nat): int
    requires i <= |s|
  {
    if DigitEnd(s, i) == i then -1 else Number(s[i..DigitEnd(s, i)])
  }

  /** The sub-parameters at i, and the index after them. */
  function SubsAt(s: seq<byte>, i: nat): (r: (seq<int>, nat))
    requires i <= |s|
    ensures i <= r.1 <= |s|
    decreases |s| - i
  {
    if i == |s| || s[i] != ':' as int then ([], i)
    else
      var rest := SubsAt(s, DigitEnd(s, i + 1));
      ([NumberAt(s, i + 1)] + rest.0, rest.1)
  }

  function SkipSemicolon(s: seq<byte>, i: nat): (j: nat)
    requires i <= |s|
    ensures i <= j <= |s|
  {
    if i < |s| && s[i] == ';' as int then i + 1 else i
  }

  function ParamsFrom(s: seq<byte>, i: nat): seq<Param>
    requires ParamText(s) && i <= |s|
    decreases |s| - i
  {
    if i == |s| then []
    else
      var (sub, e) := SubsAt(s, DigitEnd(s, i));
      [Param(NumberAt(s, i), sub)] + ParamsFrom(s, SkipSemicolon(s, e))
  }

  function ParseParams(s: seq<byte>): seq<Param>
    requires ParamText(s)
  {
    ParamsFrom(s, 0)
  }

  // ---------- operating system commands ----------

  function FindSemicolon(s: seq<byte>): (n: nat)
    ensures n <= |s|
    ensures forall i | 0 <= i < n :: s[i] != ';' as int
    ensures n < |s| ==> s[n] == ';' as int
  {
    if s == [] || s[0] == ';' as int then 0 else 1 + FindSemicolon(s[1..])
  }

  /** The digits of s read as one number, other bytes ignored. */
  function DigitsOf(s: seq<byte>): nat {
    if s == [] then 0
    else
      var b := s[|s| - 1];
      var before := DigitsOf(s[..|s| - 1]);
      if IsDigit(b) then before * 10 + (b - '0' as int) else before
  }

  function OscCall(s: seq<byte>): Call {
    var semi := FindSemicolon(s);
    if semi < |s| then Osc(DigitsOf(s[..semi]), s[semi + 1..]) else Osc(0, [])
  }

  // ---------- one byte, and one chunk ----------

  datatype Outcome = Outcome(machine: Machine, calls: seq<Call>)

  function Quiet(m: Machine): Outcome {
    Outcome(m, [])
  }

  function Call1(m: Machine, c: Call): Outcome {
    Outcome(m, [c])
  }

  /** Moving to a state, with the entry action that state has. */
  function Enter(m: Machine, s: State): Machine {
    match s
    case CsiEntry => m.(state := s, csiParams := [], csiIntermediate := 0)
    case OscString => m.(state := s, osc := [])
    case Escape => m.(state := s, escIntermediate := 0)
    case DcsEntry => m.(state := s, dcsParams := [])
    case ApcString => m.(state := s, apc := [])
    case _ => m.(state := s)
  }

  function Final(m: Machine, b: byte): Outcome
    requires m.Valid()
  {
    Call1(m.(state := Ground), Csi(ParseParams(m.csiParams), m.csiIntermediate, b))
  }

  function StepGround(m: Machine, b: byte): Outcome {
    if 0x20 <= b <= 0x7E then Call1(m, Print(b))
    else if 0xC0 <= b <= 0xDF then Quiet(m.(state := Utf8, utf8Codepoint := b % 0x20, utf8Remaining := 1))
    else if 0xE0 <= b <= 0xEF then Quiet(m.(state := Utf8, utf8Codepoint := b % 0x10, utf8Remaining := 2))
    else if 0xF0 <= b <= 0xF7 then Quiet(m.(state := Utf8, utf8Codepoint := b % 0x08, utf8Remaining := 3))
    else Quiet(m)
  }

  function StepEscape(m: Machine, b: byte): Outcome {
    if b == '[' as int then Quiet(Enter(m, CsiEntry))
    else if b == ']' as int then Quiet(Enter(m, OscString))
    else if b == 'P' as int then Call1(Enter(m, DcsEntry), DcsStart)
    else if b == '_' as int then Quiet(Enter(m, ApcString))
    else if 0x20 <= b <= 0x2F then Quiet(m.(escIntermediate := b, state := EscapeIntermediate))
    else if 0x30 <= b <= 0x7E then Call1(m.(state := Ground), Esc(m.escIntermediate, b))
    else Quiet(m.(state := Ground))
  }

  function StepEscapeIntermediate(m: Machine, b: byte): Outcome {
    if 0x20 <= b <= 0x2F then Quiet(m.(escIntermediate := b))
    else if 0x30 <= b <= 0x7E then Call1(m.(state := Ground), Esc(m.escIntermediate, b))
    else Quiet(m.(state := Ground))
  }

  function StepCsi(m: Machine, b: byte): Outcome
    requires m.Valid()
  {
    if IsDigit(b) || b == ';' as int || b == ':' as int then
      Quiet(m.(csiParams := m.csiParams + [b], state := CsiParam))
    else if m.state == CsiEntry && (b == '?' as int || b == '>' as int || b == '<' as int) then
      Quiet(m.(csiIntermediate := b, state := CsiParam))
    else if 0x40 <= b <= 0x7E then Final(m, b)
    else if 0x20 <= b <= 0x2F then Quiet(m.(csiIntermediate := b, state := CsiIntermediate))
    else Quiet(m.(state := CsiIgnore))
  }

  function StepCsiIntermediate(m: Machine, b: byte): Outcome
    requires m.Valid()
  {
    if 0x20 <= b <= 0x2F then Quiet(m)
    else if 0x40 <= b <= 0x7E then Final(m, b)
    else Quiet(m.(state := CsiIgnore))
  }

  function StepOsc(m: Machine, b: byte): Outcome {
    if b == BEL then Call1(m.(state := Ground), OscCall(m.osc))
    else if b == ESC then Quiet(m)
    else if |m.osc| < OSC_MAX then Quiet(m.(osc := m.osc + [b]))
    else Quiet(m)
  }

  function StepApc(m: Machine, b: byte): Outcome {
    if b == BEL then Call1(m.(state := Ground), Apc(m.apc))
    else if b == ESC then Quiet(m)
    else if |m.apc| < APC_MAX then Quiet(m.(apc := m.apc + [b]))
    else Quiet(m)
  }

  function StepDcsEntry(m: Machine, b: byte): Outcome {
    if 0x30 <= b <= 0x3F then Quiet(m.(dcsParams := m.dcsParams + [b]))
    else Quiet(m.(state := DcsPassthrough))
  }

  /** The byte b in a state other than Utf8. An ESC in a string is not followed by a backslash. */
  function StepByState(m: Machine, b: byte): (r: Outcome)
    requires m.Valid() && m.state != Utf8
    ensures r.machine.Valid()
  {
    if b == ESC && !InString(m.state) then Quiet(Enter(m, Escape))
    else if b < 0x20 && b != ESC && !InString(m.state) then Call1(m, Execute(b))
    else
      match m.state
      case Ground => StepGround(m, b)
      case Escape => StepEscape(m, b)
      case EscapeIntermediate => StepEscapeIntermediate(m, b)
      case CsiEntry => StepCsi(m, b)
      case CsiParam => StepCsi(m, b)
      case CsiIntermediate => StepCsiIntermediate(m, b)
      case CsiIgnore => if 0x40 <= b <= 0x7E then Quiet(m.(state := Ground)) else Quiet(m)
      case OscString => StepOsc(m, b)
      case ApcString => StepApc(m, b)
      case DcsEntry => StepDcsEntry(m, b)
      case DcsPassthrough => Call1(m, DcsPut(b))
      case DcsIgnore => Quiet(m)
  }

  function Step(m: Machine, b: byte): (r: Outcome)
    requires m.Valid()
    ensures r.machine.Valid()
  {
    if m.state == Utf8 then
      if 0x80 <= b < 0xC0 then
        var cp := m.utf8Codepoint * 0x40 + b % 0x40;
        if m.utf8Remaining == 1 then
          Call1(m.(utf8Codepoint := cp, utf8Remaining := 0, state := Ground), Print(cp))
        else
          Quiet(m.(utf8Codepoint := cp, utf8Remaining := m.utf8Remaining - 1))
      else
        StepByState(m.(state := Ground), b)
    else
      StepByState(m, b)
  }

  /** ESC \ read in a string state. */
  function Terminate(m: Machine): (r: Outcome)
    requires m.Valid() && InString(m.state)
    ensures r.machine.Valid() && r.machine.state == Ground
  {
    var call := match m.state
      case OscString => OscCall(m.osc)
      case ApcString => Apc(m.apc)
      case _ => DcsEnd;
    Call1(m.(state := Ground), call)
  }

  predicate AtTerminator(m: Machine, data: seq<byte>) {
    InString(m.state) && |data| >= 2 && data[0] == ESC && data[1] == BACKSLASH
  }

  /** How many bytes of data the machine takes next, and what it does with them. */
  function Head(m: Machine, data: seq<byte>): (r: (nat, Outcome))
    requires m.Valid() && data != []
    ensures 0 < r.0 <= |data| && r.1.machine.Valid()
  {
    if AtTerminator(m, data) then (2, Terminate(m)) else (1, Step(m, data[0]))
  }

  function After(o: Outcome, next: Outcome): Outcome {
    Outcome(next.machine, o.calls + next.calls)
  }

  /** One chunk fed to the parser. */
  function Run(m: Machine, data: seq<byte>): (r: Outcome)
    requires m.Valid()
    ensures r.machine.Valid()
    decreases |data|
  {
    if data == [] then Quiet(m)
    else
      var h := Head(m, data);
      After(h.1, Run(h.1.machine, data[h.0..]))
  }

  /** A chunk fed after what has happened already. */
  function Then(o: Outcome, data: seq<byte>): (r: Outcome)
    requires o.machine.Valid()
    ensures r.machine.Valid()
  {
    After(o, Run(o.machine, data))
  }

  // ---------- the program ----------

  method ParseCsiParams(s: seq<byte>) returns (params: seq<Param>)
    requires ParamText(s)
    ensures params == ParseParams(s)
  {
    params := [];
    var p := 0;
    while p < |s|
      invariant 0 <= p <= |s|
      invariant params + ParamsFrom(s, p) == ParseParams(s)
    {
      var value, q := ReadNumber(s, p);
      var sub, e := ReadSubs(s, q);
      params := params + [Param(value, sub)];
      p := SkipSemicolon(s, e);
    }
  }

  method ReadSubs(s: seq<byte>, at: nat) returns (sub: seq<int>, next: nat)
    requires at <= |s|
    ensures sub == SubsAt(s, at).0 && next == SubsAt(s, at).1
  {
    sub, next := [], at;
    while next < |s| && s[next] == ':' as int
      invariant at <= next <= |s|
      invariant sub + SubsAt(s, next).0 == SubsAt(s, at).0
      invariant SubsAt(s, next).1 == SubsAt(s, at).1
    {
      var v, after := ReadNumber(s, next + 1);
      sub := sub + [v];
      next := after;
    }
  }

  method ReadNumber(s: seq<byte>, at: nat) returns (v: int, next: nat)
    requires at <= |s|
    ensures v == NumberAt(s, at) && next == DigitEnd(s, at)
  {
    v, next := -1, at;
    if next < |s| && IsDigit(s[next]) {
      v := 0;
      while next < |s| && IsDigit(s[next])
        invariant at <= next <= DigitEnd(s, at)
        invariant DigitEnd(s, next) == DigitEnd(s, at)
        invariant v == Number(s[at..next])
      {
        assert s[at..next + 1][..next - at] == s[at..next];
        v := v * 10 + (s[next] - '0' as int);
        next := next + 1;
      }
    }
  }

  class VtParser {
    var state: State
    var utf8Codepoint: nat
    var utf8Remaining: nat
    var csiParams: seq<byte>
    var csiIntermediate: byte
    var escIntermediate: byte
    var osc: seq<byte>
    var apc: seq<byte>
    var dcsParams: seq<byte>
    var calls: seq<Call>  // made on the handler so far

    ghost function Value(): Machine
      reads this
    {
      Machine(state, utf8Codepoint, utf8Remaining, csiParams, csiIntermediate, escIntermediate, osc, apc, dcsParams)
    }

    ghost predicate Valid()
      reads this
    {
      Value().Valid()
    }

    constructor ()
      ensures Value() == INITIAL && calls == []
    {
      state, utf8Codepoint, utf8Remaining := Ground, 0, 0;
      csiParams, csiIntermediate, escIntermediate := [], 0, 0;
      osc, apc, dcsParams, calls := [], [], [], [];
    }

    method Transition(s: State)
      modifies this
      ensures Value() == Enter(old(Value()), s) && calls == old(calls)
    {
      match s {
        case CsiEntry => csiParams := []; csiIntermediate := 0;
        case OscString => osc := [];
        case Escape => escIntermediate := 0;
        case DcsEntry => dcsParams := [];
        case ApcString => apc := [];
        case _ =>
      }
      state := s;
    }

    method CsiDispatch(final: byte)
      requires Valid()
      modifies this`calls
      ensures calls == old(calls) + [Csi(ParseParams(csiParams), csiIntermediate, final)]
    {
      var params := ParseCsiParams(csiParams);
      calls := calls + [Csi(params, csiIntermediate, final)];
    }

    method OscDispatch()
      modifies this`calls
      ensures calls == old(calls) + [OscCall(osc)]
    {
      var command, payload := 0, [];
      var semi := FindSemicolon(osc);
      if semi < |osc| {
        var i := 0;
        while i < semi
          invariant 0 <= i <= semi
          invariant command == DigitsOf(osc[..i])
        {
          assert osc[..i + 1][..i] == osc[..i];
          if IsDigit(osc[i]) { command := command * 10 + (osc[i] - '0' as int); }
          i := i + 1;
        }
        payload := osc[semi + 1..];
      }
      calls := calls + [Osc(command, payload)];
    }

    method Emit(c: Call)
      modifies this`calls
      ensures calls == old(calls) + [c]
    {
      calls := calls + [c];
    }

    method FeedEscape(b: byte)
      modifies this
      ensures var o := StepEscape(old(Value()), b);
              Value() == o.machine && calls == old(calls) + o.calls
    {
      if b == '[' as int {
        Transition(CsiEntry);
      } else if b == ']' as int {
        Transition(OscString);
      } else if b == 'P' as int {
        Transition(DcsEntry);
        Emit(DcsStart);
      } else if b == '_' as int {
        Transition(ApcString);
      } else if 0x20 <= b <= 0x2F {
        escIntermediate := b;
        state := EscapeIntermediate;
      } else if 0x30 <= b <= 0x7E {
        Emit(Esc(escIntermediate, b));
        state := Ground;
      } else {
        state := Ground;
      }
    }

    method FeedCsi(b: byte)
      requires Valid()
      modifies this
      ensures var o := StepCsi(old(Value()), b);
              Value() == o.machine && calls == old(calls) + o.calls
    {
      if IsDigit(b) || b == ';' as int || b == ':' as int {
        csiParams := csiParams + [b];
        state := CsiParam;
      } else if state == CsiEntry && (b == '?' as int || b == '>' as int || b == '<' as int) {
        csiIntermediate := b;
        state := CsiParam;
      } else if 0x40 <= b <= 0x7E {
        CsiDispatch(b);
        state := Ground;
      } else if 0x20 <= b <= 0x2F {
        csiIntermediate := b;
        state := CsiIntermediate;
      } else {
        state := CsiIgnore;
      }
    }

    /** A byte in a string state; terminated says that ESC and a backslash are next. */
    method FeedString(b: byte, terminated: bool)
      requires Valid() && InString(state) && (terminated ==> b == ESC)
      modifies this
      ensures var o := if terminated then Terminate(old(Value())) else StepByState(old(Value()), b);
              Value() == o.machine && calls == old(calls) + o.calls
    {
      match state {
        case OscString =>
          if b == BEL || terminated {
            OscDispatch();
            state := Ground;
          } else if b != ESC && |osc| < OSC_MAX {
            osc := osc + [b];
          }
        case ApcString =>
          if b == BEL || terminated {
            Emit(Apc(apc));
            state := Ground;
          } else if b != ESC && |apc| < APC_MAX {
            apc := apc + [b];
          }
        case DcsPassthrough =>
          if terminated {
            Emit(DcsEnd);
            state := Ground;
          } else {
            Emit(DcsPut(b));
          }
      }
    }

    /** A byte that is not a control, in a state that is neither Utf8 nor a string. */
    method FeedByState(b: byte)
      requires Valid() && state != Utf8 && !InString(state) && b >= 0x20
      modifies this
      ensures var o := StepByState(old(Value()), b);
              Value() == o.machine && calls == old(calls) + o.calls
    {
      match state {
        case Ground =>
          if 0x20 <= b <= 0x7E {
            Emit(Print(b));
          } else if 0xC0 <= b <= 0xDF {
            utf8Codepoint, utf8Remaining, state := b % 0x20, 1, Utf8;
          } else if 0xE0 <= b <= 0xEF {
            utf8Codepoint, utf8Remaining, state := b % 0x10, 2, Utf8;
          } else if 0xF0 <= b <= 0xF7 {
            utf8Codepoint, utf8Remaining, state := b % 0x08, 3, Utf8;
          }
        case Escape =>
          FeedEscape(b);
        case EscapeIntermediate =>
          if 0x20 <= b <= 0x2F {
            escIntermediate := b;
          } else {
            if 0x30 <= b <= 0x7E { Emit(Esc(escIntermediate, b)); }
            state := Ground;
          }
        case CsiEntry =>
          FeedCsi(b);
        case CsiParam =>
          FeedCsi(b);
        case CsiIntermediate =>
          if 0x40 <= b <= 0x7E {
            CsiDispatch(b);
            state := Ground;
          } else if !(0x20 <= b <= 0x2F) {
            state := CsiIgnore;
          }
        case CsiIgnore =>
          if 0x40 <= b <= 0x7E { state := Ground; }
        case DcsEntry =>
          if 0x30 <= b <= 0x3F {
            dcsParams := dcsParams + [b];
          } else {
            state := DcsPassthrough;
          }
        case DcsIgnore =>
      }
    }

    method ContinueUtf8(b: byte)
      requires Valid() && state == Utf8 && 0x80 <= b < 0xC0
      modifies this
      ensures Valid() && Value() == Step(old(Value()), b).machine && calls == old(calls) + Step(old(Value()), b).calls
    {
      utf8Codepoint := utf8Codepoint * 0x40 + b % 0x40;
      utf8Remaining := utf8Remaining - 1;
      if utf8Remaining == 0 {
        Emit(Print(utf8Codepoint));
        state := Ground;
      }
    }

    /** One pass of feed's loop at position i; returns the next position. */
    method Consume(data: seq<byte>, i: nat) returns (next: nat)
      requires Valid() && i < |data|
      modifies this
      ensures Valid()
      ensures var h := Head(old(Value()), data[i..]);
              next == i + h.0 && Value() == h.1.machine && calls == old(calls) + h.1.calls
    {
      var b := data[i];
      next := i + 1;
      if state == Utf8 {
        if 0x80 <= b < 0xC0 {
          ContinueUtf8(b);
          return;
        }
        state := Ground;
      }
      hide StepGround, StepEscape, StepEscapeIntermediate, StepCsi, StepCsiIntermediate, StepOsc, StepApc, StepDcsEntry;
      if InString(state) {
        var terminated := b == ESC && i + 1 < |data| && data[i + 1] == BACKSLASH;
        if terminated { next := i + 2; }
        FeedString(b, terminated);
      } else if b == ESC {
        Transition(Escape);
      } else if b < 0x20 {
        Emit(Execute(b));
      } else {
        FeedByState(b);
      }
    }

    method Feed(data: seq<byte>)
      requires Valid()
      modifies this
      ensures Valid()
      ensures Value() == Run(old(Value()), data).machine
      ensures calls == old(calls) + Run(old(Value()), data).calls
    {
      hide Head, Step, Run;
      var i := 0;
      ghost var made: seq<Call> := [];
      while i < |data|
        invariant 0 <= i <= |data| && Valid()
        invariant calls == old(calls) + made
        invariant Run(old(Value()), data) == Then(Outcome(Value(), made), data[i..])
      {
        RunOnward(Outcome(Value(), made), data, i);
        made := made + Head(Value(), data[i..]).1.calls;
        i := Consume(data, i);
      }
      RunEmpty(Outcome(Value(), made), data[i..]);
    }
  }

  lemma RunEmpty(o: Outcome, data: seq<byte>)
    requires o.machine.Valid() && data == []
    ensures Then(o, data) == o
  {
    assert o.calls + [] == o.calls;
  }

  /** The loop's step: what is left to do after one pass. */
  lemma RunOnward(o: Outcome, data: seq<byte>, i: nat)
    requires o.machine.Valid() && i < |data|
    ensures var h := Head(o.machine, data[i..]);
            Then(o, data[i..]) == Then(After(o, h.1), data[i + h.0..])
  {
    var h := Head(o.machine, data[i..]);
    assert data[i..][h.0..] == data[i + h.0..];
    AfterAssociative(o, h.1, Run(h.1.machine, data[i + h.0..]));
  }

  lemma AfterAssociative(a: Outcome, b: Outcome, c: Outcome)
    ensures After(After(a, b), c) == After(a, After(b, c))
  {
    assert (a.calls + b.calls) + c.calls == a.calls + (b.calls + c.calls);
  }
}
