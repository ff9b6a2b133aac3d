/** What is written by the standard encodings is read back by the parser. */
module VtRoundTrips {
  import opened Bytes
  import opened VtParsing
  import opened VtChunking

  // ---------- UTF-8, section 3 of RFC 3629 ----------

  predicate Encodable(cp: nat) {
    0x20 <= cp <= 0x7E || 0x80 <= cp < 0x20_0000
  }

  /** The code point's bits in groups of six from the right; the lead byte carries what is left. */
  function Utf8Encode(cp: nat): seq<byte>
    requires Encodable(cp)
  {
    var q1 := cp / 0x40;
    var q2 := q1 / 0x40;
    var q3 := q2 / 0x40;
    var (c0, c1, c2) := (0x80 + cp % 0x40, 0x80 + q1 % 0x40, 0x80 + q2 % 0x40);
    if cp < 0x80 then [cp]
    else if cp < 0x800 then [0xC0 + q1] + [c0]
    else if cp < 0x1_0000 then [0xE0 + q2] + ([c1] + [c0])
    else [0xF0 + q3] + ([c2] + ([c1] + [c0]))
  }

  lemma RunOneByte(m: Machine, b: byte, rest: seq<byte>)
    requires m.Valid() && !InString(m.state)
    ensures Run(m, [b] + rest) == Then(Step(m, b), rest)
  {
    assert ([b] + rest)[1..] == rest;
  }

  lemma QuietByte(m: Machine, b: byte, next: Machine, rest: seq<byte>)
    requires m.Valid() && !InString(m.state) && Step(m, b) == Quiet(next)
    ensures Run(m, [b] + rest) == Run(next, rest)
  {
    RunOneByte(m, b, rest);
    assert [] + Run(next, rest).calls == Run(next, rest).calls;
  }

  /** Collecting: k continuation bytes are still to come and the bits so far are q. */
  function Collecting(m: Machine, q: nat, k: nat): Machine {
    m.(state := Utf8, utf8Codepoint := q, utf8Remaining := k)
  }

  lemma ContinuationByte(m: Machine, q: nat, k: nat, low: nat, rest: seq<byte>)
    requires m.Valid() && k > 1 && low < 0x40
    ensures Run(Collecting(m, q, k), [0x80 + low] + rest) == Run(Collecting(m, q * 0x40 + low, k - 1), rest)
  {
    assert (0x80 + low) % 0x40 == low;
    QuietByte(Collecting(m, q, k), 0x80 + low, Collecting(m, q * 0x40 + low, k - 1), rest);
  }

  lemma LastContinuationByte(m: Machine, q: nat, low: nat)
    requires m.Valid() && low < 0x40
    ensures var r := Run(Collecting(m, q, 1), [0x80 + low]);
            r.machine.state == Ground && r.calls == [Print(q * 0x40 + low)]
  {
    assert (0x80 + low) % 0x40 == low;
    RunOneByte(Collecting(m, q, 1), 0x80 + low, []);
    assert [0x80 + low] + [] == [0x80 + low];
  }

  lemma AsciiByte(m: Machine, b: byte)
    requires m.Valid() && m.state == Ground && 0x20 <= b <= 0x7E
    ensures Run(m, [b]) == Call1(m, Print(b))
  {
    RunOneByte(m, b, []);
    assert [b] + [] == [b];
    assert [Print(b)] + [] == [Print(b)];
  }

  /** The lead byte of a sequence with k continuation bytes. */
  lemma LeadByte(m: Machine, q: nat, k: nat)
    requires m.Valid() && m.state == Ground
    requires (k == 1 && q < 0x20) || (k == 2 && q < 0x10) || (k == 3 && q < 8)
    ensures var lead := match k case 1 => 0xC0 case 2 => 0xE0 case _ => 0xF0;
            Step(m, lead + q) == Quiet(Collecting(m, q, k))
  {
  }

  lemma TwoBytes(m: Machine, q: nat, d0: nat)
    requires m.Valid() && m.state == Ground && q < 0x20 && d0 < 0x40
    ensures var r := Run(m, [0xC0 + q] + [0x80 + d0]); r.machine.state == Ground && r.calls == [Print(q * 0x40 + d0)]
  {
    hide Run, Step, StepByState;
    LeadByte(m, q, 1);
    LastContinuationByte(m, q, d0);
    QuietByte(m, 0xC0 + q, Collecting(m, q, 1), [0x80 + d0]);
  }

  lemma ThreeBytes(m: Machine, q: nat, d1: nat, d0: nat)
    requires m.Valid() && m.state == Ground && q < 0x10 && d1 < 0x40 && d0 < 0x40
    ensures var r := Run(m, [0xE0 + q] + ([0x80 + d1] + [0x80 + d0]));
            r.machine.state == Ground && r.calls == [Print((q * 0x40 + d1) * 0x40 + d0)]
  {
    hide Run, Step, StepByState;
    LeadByte(m, q, 2);
    LastContinuationByte(m, q * 0x40 + d1, d0);
    ContinuationByte(m, q, 2, d1, [0x80 + d0]);
    QuietByte(m, 0xE0 + q, Collecting(m, q, 2), [0x80 + d1] + [0x80 + d0]);
  }

  lemma FourBytes(m: Machine, q: nat, d2: nat, d1: nat, d0: nat)
    requires m.Valid() && m.state == Ground && q < 8 && d2 < 0x40 && d1 < 0x40 && d0 < 0x40
    ensures var r := Run(m, [0xF0 + q] + ([0x80 + d2] + ([0x80 + d1] + [0x80 + d0])));
            r.machine.state == Ground && r.calls == [Print(((q * 0x40 + d2) * 0x40 + d1) * 0x40 + d0)]
  {
    hide Run, Step, StepByState;
    LeadByte(m, q, 3);
    LastContinuationByte(m, (q * 0x40 + d2) * 0x40 + d1, d0);
    ContinuationByte(m, q * 0x40 + d2, 2, d1, [0x80 + d0]);
    ContinuationByte(m, q, 3, d2, [0x80 + d1] + [0x80 + d0]);
    QuietByte(m, 0xF0 + q, Collecting(m, q, 3), [0x80 + d2] + ([0x80 + d1] + [0x80 + d0]));
  }

  lemma Digits64(n: nat)
    ensures n == n / 0x40 * 0x40 + n % 0x40 && n % 0x40 < 0x40
  {
  }

  lemma TwoOf(cp: nat) returns (q: nat, d0: nat)
    requires 0x80 <= cp < 0x800 && Encodable(cp)
    ensures q < 0x20 && d0 < 0x40 && cp == q * 0x40 + d0 && Utf8Encode(cp) == [0xC0 + q] + [0x80 + d0]
  {
    Digits64(cp);
    q, d0 := cp / 0x40, cp % 0x40;
  }

  lemma ThreeOf(cp: nat) returns (q: nat, d1: nat, d0: nat)
    requires 0x800 <= cp < 0x1_0000 && Encodable(cp)
    ensures q < 0x10 && d1 < 0x40 && d0 < 0x40 && cp == (q * 0x40 + d1) * 0x40 + d0
    ensures Utf8Encode(cp) == [0xE0 + q] + ([0x80 + d1] + [0x80 + d0])
  {
    Digits64(cp);
    Digits64(cp / 0x40);
    q, d1, d0 := cp / 0x40 / 0x40, cp / 0x40 % 0x40, cp % 0x40;
  }

  lemma FourOf(cp: nat) returns (q: nat, d2: nat, d1: nat, d0: nat)
    requires 0x1_0000 <= cp && Encodable(cp)
    ensures q < 8 && d2 < 0x40 && d1 < 0x40 && d0 < 0x40 && cp == ((q * 0x40 + d2) * 0x40 + d1) * 0x40 + d0
    ensures Utf8Encode(cp) == [0xF0 + q] + ([0x80 + d2] + ([0x80 + d1] + [0x80 + d0]))
  {
    var q2 := cp / 0x40 / 0x40;
    Digits64(cp);
    Digits64(cp / 0x40);
    Digits64(q2);
    q, d2, d1, d0 := q2 / 0x40, q2 % 0x40, cp / 0x40 % 0x40, cp % 0x40;
  }

  lemma OneOf(cp: nat)
    requires cp < 0x80 && Encodable(cp)
    ensures Utf8Encode(cp) == [cp] && 0x20 <= cp <= 0x7E
  {
  }

  /** Every encodable code point is printed, and the parser is ready for the next one. */
  lemma Utf8RoundTrip(m: Machine, cp: nat)
    requires m.Valid() && m.state == Ground && Encodable(cp)
    ensures Run(m, Utf8Encode(cp)).machine.state == Ground
    ensures Run(m, Utf8Encode(cp)).calls == [Print(cp)]
  {
    hide Run, Utf8Encode;
    if cp < 0x80 {
      OneOf(cp);
      AsciiByte(m, cp);
    } else if cp < 0x800 {
      var q, d0 := TwoOf(cp);
      TwoBytes(m, q, d0);
    } else if cp < 0x1_0000 {
      var q, d1, d0 := ThreeOf(cp);
      ThreeBytes(m, q, d1, d0);
    } else {
      var q, d2, d1, d0 := FourOf(cp);
      FourBytes(m, q, d2, d1, d0);
    }
  }

  function EncodeText(text: seq<nat>): seq<byte>
    requires forall i | 0 <= i < |text| :: Encodable(text[i])
  {
    if text == [] then [] else Utf8Encode(text[0]) + EncodeText(text[1..])
  }

  /** A whole text is printed code point by code point, in order. */
  lemma {:induction false} TextIsPrinted(m: Machine, text: seq<nat>)
    requires m.Valid() && m.state == Ground
    requires forall i | 0 <= i < |text| :: Encodable(text[i])
    ensures Run(m, EncodeText(text)).machine.state == Ground
    ensures Run(m, EncodeText(text)).calls == seq(|text|, i requires 0 <= i < |text| => Print(text[i]))
    decreases |text|
  {
    hide Utf8Encode, Encodable;
    if text != [] {
      var first := Utf8Encode(text[0]);
      Utf8RoundTrip(m, text[0]);
      hide Run;
      RunConcat(m, first, EncodeText(text[1..]));
      TextIsPrinted(Run(m, first).machine, text[1..]);
    }
  }

  // ---------- control-sequence parameters ----------

  function Decimal(n: nat): (s: seq<byte>)
    ensures s != [] && forall i | 0 <= i < |s| :: IsDigit(s[i])
  {
    if n < 10 then ['0' as int + n] else Decimal(n / 10) + ['0' as int + n % 10]
  }

  lemma {:induction false} DecimalNumber(n: nat)
    ensures Number(Decimal(n)) == n
  {
    if n >= 10 {
      DecimalNumber(n / 10);
      var s := Decimal(n);
      assert s[..|s| - 1] == Decimal(n / 10);
    } else {
      assert Number([]) == 0;
      assert Decimal(n)[..0] == [];
    }
  }

  function RenderNumber(v: int): (s: seq<byte>)
    ensures forall i | 0 <= i < |s| :: IsDigit(s[i])
  {
    if v < 0 then [] else Decimal(v)
  }

  function RenderSubs(sub: seq<int>): (s: seq<byte>)
    ensures ParamText(s)
    ensures s != [] ==> s[0] == ':' as int
  {
    if sub == [] then [] else [':' as int] + RenderNumber(sub[0]) + RenderSubs(sub[1..])
  }

  function RenderParam(p: Param): (s: seq<byte>)
    ensures ParamText(s)
  {
    RenderNumber(p.value) + RenderSubs(p.sub)
  }

  /** The text a program writes for these parameters. */
  function Render(ps: seq<Param>): (s: seq<byte>)
    ensures ParamText(s)
  {
    if ps == [] then []
    else if |ps| == 1 then RenderParam(ps[0])
    else RenderParam(ps[0]) + [';' as int] + Render(ps[1..])
  }

  predicate Values(sub: seq<int>) {
    forall i | 0 <= i < |sub| :: sub[i] >= -1
  }

  predicate Renderable(ps: seq<Param>) {
    forall i | 0 <= i < |ps| :: ps[i].value >= -1 && Values(ps[i].sub)
  }

  const OMITTED := Param(-1, [])

  /** An omitted parameter after the last separator leaves no trace. */
  function WithoutTrailingOmitted(ps: seq<Param>): seq<Param> {
    if ps != [] && ps[|ps| - 1] == OMITTED then ps[..|ps| - 1] else ps
  }

  lemma {:induction false} DigitEndIs(s: seq<byte>, i: nat, j: nat)
    requires i <= j <= |s|
    requires forall k | i <= k < j :: IsDigit(s[k])
    requires j < |s| ==> !IsDigit(s[j])
    ensures DigitEnd(s, i) == j
    decreases j - i
  {
    if i < j { DigitEndIs(s, i + 1, j); }
  }

  /** The text t stands in s at i. */
  predicate At(s: seq<byte>, i: nat, t: seq<byte>) {
    i + |t| <= |s| && forall k | 0 <= k < |t| :: s[i + k] == t[k]
  }

  lemma AtBoth(s: seq<byte>, i: nat, a: seq<byte>, b: seq<byte>)
    requires At(s, i, a + b)
    ensures At(s, i, a) && At(s, i + |a|, b)
  {
    forall k | 0 <= k < |a| ensures s[i + k] == a[k] { assert s[i + k] == (a + b)[k]; }
    forall k | 0 <= k < |b| ensures s[i + |a| + k] == b[k] { assert s[i + (|a| + k)] == (a + b)[|a| + k]; }
  }

  lemma NumberIsRead(s: seq<byte>, i: nat, v: int)
    requires v >= -1 && At(s, i, RenderNumber(v))
    requires i + |RenderNumber(v)| < |s| ==> !IsDigit(s[i + |RenderNumber(v)|])
    ensures DigitEnd(s, i) == i + |RenderNumber(v)| && NumberAt(s, i) == v
  {
    var t := RenderNumber(v);
    forall k | i <= k < i + |t| ensures IsDigit(s[k]) {
      assert s[i + (k - i)] == t[k - i];
    }
    DigitEndIs(s, i, i + |t|);
    if v >= 0 {
      DecimalNumber(v);
      assert s[i..i + |t|] == t;
    }
  }

  predicate SeparatorAt(s: seq<byte>, j: nat) {
    j < |s| ==> s[j] == ';' as int
  }

  lemma {:induction false} SubsAreRead(s: seq<byte>, i: nat, sub: seq<int>)
    requires Values(sub) && At(s, i, RenderSubs(sub)) && SeparatorAt(s, i + |RenderSubs(sub)|)
    ensures SubsAt(s, i).0 == sub && SubsAt(s, i).1 == i + |RenderSubs(sub)|
    decreases |sub|
  {
    hide DigitEnd, Decimal, NumberAt, Number, RenderNumber;
    if sub != [] {
      var num, rest := RenderNumber(sub[0]), RenderSubs(sub[1..]);
      var j := i + 1 + |num|;
      assert At(s, i, [':' as int] + num) && At(s, j, rest) by { AtBoth(s, i, [':' as int] + num, rest); }
      assert At(s, i, [':' as int]) && At(s, i + 1, num) by { AtBoth(s, i, [':' as int], num); }
      assert s[i] == ':' as int by { assert s[i + 0] == [':' as int][0]; }
      if rest != [] { assert s[j + 0] == rest[0]; }
      assert DigitEnd(s, i + 1) == j && NumberAt(s, i + 1) == sub[0] by { NumberIsRead(s, i + 1, sub[0]); }
      SubsAreRead(s, j, sub[1..]);
      assert sub == [sub[0]] + sub[1..];
    }
  }

  lemma ParamIsRead(s: seq<byte>, i: nat, p: Param)
    requires p.value >= -1 && Values(p.sub)
    requires At(s, i, RenderParam(p)) && SeparatorAt(s, i + |RenderParam(p)|)
    ensures NumberAt(s, i) == p.value
    ensures SubsAt(s, DigitEnd(s, i)).0 == p.sub && SubsAt(s, DigitEnd(s, i)).1 == i + |RenderParam(p)|
  {
    hide DigitEnd, Decimal, NumberAt, Number, RenderNumber, RenderSubs, SubsAt;
    var num, subs := RenderNumber(p.value), RenderSubs(p.sub);
    assert At(s, i, num) && At(s, i + |num|, subs) by { AtBoth(s, i, num, subs); }
    if subs != [] { assert s[i + |num| + 0] == subs[0]; }
    NumberIsRead(s, i, p.value);
    SubsAreRead(s, i + |num|, p.sub);
  }

  lemma EmptyParam(p: Param)
    requires p.value >= -1
    ensures RenderParam(p) == [] <==> p == OMITTED
  {
    if p.sub == [] { assert p == Param(p.value, []); }
  }

  lemma LastParamIsRead(s: seq<byte>, i: nat, p: Param)
    requires ParamText(s) && Renderable([p])
    requires At(s, i, RenderParam(p)) && i + |RenderParam(p)| == |s|
    ensures ParamsFrom(s, i) == WithoutTrailingOmitted([p])
  {
    var ps := [p];
    assert ps[0] == p;
    ParamIsRead(s, i, p);
    EmptyParam(p);
    hide DigitEnd, NumberAt, SubsAt, RenderParam;
    assert [p][..0] == [];
    if i < |s| { assert ParamsFrom(s, i) == [p] + ParamsFrom(s, |s|); }
  }

  lemma FirstParamIsRead(s: seq<byte>, i: nat, p: Param, rest: seq<byte>)
    requires ParamText(s) && p.value >= -1 && Values(p.sub)
    requires At(s, i, RenderParam(p) + [';' as int] + rest)
    ensures var j := i + |RenderParam(p)| + 1;
            At(s, j, rest) && ParamsFrom(s, i) == [p] + ParamsFrom(s, j)
  {
    hide RenderParam, DigitEnd, NumberAt, SubsAt;
    var t, semi := RenderParam(p), [';' as int];
    var j := i + |t|;
    assert At(s, i, t + semi) && At(s, j + 1, rest) by { AtBoth(s, i, t + semi, rest); }
    assert At(s, i, t) && At(s, j, semi) by { AtBoth(s, i, t, semi); }
    assert s[j] == ';' as int by { assert s[j + 0] == semi[0]; }
    ParamIsRead(s, i, p);
  }

  lemma NothingLeft(s: seq<byte>)
    requires ParamText(s)
    ensures ParamsFrom(s, |s|) == []
  {
  }

  lemma {:induction false} ParamsAreRead(s: seq<byte>, i: nat, ps: seq<Param>)
    requires ParamText(s) && Renderable(ps)
    requires At(s, i, Render(ps)) && i + |Render(ps)| == |s|
    ensures ParamsFrom(s, i) == WithoutTrailingOmitted(ps)
    decreases |ps|
  {
    hide ParamsFrom, RenderParam;
    if |ps| == 1 {
      assert ps == [ps[0]];
      LastParamIsRead(s, i, ps[0]);
    } else if |ps| > 1 {
      FirstParamIsRead(s, i, ps[0], Render(ps[1..]));
      ParamsAreRead(s, i + |RenderParam(ps[0])| + 1, ps[1..]);
      assert ps == [ps[0]] + ps[1..];
    } else {
      NothingLeft(s);
    }
  }

  /** Parameters written in the standard form are read back, all but a trailing omitted one. */
  lemma ParamsRoundTrip(ps: seq<Param>)
    requires Renderable(ps)
    ensures ParseParams(Render(ps)) == WithoutTrailingOmitted(ps)
  {
    ParamsAreRead(Render(ps), 0, ps);
  }
}
