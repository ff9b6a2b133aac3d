/** WebSocket frames (RFC 6455, sections 5.2 and 5.3): encoding with a mask, and taking frames off a stream. */
module WebSockets {
  import opened Bytes
  import opened Wire
  import opened Wrappers
  import opened Framing

  const TEXT: nat := 1
  const BINARY: nat := 2
  const CLOSE: nat := 8
  const PING: nat := 9
  const PONG: nat := 10

  /** The mask is empty or four bytes. */
  datatype Frame = Frame(opcode: nat, mask: seq<byte>, payload: seq<byte>)

  predicate FitsWs(f: Frame) {
    f.opcode < 16 && (f.mask == [] || |f.mask| == 4) && |f.payload| < 0x8000_0000_0000_0000
  }

  // ---------- masking ----------

  /** Exclusive or of the k low bits. */
  function Xor(a: nat, b: nat, k: nat): nat {
    if k == 0 then 0 else (a + b) % 2 + 2 * Xor(a / 2, b / 2, k - 1)
  }

  lemma {:induction false} XorBound(a: nat, b: nat, k: nat)
    ensures Xor(a, b, k) < Power2(k)
  {
    if k > 0 { XorBound(a / 2, b / 2, k - 1); }
  }

  lemma {:induction false} XorTwice(a: nat, b: nat, k: nat)
    requires a < Power2(k)
    ensures Xor(Xor(a, b, k), b, k) == a
  {
    if k > 0 {
      XorTwice(a / 2, b / 2, k - 1);
      Halves((a + b) % 2, Xor(a / 2, b / 2, k - 1));
      Parity(a, b, Xor(a, b, k));
    }
  }

  lemma Halves(bit: nat, rest: nat)
    requires bit < 2
    ensures (bit + 2 * rest) % 2 == bit && (bit + 2 * rest) / 2 == rest
  {
  }

  lemma Parity(a: nat, b: nat, c: nat)
    ensures c % 2 == (a + b) % 2 ==> (c + b) % 2 == a % 2
    ensures a == a % 2 + 2 * (a / 2)
  {
  }

  lemma EightBits()
    ensures Power2(8) == 256
  {
    assert Power2(4) == 16 by { assert Power2(2) == 4; }
    assert Power2(6) == 64;
  }

  function XorByte(a: byte, b: byte): byte {
    EightBits();
    XorBound(a, b, 8);
    Xor(a, b, 8)
  }

  function Masked(payload: seq<byte>, mask: seq<byte>): (r: seq<byte>)
    requires |mask| == 4
    ensures |r| == |payload|
  {
    seq(|payload|, i requires 0 <= i < |payload| => XorByte(payload[i], mask[i % 4]))
  }

  lemma MaskedTwice(payload: seq<byte>, mask: seq<byte>)
    requires |mask| == 4
    ensures Masked(Masked(payload, mask), mask) == payload
  {
    EightBits();
    forall i | 0 <= i < |payload| ensures Masked(Masked(payload, mask), mask)[i] == payload[i] {
      XorTwice(payload[i], mask[i % 4], 8);
    }
  }

  // ---------- lengths, most significant byte first ----------

  function BE(n: nat, k: nat): (s: seq<byte>)
    ensures |s| == k
  {
    if k == 0 then [] else BE(n / 0x100, k - 1) + [n % 0x100]
  }

  function FromBE(s: seq<byte>): nat {
    if s == [] then 0 else FromBE(s[..|s| - 1]) * 0x100 + s[|s| - 1]
  }

  lemma {:induction false} FromBEOfBE(n: nat, k: nat)
    requires n < Range(k)
    ensures FromBE(BE(n, k)) == n
  {
    if k > 0 {
      FromBEOfBE(n / 0x100, k - 1);
      assert BE(n, k)[..k - 1] == BE(n / 0x100, k - 1);
    }
  }

  /** The three forms of a length: in the second byte, in two more, or in eight more. */
  function LengthBytes(flag: nat, n: nat): seq<byte>
    requires flag in {0, 0x80}
  {
    if n < 126 then [flag + n]
    else if n < 0x1_0000 then [flag + 126] + BE(n, 2)
    else [flag + 127] + BE(n, 8)
  }

  // ---------- frames ----------

  function Encode(f: Frame): seq<byte>
    requires FitsWs(f)
  {
    [0x80 + f.opcode] + (LengthBytes(if f.mask == [] then 0 else 0x80, |f.payload|)
      + (f.mask + (if f.mask == [] then f.payload else Masked(f.payload, f.mask))))
  }

  /** Length of the header without the mask, and of the payload; None if not all of it is there. */
  function Header(s: seq<byte>): Option<(nat, nat)> {
    if |s| < 2 then None
    else
      var n := s[1] % 0x80;
      if n == 126 then (if |s| < 4 then None else Some((4, FromBE(s[2..4]))))
      else if n == 127 then (if |s| < 10 then None else Some((10, FromBE(s[2..10]))))
      else Some((2, n))
  }

  function Take(s: seq<byte>): Taken<Frame> {
    match Header(s)
    case None => NeedMore
    case Some((h, n)) =>
      var body := if s[1] >= 0x80 then h + 4 else h;
      if |s| < body + n then NeedMore
      else
        var mask := s[h..body];
        var raw := s[body..body + n];
        Item(Frame(s[0] % 16, mask, if mask == [] then raw else Masked(raw, mask)), body + n)
  }

  lemma SliceOfFront<T>(s: seq<T>, t: seq<T>, i: nat, j: nat)
    requires i <= j <= |s|
    ensures (s + t)[i..j] == s[i..j]
  {
  }

  lemma HeaderIsSteady(s: seq<byte>, t: seq<byte>)
    requires Header(s).Some?
    ensures |s| >= 2 && Header(s + t) == Header(s) && (s + t)[0] == s[0] && (s + t)[1] == s[1]
  {
    hide FromBE;
    if |s| >= 4 { SliceOfFront(s, t, 2, 4); }
    if |s| >= 10 { SliceOfFront(s, t, 2, 10); }
  }

  lemma TakeIsSteadyAt(s: seq<byte>, t: seq<byte>)
    requires !Take(s).NeedMore?
    ensures Take(s + t) == Take(s)
  {
    hide Masked, Header;
    HeaderIsSteady(s, t);
    var (h, n) := Header(s).value;
    var body := if s[1] >= 0x80 then h + 4 else h;
    SliceOfFront(s, t, h, body);
    SliceOfFront(s, t, body, body + n);
  }

  lemma TakeIsSteady()
    ensures Progress(Take) && Stable(Take)
  {
    forall s, t | !Take(s).NeedMore? ensures Take(s + t) == Take(s) { TakeIsSteadyAt(s, t); }
    hide Masked;
  }

  lemma HeaderOfLength(first: byte, flag: nat, n: nat, rest: seq<byte>)
    requires flag in {0, 0x80} && n < 0x8000_0000_0000_0000
    ensures var s := [first] + (LengthBytes(flag, n) + rest);
            && Header(s) == Some((1 + |LengthBytes(flag, n)|, n)) && (s[1] >= 0x80 <==> flag == 0x80)
            && s[1 + |LengthBytes(flag, n)|..] == rest
  {
    hide BE, FromBE;
    var l := LengthBytes(flag, n);
    var s := [first] + (l + rest);
    if 126 <= n < 0x1_0000 {
      LengthReadBack(n, 2);
      Behind(first, flag + 126, BE(n, 2), rest);
    } else if n >= 0x1_0000 {
      LengthReadBack(n, 8);
      Behind(first, flag + 127, BE(n, 8), rest);
    }
  }

  lemma LengthReadBack(n: nat, k: nat)
    requires (k == 2 && n < 0x1_0000) || (k == 8 && n < 0x8000_0000_0000_0000)
    ensures FromBE(BE(n, k)) == n
  {
    RangeValues();
    FromBEOfBE(n, k);
  }

  lemma Behind(first: byte, second: byte, length: seq<byte>, rest: seq<byte>)
    ensures var s := [first] + ([second] + length + rest);
            && |s| == 2 + |length| + |rest| && s[1] == second && s[2..2 + |length|] == length && s[2 + |length|..] == rest
  {
  }

  /** A frame is read back whatever follows it, in all three length forms, masked or not. */
  lemma TakeOfEncode(f: Frame, s: seq<byte>)
    requires FitsWs(f)
    ensures Take(Encode(f) + s) == Item(f, |Encode(f)|)
  {
    hide Header, LengthBytes, Masked, BE, FromBE;
    var flag := if f.mask == [] then 0 else 0x80;
    var l := LengthBytes(flag, |f.payload|);
    var raw := if f.mask == [] then f.payload else Masked(f.payload, f.mask);
    if f.mask != [] { MaskedTwice(f.payload, f.mask); }
    Flat([0x80 + f.opcode], l, f.mask, raw, s);
    var all := Encode(f) + s;
    assert all == [0x80 + f.opcode] + (l + (f.mask + (raw + s))) == ([0x80 + f.opcode] + l) + (f.mask + (raw + s));
    assert |Encode(f)| == 1 + |l| + |f.mask| + |f.payload|;
    HeaderOfLength(0x80 + f.opcode, flag, |f.payload|, f.mask + (raw + s));
    Slices([0x80 + f.opcode] + l, f.mask, raw, s);
    hide Encode;
    assert all[0] == 0x80 + f.opcode;
    Opcode(f.opcode);
  }

  lemma Opcode(opcode: nat)
    requires opcode < 16
    ensures (0x80 + opcode) % 16 == opcode
  {
  }

  lemma Flat<T>(a: seq<T>, b: seq<T>, c: seq<T>, d: seq<T>, e: seq<T>)
    ensures (a + (b + (c + d))) + e == a + (b + (c + (d + e)))
    ensures a + (b + (c + (d + e))) == (a + b) + (c + (d + e))
  {
  }

  lemma Slices<T>(a: seq<T>, b: seq<T>, c: seq<T>, d: seq<T>)
    ensures var s := a + (b + (c + d));
            s[|a|..|a| + |b|] == b && s[|a| + |b|..|a| + |b| + |c|] == c
  {
  }

  /** Any frames, cut into any reads, are taken off as they were put on; only an incomplete one is left. */
  lemma FramesArrive(frames: seq<Frame>, tail: seq<byte>, chunks: seq<seq<byte>>)
    requires forall i | 0 <= i < |frames| :: FitsWs(frames[i])
    requires Take(tail).NeedMore? && Flatten(chunks) == EncodeAll(Total, frames) + tail
    ensures Progress(Take) && AllRead(Take, [], chunks) == Parse(frames, tail, true)
  {
    TakeIsSteady();
    forall i, s | 0 <= i < |frames| ensures Take(Total(frames[i]) + s) == Item(frames[i], |Total(frames[i])|) {
      TakeOfEncode(frames[i], s);
    }
    FramesSurviveReads(Take, Total, frames, tail, chunks);
  }

  function Total(f: Frame): seq<byte> {
    if FitsWs(f) then Encode(f) else []
  }

  // ---------- the client ----------

  /** `pongs` counts the masks used up for pongs. */
  datatype State = State(open: bool, delivered: seq<seq<byte>>, out: seq<byte>, pongs: nat)

  /** What a frame does. Whether it is the last of its message is not looked at. */
  function Act(s: State, random: nat -> seq<byte>, f: Frame): State {
    if f.opcode == TEXT || f.opcode == BINARY then s.(delivered := s.delivered + [f.payload])
    else if f.opcode == CLOSE then s.(open := false)
    else if f.opcode == PING then s.(out := s.out + Total(Frame(PONG, random(s.pongs), f.payload)), pongs := s.pongs + 1)
    else s
  }

  /** Frames are taken off the buffer until one closes the connection. */
  function Drain(s: State, random: nat -> seq<byte>, buffer: seq<byte>): (State, seq<byte>)
    decreases |buffer|
  {
    match Take(buffer)
    case Item(f, used) =>
      var t := Act(s, random, f);
      if t.open then Drain(t, random, buffer[used..]) else (t, buffer)
    case _ => (s, buffer)
  }

  class WsClient {
    var open: bool
    var input: seq<byte>
    var out: seq<byte>
    var delivered: seq<seq<byte>>
    var pongs: nat
    const random: nat -> seq<byte>

    function Value(): State
      reads this
    {
      State(open, delivered, out, pongs)
    }

    /** Header and mask, then the payload masked in place. */
    method EncodeFrame(opcode: nat, payload: seq<byte>, mask: seq<byte>)
      requires FitsWs(Frame(opcode, mask, payload)) && |mask| == 4
      modifies this`out
      ensures out == old(out) + Encode(Frame(opcode, mask, payload))
    {
      var n := |payload|;
      var f: seq<byte> := [0x80 + opcode];
      if n < 126 { f := f + [0x80 + n]; }
      else if n < 65536 { f := f + [0x80 + 126] + BE(n, 2); }
      else { f := f + [0x80 + 127] + BE(n, 8); }
      assert f == [0x80 + opcode] + LengthBytes(0x80, n);
      assert Encode(Frame(opcode, mask, payload)) == [0x80 + opcode] + (LengthBytes(0x80, n) + (mask + Masked(payload, mask)));
      hide LengthBytes, BE, XorByte, Encode;
      f := f + mask;
      var body := new byte[n](i requires 0 <= i < n => payload[i]);
      var i := 0;
      while i < n
        invariant 0 <= i <= n && out == old(out)
        invariant forall k | 0 <= k < n :: body[k] == if k < i then XorByte(payload[k], mask[k % 4]) else payload[k]
      {
        body[i] := XorByte(body[i], mask[i % 4]);
        i := i + 1;
      }
      assert body[..] == Masked(payload, mask);
      f := f + body[..];
      assert f == [0x80 + opcode] + (LengthBytes(0x80, n) + (mask + Masked(payload, mask)));
      out := out + f;
    }

    method OnFrame(f: Frame)
      requires |random(pongs)| == 4 && |f.payload| < 0x8000_0000_0000_0000
      modifies this`open, this`out, this`delivered, this`pongs
      ensures Value() == Act(old(Value()), random, f)
    {
      hide Encode;
      if f.opcode == TEXT || f.opcode == BINARY {
        delivered := delivered + [f.payload];
      } else if f.opcode == CLOSE {
        open := false;
      } else if f.opcode == PING {
        EncodeFrame(PONG, f.payload, random(pongs));
        pongs := pongs + 1;
      }
    }

    /** Acts on every complete frame; an offset runs over the buffer, which is trimmed at the end. */
    method ParseFrames()
      requires open && (forall i :: |random(i)| == 4) && |input| < 0x8000_0000_0000_0000
      modifies this
      ensures Value() == Drain(old(Value()), random, old(input)).0
      ensures open ==> input == Drain(old(Value()), random, old(input)).1
    {
      hide Take, Act;
      ghost var start := Value();
      var off := 0;
      assert input[0..] == input;
      while true
        invariant 0 <= off <= |input| && input == old(input) && open
        invariant Drain(start, random, input) == Drain(Value(), random, input[off..])
        decreases |input| - off
      {
        TakeIsSteady();
        var taken := Take(input[off..]);
        if !taken.Item? { break; }
        TakenPayload(input[off..]);
        OnFrame(taken.value);
        if !open { return; }
        assert input[off..][taken.used..] == input[off + taken.used..];
        off := off + taken.used;
      }
      input := input[off..];
    }
  }

  lemma TakenPayload(s: seq<byte>)
    ensures Take(s).Item? ==> |Take(s).value.payload| <= |s|
  {
  }

  // ---------- everything that arrives ----------

  function ActAll(s: State, random: nat -> seq<byte>, frames: seq<Frame>): State
    decreases |frames|
  {
    if frames == [] then s else ActAll(Act(s, random, frames[0]), random, frames[1..])
  }

  predicate NoneCloses(frames: seq<Frame>) {
    forall i | 0 <= i < |frames| :: frames[i].opcode != CLOSE
  }

  /** Reading the buffer acts on the frames in it, in order, as long as none closes the connection. */
  lemma {:induction false} DrainActs(s: State, random: nat -> seq<byte>, buffer: seq<byte>)
    requires s.open && Progress(Take) && NoneCloses(Parsed(Take, buffer).items)
    ensures Drain(s, random, buffer) == (ActAll(s, random, Parsed(Take, buffer).items), Parsed(Take, buffer).rest)
    ensures Drain(s, random, buffer).0.open && Parsed(Take, buffer).ok
    decreases |buffer|
  {
    hide Take, Total;
    NeverBad(buffer);
    var p := Parsed(Take, buffer);
    if Take(buffer).Item? {
      var rest := buffer[Take(buffer).used..];
      assert p.items == [Take(buffer).value] + Parsed(Take, rest).items;
      assert p.items[0].opcode != CLOSE;
      assert p.items[1..] == Parsed(Take, rest).items;
      assert forall i | 0 <= i < |p.items[1..]| :: p.items[1..][i] == p.items[i + 1];
      DrainActs(Act(s, random, Take(buffer).value), random, rest);
    }
  }

  lemma NeverBad(s: seq<byte>)
    ensures !Take(s).Bad?
  {
  }

  /** The client over a sequence of reads. */
  function ReadAll(s: State, random: nat -> seq<byte>, buffer: seq<byte>, chunks: seq<seq<byte>>): (State, seq<byte>)
    decreases |chunks|
  {
    if chunks == [] || !s.open then (s, buffer)
    else
      var (t, rest) := Drain(s, random, buffer + chunks[0]);
      ReadAll(t, random, rest, chunks[1..])
  }

  lemma {:induction false} ReadAllActs(s: State, random: nat -> seq<byte>, buffer: seq<byte>, chunks: seq<seq<byte>>)
    requires s.open && Progress(Take) && NoneCloses(AllRead(Take, buffer, chunks).items)
    ensures var p := AllRead(Take, buffer, chunks);
            ReadAll(s, random, buffer, chunks) == (ActAll(s, random, p.items), p.rest)
    decreases |chunks|
  {
    hide Take, Act, Parsed;
    if chunks != [] {
      var p := Parsed(Take, buffer + chunks[0]);
      assert p.ok by { ParsedNeverBad(buffer + chunks[0]); }
      var q := AllRead(Take, p.rest, chunks[1..]);
      SplitNoneCloses(p.items, q.items);
      DrainActs(s, random, buffer + chunks[0]);
      ReadAllActs(ActAll(s, random, p.items), random, p.rest, chunks[1..]);
      ActAllConcat(s, random, p.items, q.items);
    }
  }

  lemma {:induction false} ParsedNeverBad(buffer: seq<byte>)
    requires Progress(Take)
    ensures Parsed(Take, buffer).ok
    decreases |buffer|
  {
    NeverBad(buffer);
    if Take(buffer).Item? { ParsedNeverBad(buffer[Take(buffer).used..]); }
  }

  lemma SplitNoneCloses(a: seq<Frame>, b: seq<Frame>)
    requires NoneCloses(a + b)
    ensures NoneCloses(a) && NoneCloses(b)
  {
    forall i | 0 <= i < |a| ensures a[i].opcode != CLOSE { assert (a + b)[i] == a[i]; }
    forall i | 0 <= i < |b| ensures b[i].opcode != CLOSE { assert (a + b)[|a| + i] == b[i]; }
  }

  lemma {:induction false} ActAllConcat(s: State, random: nat -> seq<byte>, a: seq<Frame>, b: seq<Frame>)
    ensures ActAll(s, random, a + b) == ActAll(ActAll(s, random, a), random, b)
    decreases |a|
  {
    hide Act;
    if a == [] {
      assert a + b == b;
    } else {
      assert (a + b)[1..] == a[1..] + b;
      ActAllConcat(Act(s, random, a[0]), random, a[1..], b);
    }
  }

  /** Whatever messages a peer sends, in any length form and with any masks, and whatever reads they arrive in,
      the client delivers and answers exactly those, in order, and keeps only an incomplete frame. */
  lemma MessagesArrive(s: State, random: nat -> seq<byte>, frames: seq<Frame>, tail: seq<byte>, chunks: seq<seq<byte>>)
    requires s.open && NoneCloses(frames) && forall i | 0 <= i < |frames| :: FitsWs(frames[i])
    requires Take(tail).NeedMore? && Flatten(chunks) == EncodeAll(Total, frames) + tail
    ensures ReadAll(s, random, [], chunks) == (ActAll(s, random, frames), tail)
  {
    FramesArrive(frames, tail, chunks);
    hide Take, Act, FitsWs;
    ReadAllActs(s, random, [], chunks);
  }

  /** Text messages are delivered as they were sent. */
  lemma {:induction false} TextIsDelivered(s: State, random: nat -> seq<byte>, frames: seq<Frame>)
    requires forall i | 0 <= i < |frames| :: frames[i].opcode == TEXT
    ensures ActAll(s, random, frames)
         == s.(delivered := s.delivered + seq(|frames|, i requires 0 <= i < |frames| => frames[i].payload))
    decreases |frames|
  {
    if frames != [] {
      assert forall i | 0 <= i < |frames[1..]| :: frames[1..][i] == frames[i + 1];
      TextIsDelivered(Act(s, random, frames[0]), random, frames[1..]);
    }
  }
}
