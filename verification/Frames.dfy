/** The frames of the attach connection: an eight-byte header and a payload. */
module Frames {
  import opened Bytes
  import opened Wire
  import opened Framing

  const HEADER: nat := 8
  const MAX_LEN: nat := 0x80_0000

  datatype Message = Message(channel: nat, kind: nat, payload: seq<byte>)

  predicate FitsFrame(m: Message) {
    m.channel < 0x1_0000 && m.kind < 0x1_0000 && |m.payload| <= MAX_LEN
  }

  function Encode(m: Message): seq<byte> {
    LE(|m.payload|, 4) + (LE(m.channel, 2) + (LE(m.kind, 2) + m.payload))
  }

  /** The frame at the front of the buffer; a length over the cap is a lost sync. */
  function Take(s: seq<byte>): Taken<Message> {
    if |s| < HEADER then NeedMore
    else
      var len := FromLE(s[..4]);
      if len > MAX_LEN then Bad
      else if |s| < HEADER + len then NeedMore
      else Item(Message(FromLE(s[4..6]), FromLE(s[6..8]), s[8..8 + len]), HEADER + len)
  }

  lemma TakeIsSteady()
    ensures Progress(Take) && Stable(Take)
  {
    forall s, t | !Take(s).NeedMore? ensures Take(s + t) == Take(s) {
      assert (s + t)[..4] == s[..4] && (s + t)[4..6] == s[4..6] && (s + t)[6..8] == s[6..8];
      var len := FromLE(s[..4]);
      if len <= MAX_LEN { assert (s + t)[8..8 + len] == s[8..8 + len]; }
    }
  }

  lemma TakeOfEncode(m: Message, s: seq<byte>)
    requires FitsFrame(m)
    ensures Take(Encode(m) + s) == Item(m, |Encode(m)|)
  {
    RangeValues();
    hide LE, FromLE, Range;
    var n := |m.payload|;
    FromLEOfLE(n, 4);
    FromLEOfLE(m.channel, 2);
    FromLEOfLE(m.kind, 2);
    SmallMod(n, Range(4));
    SmallMod(m.channel, Range(2));
    SmallMod(m.kind, Range(2));
    FieldsInFront(LE(n, 4), LE(m.channel, 2), LE(m.kind, 2), m.payload, s);
    assert |Encode(m)| == HEADER + n;
  }

  lemma SmallMod(n: nat, m: nat)
    requires n < m
    ensures n % m == n
  {
  }

  lemma FieldsInFront(a: seq<byte>, b: seq<byte>, c: seq<byte>, d: seq<byte>, rest: seq<byte>)
    requires |a| == 4 && |b| == 2 && |c| == 2
    ensures var s := a + (b + (c + d)) + rest;
            s[..4] == a && s[4..6] == b && s[6..8] == c && s[8..8 + |d|] == d
  {
  }

  /** Whatever reads the frames arrive in, exactly they are delivered and only an incomplete one is kept. */
  lemma FramesArrive(messages: seq<Message>, tail: seq<byte>, chunks: seq<seq<byte>>)
    requires forall i | 0 <= i < |messages| :: FitsFrame(messages[i])
    requires Take(tail).NeedMore? && Flatten(chunks) == EncodeAll(Encode, messages) + tail
    ensures Progress(Take) && AllRead(Take, [], chunks) == Parse(messages, tail, true)
  {
    TakeIsSteady();
    forall i, s | 0 <= i < |messages| ensures Take(Encode(messages[i]) + s) == Item(messages[i], |Encode(messages[i])|) {
      TakeOfEncode(messages[i], s);
    }
    FramesSurviveReads(Take, Encode, messages, tail, chunks);
  }
}
