/** Cutting a byte stream into items when the bytes come in arbitrary reads. */
module Framing {
  import opened Bytes

  /** A look at the front of the buffer: an item and its length, not yet enough, or garbage. */
  datatype Taken<+T> = NeedMore | Bad | Item(value: T, used: nat)

  /** The items found, what is left in the buffer, and whether garbage was met. */
  datatype Parse<+T> = Parse(items: seq<T>, rest: seq<byte>, ok: bool)

  ghost predicate Progress<T>(take: seq<byte> -> Taken<T>) {
    forall s :: take(s).Item? ==> 0 < take(s).used <= |s|
  }

  /** What the front of the buffer is does not depend on what comes later. */
  ghost predicate Stable<T>(take: seq<byte> -> Taken<T>) {
    forall s, t :: !take(s).NeedMore? ==> take(s + t) == take(s)
  }

  ghost function Parsed<T>(take: seq<byte> -> Taken<T>, s: seq<byte>): Parse<T>
    requires Progress(take)
    decreases |s|
  {
    match take(s)
    case NeedMore => Parse([], s, true)
    case Bad => Parse([], s, false)
    case Item(value, used) =>
      var p := Parsed(take, s[used..]);
      p.(items := [value] + p.items)
  }

  lemma StableAt<T>(take: seq<byte> -> Taken<T>, s: seq<byte>, t: seq<byte>)
    requires Stable(take)
    ensures !take(s).NeedMore? ==> take(s + t) == take(s)
  {
  }

  lemma UsedBound<T>(take: seq<byte> -> Taken<T>, s: seq<byte>)
    requires Progress(take)
    ensures take(s).Item? ==> 0 < take(s).used <= |s|
  {
  }

  lemma {:induction false} ParsedConcat<T>(take: seq<byte> -> Taken<T>, a: seq<byte>, b: seq<byte>)
    requires Progress(take) && Stable(take)
    ensures var (p, q) := (Parsed(take, a), Parsed(take, a + b));
            if p.ok then q == Parsed(take, p.rest + b).(items := p.items + Parsed(take, p.rest + b).items)
            else q.items == p.items && !q.ok
    decreases |a|
  {
    StableAt(take, a, b);
    UsedBound(take, a);
    hide Stable, Progress;
    if take(a).NeedMore? {
      assert [] + Parsed(take, a + b).items == Parsed(take, a + b).items;
    } else if take(a).Item? {
      var used := take(a).used;
      assert (a + b)[used..] == a[used..] + b;
      ParsedConcat(take, a[used..], b);
      var (p, x) := (Parsed(take, a[used..]), [take(a).value]);
      if p.ok { Associative(x, p.items, Parsed(take, p.rest + b).items); }
    }
  }

  /** The reader over a sequence of reads; after garbage it is closed. */
  ghost function AllRead<T>(take: seq<byte> -> Taken<T>, buffer: seq<byte>, chunks: seq<seq<byte>>): Parse<T>
    requires Progress(take)
    decreases |chunks|
  {
    if chunks == [] then Parse([], buffer, true)
    else
      var p := Parsed(take, buffer + chunks[0]);
      if !p.ok then p
      else
        var q := AllRead(take, p.rest, chunks[1..]);
        q.(items := p.items + q.items)
  }

  /** However the stream is cut into reads, the items are the same, and so is what is left. */
  lemma {:induction false} ReadsAreOneStream<T>(take: seq<byte> -> Taken<T>, buffer: seq<byte>, chunks: seq<seq<byte>>)
    requires Progress(take) && Stable(take) && take(buffer).NeedMore?
    ensures var (p, q) := (AllRead(take, buffer, chunks), Parsed(take, buffer + Flatten(chunks)));
            p.items == q.items && p.ok == q.ok && (p.ok ==> p.rest == q.rest)
    decreases |chunks|
  {
    if chunks == [] {
      assert buffer + Flatten(chunks) == buffer;
    } else {
      var p := Parsed(take, buffer + chunks[0]);
      assert buffer + Flatten(chunks) == buffer + chunks[0] + Flatten(chunks[1..]);
      ParsedConcat(take, buffer + chunks[0], Flatten(chunks[1..]));
      if p.ok {
        RestIsIncomplete(take, buffer + chunks[0]);
        ReadsAreOneStream(take, p.rest, chunks[1..]);
      }
    }
  }

  lemma {:induction false} RestIsIncomplete<T>(take: seq<byte> -> Taken<T>, s: seq<byte>)
    requires Progress(take) && Parsed(take, s).ok
    ensures take(Parsed(take, s).rest).NeedMore?
    decreases |s|
  {
    if take(s).Item? { RestIsIncomplete(take, s[take(s).used..]); }
  }

  // ---------- encoding and reading back ----------

  function EncodeAll<T>(encode: T -> seq<byte>, items: seq<T>): seq<byte> {
    if items == [] then [] else encode(items[0]) + EncodeAll(encode, items[1..])
  }

  ghost predicate ReadsBack<T(!new)>(take: seq<byte> -> Taken<T>, encode: T -> seq<byte>, items: seq<T>) {
    forall i, s | 0 <= i < |items| :: take(encode(items[i]) + s) == Item(items[i], |encode(items[i])|)
  }

  lemma ReadsBackAt<T(!new)>(take: seq<byte> -> Taken<T>, encode: T -> seq<byte>, items: seq<T>, s: seq<byte>)
    requires ReadsBack(take, encode, items) && items != []
    ensures take(encode(items[0]) + s) == Item(items[0], |encode(items[0])|)
    ensures ReadsBack(take, encode, items[1..])
  {
    forall i, t | 0 <= i < |items[1..]|
      ensures take(encode(items[1..][i]) + t) == Item(items[1..][i], |encode(items[1..][i])|)
    {
      assert items[1..][i] == items[i + 1];
    }
  }

  lemma ParsedItem<T>(take: seq<byte> -> Taken<T>, head: seq<byte>, s: seq<byte>)
    requires Progress(take) && take(head + s).Item? && take(head + s).used == |head|
    ensures Parsed(take, head + s) == Parsed(take, s).(items := [take(head + s).value] + Parsed(take, s).items)
  {
    assert (head + s)[|head|..] == s;
  }

  lemma {:induction false} EncodedItemsAreParsed<T(!new)>(take: seq<byte> -> Taken<T>, encode: T -> seq<byte>, items: seq<T>, tail: seq<byte>)
    requires Progress(take) && ReadsBack(take, encode, items)
    ensures Parsed(take, EncodeAll(encode, items) + tail)
         == Parsed(take, tail).(items := items + Parsed(take, tail).items)
    decreases |items|
  {
    hide ReadsBack, Parsed, Progress;
    if items == [] {
      assert EncodeAll(encode, items) + tail == tail;
      assert items + Parsed(take, tail).items == Parsed(take, tail).items;
    } else {
      var rest := EncodeAll(encode, items[1..]) + tail;
      assert EncodeAll(encode, items) + tail == encode(items[0]) + rest;
      ReadsBackAt(take, encode, items, rest);
      ParsedItem(take, encode(items[0]), rest);
      EncodedItemsAreParsed(take, encode, items[1..], tail);
      assert [items[0]] + (items[1..] + Parsed(take, tail).items) == items + Parsed(take, tail).items;
    }
  }

  /** Items encoded one after the other and cut into arbitrary reads come out as they went in,
      and only the incomplete tail is left. */
  lemma FramesSurviveReads<T(!new)>(take: seq<byte> -> Taken<T>, encode: T -> seq<byte>, items: seq<T>, tail: seq<byte>,
                                    chunks: seq<seq<byte>>)
    requires Progress(take) && Stable(take) && ReadsBack(take, encode, items)
    requires take([]).NeedMore? && take(tail).NeedMore?
    requires Flatten(chunks) == EncodeAll(encode, items) + tail
    ensures AllRead(take, [], chunks) == Parse(items, tail, true)
  {
    ReadsAreOneStream(take, [], chunks);
    assert [] + Flatten(chunks) == Flatten(chunks);
    EncodedItemsAreParsed(take, encode, items, tail);
    assert items + [] == items;
  }
}
