/** The layout tree in the handover file of a daemon upgrade: a prefix code. */
module LayoutHandover {
  import opened Bytes
  import opened Wire
  import opened Wrappers
  import opened Layouts

  const MILLION: nat := 1000000

  /** A ratio in whole millionths, cut off. */
  function Millionths(ratio: real): int {
    Trunc(ratio * MILLION as real)
  }

  function Encode(t: Tree): (s: seq<byte>)
    ensures s != []
  {
    match t
    case Leaf(p) => [0] + LE(p, 2)
    case Split(dir, ratio, first, second) =>
      [1] + ([if dir.Vertical? then 0 else 1] + (LE(FromSigned(Millionths(ratio), 4), 4) + (Encode(first) + Encode(second))))
  }

  /** Reads a tree whose panes are all known. Both children are read even if the first is refused. */
  function Decode(i: Input, known: set<nat>): (r: (Input, Option<Tree>))
    ensures |r.0.rest| <= |i.rest|
    ensures r.1.Some? ==> r.0.ok
    decreases |i.rest|
  {
    var (i1, kind) := Get(i, 1);
    if !i1.ok then (i1, None)
    else if kind == 0 then
      var (i2, p) := Get(i1, 2);
      (i2, if i2.ok && p in known then Some(Leaf(p)) else None)
    else
      var (i2, d) := Get(i1, 1);
      var (i3, m) := Get(i2, 4);
      var (i4, first) := Decode(i3, known);
      var (i5, second) := Decode(i4, known);
      (i5, if first.Some? && second.Some?
           then Some(Split(if d == 0 then Vertical else Horizontal, m as real / MILLION as real, first.value, second.value))
           else None)
  }

  /** The tree with every ratio cut off to millionths. */
  function Quantized(t: Tree): Tree {
    match t
    case Leaf(p) => t
    case Split(dir, ratio, first, second) =>
      Split(dir, Millionths(ratio) as real / MILLION as real, Quantized(first), Quantized(second))
  }

  predicate Fits(t: Tree) {
    match t
    case Leaf(p) => p < 0x1_0000
    case Split(_, ratio, first, second) => 0.0 <= ratio <= 1.0 && Fits(first) && Fits(second)
  }

  predicate AllKnown(t: Tree, known: set<nat>) {
    match t
    case Leaf(p) => p in known
    case Split(_, _, first, second) => AllKnown(first, known) && AllKnown(second, known)
  }

  lemma MillionthsBound(ratio: real)
    requires 0.0 <= ratio <= 1.0
    ensures 0 <= Millionths(ratio) <= MILLION
    ensures Millionths(ratio) as real / MILLION as real <= ratio < (Millionths(ratio) + 1) as real / MILLION as real
  {
    var v := ratio * MILLION as real;
    assert 0.0 <= v <= 1000000.0;
  }

  lemma LeafBytes(p: nat, rest: seq<byte>)
    requires p < 0x1_0000
    ensures var (i, kind) := Get(Input(Encode(Leaf(p)) + rest, true), 1);
            kind == 0 && i.ok && Get(i, 2) == (Input(rest, true), p)
  {
    RangeValues();
    OneByte(0);
    assert Encode(Leaf(p)) + rest == LE(0, 1) + (LE(p, 2) + rest);
    GetOfSmall(0, 1, LE(p, 2) + rest);
    GetOfSmall(p, 2, rest);
  }

  lemma SplitFits(t: Tree, m: int, d: byte)
    requires t.Split? && 0.0 <= t.ratio <= 1.0 && m == Millionths(t.ratio) && d <= 1
    ensures 0 <= m < Range(4) && FromSigned(m, 4) == m && 1 < Range(1) && d < Range(1) && LE(1, 1) == [1] && LE(d, 1) == [d]
  {
    RangeValues();
    MillionthsBound(t.ratio);
    OneByte(1);
    OneByte(d);
    hide LE, Range, Millionths;
  }

  lemma SplitBytes(t: Tree, rest: seq<byte>)
    requires t.Split? && 0.0 <= t.ratio <= 1.0
    ensures 0 <= Millionths(t.ratio)
    ensures var (i1, kind) := Get(Input(Encode(t) + rest, true), 1);
            var (i2, d) := Get(i1, 1);
            kind == 1 && i1.ok && d == (if t.dir.Vertical? then 0 else 1)
            && Get(i2, 4) == (Input(Encode(t.first) + (Encode(t.second) + rest), true), Millionths(t.ratio))
  {
    var m := Millionths(t.ratio);
    var d: byte := if t.dir.Vertical? then 0 else 1;
    SplitFits(t, m, d);
    var (a, b) := (Encode(t.first), Encode(t.second));
    var tail := a + (b + rest);
    assert Encode(t) == LE(1, 1) + (LE(d, 1) + (LE(m, 4) + (a + b)));
    hide *;
    var (x, y, z) := (LE(1, 1), LE(d, 1), LE(m, 4));
    Associative(a, b, rest);
    Associative(z, a + b, rest);
    Associative(y, z + (a + b), rest);
    Associative(x, y + (z + (a + b)), rest);
    GetOfSmall(1, 1, LE(d, 1) + (LE(m, 4) + tail));
    GetOfSmall(d, 1, LE(m, 4) + tail);
    GetOfSmall(m, 4, tail);
  }

  /** Exactly the tree's bytes are read back, as that tree; a tree with an unknown pane is refused
      after just as many bytes. */
  lemma {:induction false} DecodeOfEncode(t: Tree, known: set<nat>, rest: seq<byte>)
    requires Fits(t)
    ensures Decode(Input(Encode(t) + rest, true), known)
         == (Input(rest, true), if AllKnown(t, known) then Some(Quantized(t)) else None)
  {
    hide Encode, Get, Millionths;
    if t.Leaf? {
      LeafBytes(t.pane, rest);
    } else {
      SplitBytes(t, rest);
      DecodeOfEncode(t.first, known, Encode(t.second) + rest);
      DecodeOfEncode(t.second, known, rest);
    }
  }

  lemma OneByte(b: byte)
    ensures LE(b, 1) == [b]
  {
    assert LE(b / 0x100, 0) == [];
  }

  /** A second upgrade changes no ratio any more. */
  lemma {:induction false} QuantizedTwice(t: Tree)
    requires Fits(t)
    ensures Fits(Quantized(t)) && Quantized(Quantized(t)) == Quantized(t)
  {
    if t.Split? {
      MillionthsBound(t.ratio);
      var m := Millionths(t.ratio);
      assert (m as real / MILLION as real) * MILLION as real == m as real;
      QuantizedTwice(t.first);
      QuantizedTwice(t.second);
    }
  }

  // ---------- the program ----------

  lemma FivePieces(buf: seq<byte>, a: seq<byte>, b: seq<byte>, c: seq<byte>, d: seq<byte>, e: seq<byte>)
    ensures buf + a + b + c + d + e == buf + (a + (b + (c + (d + e))))
  {
  }

  method WriteTree(w: Writer, t: Tree)
    modifies w
    ensures w.buf == old(w.buf) + Encode(t)
    decreases t
  {
    hide LE;
    OneByte(0);
    OneByte(1);
    match t {
      case Leaf(p) =>
        w.Int(0, 1);
        w.Int(p, 2);
      case Split(dir, ratio, first, second) =>
        FivePieces(w.buf, [1], [if dir.Vertical? then 0 else 1], LE(FromSigned(Millionths(ratio), 4), 4), Encode(first), Encode(second));
        hide Millionths, FromSigned;
        w.Int(1, 1);
        w.Int(if dir.Vertical? then 0 else 1, 1);
        w.Int(FromSigned(Millionths(ratio), 4), 4);
        WriteTree(w, first);
        WriteTree(w, second);
    }
  }

  method ReadTree(r: Reader, known: set<nat>) returns (t: Option<Tree>)
    requires r.Valid()
    modifies r
    ensures r.Valid() && (r.Left(), t) == Decode(old(r.Left()), known)
    decreases |r.Left().rest|
  {
    hide Get;
    var kind := r.Int(1);
    if !r.ok { return None; }
    if kind == 0 {
      var p := r.Int(2);
      return if r.ok && p in known then Some(Leaf(p)) else None;
    }
    var d := r.Int(1);
    var m := r.Int(4);
    var first := ReadTree(r, known);
    var second := ReadTree(r, known);
    if first.None? || second.None? { return None; }
    t := Some(Split(if d == 0 then Vertical else Horizontal, m as real / MILLION as real, first.value, second.value));
  }
}
