/**
  The binary writer and the fail-soft reader of the protocol: little-endian
  integers, and byte strings behind a 32-bit length. A read past the end yields 0
  or the empty string and marks the reader as failed for good.
*/
module Wire {
  import opened Bytes

  // ---------- little-endian integers ----------

  /** 256 to the power k. */
  function Range(k: nat): (r: nat)
    ensures r >= 1
  {
    if k == 0 then 1 else 0x100 * Range(k - 1)
  }

  /** The k low bytes of n, least significant first. */
  function LE(n: nat, k: nat): (s: seq<byte>)
    ensures |s| == k
  {
    if k == 0 then [] else [n % 0x100] + LE(n / 0x100, k - 1)
  }

  function FromLE(s: seq<byte>): nat {
    if s == [] then 0 else s[0] + 0x100 * FromLE(s[1..])
  }

  lemma {:induction false} FromLEOfLE(n: nat, k: nat)
    ensures FromLE(LE(n, k)) == n % Range(k)
  {
    if k > 0 {
      FromLEOfLE(n / 0x100, k - 1);
      ModOfQuotient(n, Range(k - 1));
    }
  }

  lemma ModOfQuotient(n: nat, m: nat)
    requires m >= 1
    ensures n % (0x100 * m) == n % 0x100 + 0x100 * (n / 0x100 % m)
  {
    var q, low := n / 0x100, n % 0x100;
    var r := low + 0x100 * (q % m);
    assert q == q / m * m + q % m;
    assert n == q / m * (0x100 * m) + r by { assert 0x100 * (q / m * m) == q / m * (0x100 * m); }
    Remainder(n, 0x100 * m, q / m, r);
  }

  lemma Remainder(n: int, m: int, q: int, r: int)
    requires 0 <= r < m && n == q * m + r
    ensures n % m == r
  {
    var d := n / m - q;
    assert n == n / m * m + n % m;
    assert n / m * m == q * m + d * m;
    assert d >= 1 ==> d * m >= m;
    assert d <= -1 ==> d * m <= -1 * m;
  }

  lemma RangeValues()
    ensures Range(1) == 0x100 && Range(2) == 0x1_0000 && Range(4) == 0x1_0000_0000
    ensures Range(8) == 0x1_0000_0000_0000_0000
  {
    assert Range(0) == 1 && Range(3) == 0x100_0000;
    assert Range(5) == 0x100_0000_0000 && Range(6) == 0x1_0000_0000_0000 && Range(7) == 0x100_0000_0000_0000;
  }

  /** Two's complement on k bytes. */
  function ToSigned(n: nat, k: nat): int {
    if 2 * n < Range(k) then n else n - Range(k)
  }

  function FromSigned(n: int, k: nat): (r: nat)
    ensures r < Range(k)
  {
    n % Range(k)
  }

  lemma SignedRoundTrip(n: int, k: nat)
    requires -(Range(k) as int) <= 2 * n < Range(k)
    ensures ToSigned(FromSigned(n, k), k) == n
  {
    var m: int := Range(k);
    if n >= 0 { Remainder(n, m, 0, n); } else { Remainder(n, m, -1, n + m); }
  }

  // ---------- reading ----------

  /** What is left to read; ok is lost at the first read past the end. */
  datatype Input = Input(rest: seq<byte>, ok: bool)

  function Get(i: Input, k: nat): (r: (Input, nat))
    ensures |r.0.rest| <= |i.rest|
    ensures r.0.ok ==> i.ok && |r.0.rest| == |i.rest| - k
    ensures r.1 < Range(k)
  {
    if i.ok && |i.rest| >= k then
      FromLEBound(i.rest[..k]);
      (Input(i.rest[k..], true), FromLE(i.rest[..k]))
    else (Input(i.rest, false), 0)
  }

  lemma {:induction false} FromLEBound(s: seq<byte>)
    ensures FromLE(s) < Range(|s|)
  {
    if s != [] { FromLEBound(s[1..]); }
  }

  function GetStr(i: Input): (r: (Input, seq<byte>))
    ensures |r.0.rest| <= |i.rest|
  {
    var (j, n) := Get(i, 4);
    if j.ok && |j.rest| >= n then (Input(j.rest[n..], true), j.rest[..n]) else (j.(ok := false), [])
  }

  function Str(s: seq<byte>): seq<byte> {
    LE(|s|, 4) + s
  }

  lemma GetOfLE(n: nat, k: nat, rest: seq<byte>)
    ensures Get(Input(LE(n, k) + rest, true), k) == (Input(rest, true), n % Range(k))
  {
    var all := LE(n, k) + rest;
    assert all[..k] == LE(n, k) && all[k..] == rest;
    FromLEOfLE(n, k);
  }

  lemma GetOfSmall(n: nat, k: nat, rest: seq<byte>)
    requires n < Range(k)
    ensures Get(Input(LE(n, k) + rest, true), k) == (Input(rest, true), n)
  {
    GetOfLE(n, k, rest);
    Remainder(n, Range(k), 0, n);
  }

  lemma GetStrOfStr(s: seq<byte>, rest: seq<byte>)
    requires |s| < Range(4)
    ensures GetStr(Input(Str(s) + rest, true)) == (Input(rest, true), s)
  {
    assert Str(s) + rest == LE(|s|, 4) + (s + rest);
    GetOfSmall(|s|, 4, s + rest);
    assert (s + rest)[..|s|] == s && (s + rest)[|s|..] == rest;
  }

  // ---------- records of fixed-width fields ----------

  /** Fields of the given widths, one after the other. */
  function PutFields(widths: seq<nat>, values: seq<nat>): seq<byte>
    requires |widths| == |values|
  {
    if widths == [] then [] else LE(values[0], widths[0]) + PutFields(widths[1..], values[1..])
  }

  function GetFields(i: Input, widths: seq<nat>): (r: (Input, seq<nat>))
    ensures |r.1| == |widths| && |r.0.rest| <= |i.rest|
    decreases |widths|
  {
    if widths == [] then (i, [])
    else
      var (j, v) := Get(i, widths[0]);
      var (k, vs) := GetFields(j, widths[1..]);
      (k, [v] + vs)
  }

  predicate Fits(widths: seq<nat>, values: seq<nat>) {
    |widths| == |values| && forall i | 0 <= i < |widths| :: values[i] < Range(widths[i])
  }

  lemma {:induction false} FieldsRoundTrip(widths: seq<nat>, values: seq<nat>, rest: seq<byte>)
    requires Fits(widths, values)
    ensures GetFields(Input(PutFields(widths, values) + rest, true), widths) == (Input(rest, true), values)
    decreases |widths|
  {
    if widths == [] {
      assert PutFields(widths, values) + rest == rest;
    } else {
      var tail := PutFields(widths[1..], values[1..]);
      assert PutFields(widths, values) + rest == LE(values[0], widths[0]) + (tail + rest);
      GetOfSmall(values[0], widths[0], tail + rest);
      FieldsRoundTrip(widths[1..], values[1..], rest);
      assert values == [values[0]] + values[1..];
    }
  }

  // ---------- the program ----------

  class Writer {
    var buf: seq<byte>

    constructor ()
      ensures buf == []
    {
      buf := [];
    }

    /** u8, u16, u32 and u64, by width in bytes. */
    method Int(v: nat, width: nat)
      modifies this
      ensures buf == old(buf) + LE(v, width)
    {
      var n, i := v, 0;
      ghost var done: seq<byte> := [];
      while i < width
        invariant 0 <= i <= width && buf == old(buf) + done
        invariant LE(v, width) == done + LE(n, width - i)
      {
        buf := buf + [n % 0x100];
        done := done + [n % 0x100];
        n := n / 0x100;
        i := i + 1;
      }
    }

    method Raw(s: seq<byte>)
      modifies this
      ensures buf == old(buf) + s
    {
      buf := buf + s;
    }

    method Text(s: seq<byte>)
      modifies this
      ensures buf == old(buf) + Str(s)
    {
      Int(|s|, 4);
      Raw(s);
    }
  }

  class Reader {
    const data: seq<byte>
    var p: nat
    var ok: bool

    ghost predicate Valid()
      reads this
    {
      p <= |data|
    }

    ghost function Left(): Input
      requires Valid()
      reads this
    {
      Input(data[p..], ok)
    }

    constructor (data: seq<byte>)
      ensures Valid() && this.data == data && Left() == Input(data, true)
    {
      this.data, p, ok := data, 0, true;
    }

    method Int(width: nat) returns (v: nat)
      requires Valid()
      modifies this
      ensures Valid() && (Left(), v) == Get(old(Left()), width)
    {
      if !ok || |data| - p < width {
        ok := false;
        return 0;
      }
      assert data[p..][..width] == data[p..p + width] && data[p..][width..] == data[p + width..];
      v := 0;
      var i := width;
      while i > 0
        invariant 0 <= i <= width && v == FromLE(data[p + i..p + width])
      {
        assert data[p + i - 1..p + width][1..] == data[p + i..p + width];
        i := i - 1;
        v := data[p + i] + 0x100 * v;
      }
      p := p + width;
    }

    method Text() returns (s: seq<byte>)
      requires Valid()
      modifies this
      ensures Valid() && (Left(), s) == GetStr(old(Left()))
    {
      var n := Int(4);
      if !ok || |data| - p < n {
        ok := false;
        return [];
      }
      assert data[p..][..n] == data[p..p + n] && data[p..][n..] == data[p + n..];
      s := data[p..p + n];
      p := p + n;
    }
  }
}
