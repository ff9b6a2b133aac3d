/** Building operations, keeping the log on disk, and reconciling it with a server that may answer anything. */
module MembershipSync {
  import opened Bytes
  import opened Wire
  import opened Wrappers
  import opened Memberships
  import M = MembershipTheorems

  // ---------- adding and removing devices ----------

  /** The next operation of a log, as a signer would build it. */
  function NextBody(c: Crypto, ops: seq<Op>, kind: nat, subject: Key, name: seq<byte>, cert: seq<byte>, expires: int,
                    signer: Key): Body
    requires ops != []
  {
    Body(kind, |ops|, c.hash(ops[|ops| - 1]), subject, name, cert, expires, signer)
  }

  /** Such an operation is accepted exactly when its signer is a member and the signature is good. */
  lemma BuiltFollowsIff(c: Crypto, ops: seq<Op>, kind: nat, subject: Key, name: seq<byte>, cert: seq<byte>, expires: int,
                        signer: Key, sig: seq<byte>)
    requires ops != [] && kind in {ADD, REMOVE} && |sig| < 0x1_0000_0000
    requires FitsBody(NextBody(c, ops, kind, subject, name, cert, expires, signer))
    ensures var b := NextBody(c, ops, kind, subject, name, cert, expires, signer);
            Follows(c, ops, OpBytes(b, sig)) <==> IsMember(StateOf(ops), signer) && c.verify(signer, BodyBytes(b), sig)
  {
    var b := NextBody(c, ops, kind, subject, name, cert, expires, signer);
    M.ParseOfBuild(b, sig, []);
    assert OpBytes(b, sig) + [] == OpBytes(b, sig);
    hide ParseOp, StateOf, BodyBytes, IsMember;
  }

  /** Builds, signs and appends an operation; the empty operation says that nothing was appended. */
  method AppendSigned(log: MembershipLog, sign: seq<byte> -> seq<byte>, kind: nat, subject: Key, name: seq<byte>,
                      cert: seq<byte>, expires: int, signer: Key) returns (op: Op)
    requires log.Valid()
    modifies log
    ensures log.Valid()
    ensures log.ops == old(log.ops) || log.ops == old(log.ops) + [op]
    ensures op == [] ==> log.ops == old(log.ops)
    ensures old(log.ops) != [] ==>
              var b := NextBody(log.crypto, old(log.ops), kind, subject, name, cert, expires, signer);
              var built := OpBytes(b, sign(BodyBytes(b)));
              log.ops == if sign(BodyBytes(b)) != [] && Follows(log.crypto, old(log.ops), built)
                         then old(log.ops) + [built] else old(log.ops)
  {
    hide ParseOp, StateOf, Follows, BodyBytes;
    if log.ops == [] { return []; }
    var b := NextBody(log.crypto, log.ops, kind, subject, name, cert, expires, signer);
    var sig := sign(BodyBytes(b));
    if sig == [] { return []; }
    op := OpBytes(b, sig);
    VerifiesLast(log.crypto, log.ops, op);
    hide Verifies;
    var ok := log.AppendVerified(op);
    if !ok { op := []; }
  }

  // ---------- on disk ----------

  function Strings(ops: seq<Op>): seq<byte> {
    if ops == [] then [] else Str(ops[0]) + Strings(ops[1..])
  }

  function FileBytes(ops: seq<Op>): seq<byte> {
    LE(|ops|, 4) + Strings(ops)
  }

  function GetStrings(i: Input, n: nat): (Input, seq<Op>)
    decreases n
  {
    if n == 0 || !i.ok then (i, [])
    else
      var (j, s) := GetStr(i);
      var (k, rest) := GetStrings(j, n - 1);
      (k, [s] + rest)
  }

  /** The operations in a file; None if it is cut short. */
  function FileOps(data: seq<byte>): Option<seq<Op>> {
    var (i, n) := Get(Input(data, true), 4);
    var (j, ops) := GetStrings(i, n);
    if j.ok then Some(ops) else None
  }

  lemma {:induction false} StringsRoundTrip(ops: seq<Op>, rest: seq<byte>)
    requires forall i | 0 <= i < |ops| :: |ops[i]| < 0x1_0000_0000
    ensures GetStrings(Input(Strings(ops) + rest, true), |ops|) == (Input(rest, true), ops)
    decreases |ops|
  {
    RangeValues();
    hide Str, GetStr, Range;
    if ops == [] {
      assert Strings(ops) + rest == rest;
    } else {
      assert Strings(ops) + rest == Str(ops[0]) + (Strings(ops[1..]) + rest);
      GetStrOfStr(ops[0], Strings(ops[1..]) + rest);
      StringsRoundTrip(ops[1..], rest);
      assert ops == [ops[0]] + ops[1..];
    }
  }

  /** A saved log is loaded again as it was. */
  lemma FileRoundTrip(ops: seq<Op>)
    requires |ops| < 0x1_0000_0000 && forall i | 0 <= i < |ops| :: |ops[i]| < 0x1_0000_0000
    ensures FileOps(FileBytes(ops)) == Some(ops)
  {
    RangeValues();
    GetOfSmall(|ops|, 4, Strings(ops));
    StringsRoundTrip(ops, []);
    assert Strings(ops) + [] == Strings(ops);
  }

  // ---------- the set's name ----------

  const DIGITS: seq<char> := "0123456789abcdef"

  function Hex(s: seq<byte>): string {
    if s == [] then [] else [DIGITS[s[0] / 16], DIGITS[s[0] % 16]] + Hex(s[1..])
  }

  function SetId(c: Crypto, ops: seq<Op>): string {
    if ops == [] then [] else Hex(c.hash(ops[0]))
  }

  lemma {:induction false} HexInjective(a: seq<byte>, b: seq<byte>)
    requires Hex(a) == Hex(b)
    ensures a == b
    decreases |a|
  {
    HexLength(a);
    HexLength(b);
    if a != [] && b != [] {
      var (x, y) := (Hex(a), Hex(b));
      assert x[0] == y[0] && x[1] == y[1] && x[2..] == Hex(a[1..]) && y[2..] == Hex(b[1..]);
      DigitsDiffer(a[0] / 16, b[0] / 16);
      DigitsDiffer(a[0] % 16, b[0] % 16);
      assert a[0] == b[0];
      HexInjective(a[1..], b[1..]);
      assert a == [a[0]] + a[1..] && b == [b[0]] + b[1..];
    }
  }

  lemma {:induction false} HexLength(s: seq<byte>)
    ensures |Hex(s)| == 2 * |s|
  {
    if s != [] { HexLength(s[1..]); }
  }

  lemma DigitsDiffer(a: nat, b: nat)
    requires a < 16 && b < 16 && DIGITS[a] == DIGITS[b]
    ensures a == b
  {
  }

  /** Two sets of one name have the same founding operation. */
  lemma SameNameSameGenesis(c: Crypto, a: seq<Op>, b: seq<Op>)
    requires M.Injective(c.hash) && a != [] && b != [] && SetId(c, a) == SetId(c, b)
    ensures a[0] == b[0]
  {
    HexInjective(c.hash(a[0]), c.hash(b[0]));
    M.HashesDiffer(c.hash, a[0], b[0]);
  }

  // ---------- reconciling ----------

  /** The log on disk, or a freshly founded one if there is none and founding is allowed. */
  method LoadOrFound(crypto: Crypto, file: Option<seq<Op>>, founding: Op, mayFound: bool) returns (log: Option<seq<Op>>)
    ensures log == if file.Some? && Verifies(crypto, file.value) then file
                   else if mayFound && founding != [] && Verifies(crypto, [founding]) then Some([founding]) else None
  {
    hide Verifies, StateOf;
    var local := new MembershipLog(crypto);
    var loaded := false;
    if file.Some? { loaded := local.Load(file.value); }
    if loaded { return Some(local.ops); }
    if !mayFound || founding == [] { return None; }
    loaded := local.Load([founding]);
    if !loaded { return None; }
    return Some(local.ops);
  }

  /** What of the server's answer may replace the local log: it must be longer, verify, and have the same name. */
  predicate Adoptable(c: Crypto, ops: seq<Op>, answer: Option<seq<Op>>) {
    answer.Some? && |answer.value| > |ops| && Verifies(c, answer.value) && SetId(c, answer.value) == SetId(c, ops)
  }

  method Adopt(crypto: Crypto, ops: seq<Op>, answer: Option<seq<Op>>) returns (r: seq<Op>)
    ensures r == if Adoptable(crypto, ops, answer) then answer.value else ops
  {
    hide Verifies, StateOf, SetId;
    if answer.None? || |answer.value| <= |ops| { return ops; }
    var candidate := new MembershipLog(crypto);
    var good := candidate.Load(answer.value);
    if good && SetId(crypto, candidate.ops) == SetId(crypto, ops) { return candidate.ops; }
    return ops;
  }

  /**
    Loads or founds the local log, adopts the server's where it may, and pushes what the server lacks.
    `file` is what the disk holds, `answer` and `have` what the server says to two questions, None for
    no answer; `founding` is a fresh founding operation. Whatever the server says, the log verifies,
    is no shorter than before, and keeps its name.
  */
  method Sync(crypto: Crypto, file: Option<seq<Op>>, founding: Op, mayFound: bool,
              answer: Option<seq<Op>>, have: Option<seq<Op>>)
    returns (start: Option<seq<Op>>, log: seq<Op>, pushed: seq<Op>)
    ensures start.Some? <==> (file.Some? && Verifies(crypto, file.value)) || (mayFound && founding != [] && Verifies(crypto, [founding]))
    ensures start.Some? && file.Some? && Verifies(crypto, file.value) ==> start == file
    ensures start.Some? ==>
              && Verifies(crypto, log) && |log| >= |start.value| && SetId(crypto, log) == SetId(crypto, start.value)
              && log == (if Adoptable(crypto, start.value, answer) then answer.value else start.value)
              && (have.Some? && have.value <= log ==> have.value + pushed == log)
  {
    hide Verifies, SetId;
    start := LoadOrFound(crypto, file, founding, mayFound);
    if start.None? { return None, [], []; }
    log := Adopt(crypto, start.value, answer);
    var known := if have.Some? then |have.value| else 0;
    pushed := if known <= |log| then log[known..] else [];
  }

  /** With an injective hash the adopted log goes on from the local one exactly when it has the local log's
      last operation in its place: a longer branch from the same founding operation is adopted all the same. */
  lemma AdoptedContinuesIff(c: Crypto, start: seq<Op>, adopted: seq<Op>)
    requires M.Injective(c.hash) && Verifies(c, start) && Verifies(c, adopted)
    requires start != [] && |adopted| > |start| && SetId(c, adopted) == SetId(c, start)
    ensures adopted[0] == start[0]
    ensures start <= adopted <==> adopted[|start| - 1] == start[|start| - 1]
  {
    SameNameSameGenesis(c, adopted, start);
    M.ContinuesIff(c, start, adopted);
  }
}
