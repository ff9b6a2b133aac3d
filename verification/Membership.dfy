/**
  The device set as a signed, append-only log of operations. The hash and the signature
  check are parameters: what is proved holds for any, and where the hash must be
  injective it says so.
*/
module Memberships {
  import opened Bytes
  import opened Wire
  import opened Wrappers

  type Op = seq<byte>
  type Key = seq<byte>

  const GENESIS: nat := 1
  const ADD: nat := 2
  const REMOVE: nat := 3
  const PREV: nat := 32

  datatype Crypto = Crypto(hash: seq<byte> -> seq<byte>, verify: (Key, seq<byte>, seq<byte>) -> bool)

  datatype Member = Member(key: Key, name: seq<byte>, cert: seq<byte>, expires: int)

  /** What a signature covers. */
  datatype Body = Body(kind: nat, number: nat, prev: seq<byte>, subject: Key, name: seq<byte>, cert: seq<byte>,
                       expires: int, signer: Key)

  datatype Parsed = Parsed(body: Body, bodyLength: nat, sig: seq<byte>)

  // ---------- on the wire ----------

  function BodyBytes(b: Body): seq<byte> {
    LE(b.kind, 1) + (LE(b.number, 4) + (b.prev + (Str(b.subject) + (Str(b.name) + (Str(b.cert)
      + (LE(FromSigned(b.expires, 8), 8) + Str(b.signer)))))))
  }

  function OpBytes(b: Body, sig: seq<byte>): Op {
    BodyBytes(b) + Str(sig)
  }

  /** Bytes after the signature are not looked at. */
  function ParseOp(op: Op): Option<Parsed> {
    var (i1, kind) := Get(Input(op, true), 1);
    var (i2, number) := Get(i1, 4);
    if !i2.ok || |i2.rest| < PREV then None
    else
      var prev := i2.rest[..PREV];
      var (i3, subject) := GetStr(Input(i2.rest[PREV..], true));
      var (i4, name) := GetStr(i3);
      var (i5, cert) := GetStr(i4);
      var (i6, expires) := Get(i5, 8);
      var (i7, signer) := GetStr(i6);
      if !i7.ok then None
      else
        var (i8, sig) := GetStr(i7);
        if i8.ok
        then Some(Parsed(Body(kind, number, prev, subject, name, cert, ToSigned(expires, 8), signer), |op| - |i7.rest|, sig))
        else None
  }

  predicate FitsBody(b: Body) {
    && b.kind < 0x100 && b.number < 0x1_0000_0000 && |b.prev| == PREV
    && |b.subject| < 0x1_0000_0000 && |b.name| < 0x1_0000_0000 && |b.cert| < 0x1_0000_0000 && |b.signer| < 0x1_0000_0000
    && -0x8000_0000_0000_0000 <= b.expires < 0x8000_0000_0000_0000
  }

  // ---------- what the log means ----------

  function Named(p: Parsed): Member {
    Member(p.body.subject, p.body.name, p.body.cert, p.body.expires)
  }

  /** The place of a key among the members, or their number. */
  function Find(state: seq<Member>, key: Key): (i: nat)
    ensures i <= |state| && (i < |state| ==> state[i].key == key)
    ensures forall j | 0 <= j < i :: state[j].key != key
  {
    if state == [] || state[0].key == key then 0 else 1 + Find(state[1..], key)
  }

  predicate IsMember(state: seq<Member>, key: Key) {
    Find(state, key) < |state|
  }

  function Removed(state: seq<Member>, key: Key): seq<Member> {
    if state == [] then []
    else Removed(state[..|state| - 1], key) + (if state[|state| - 1].key == key then [] else [state[|state| - 1]])
  }

  /** An operation's effect on the members, whoever signed it. */
  function Effect(state: seq<Member>, p: Parsed): seq<Member> {
    if p.body.kind == REMOVE then Removed(state, p.body.subject)
    else
      var i := Find(state, p.body.subject);
      if i < |state| then state[i := Named(p)] else state + [Named(p)]
  }

  function StateOf(ops: seq<Op>): seq<Member> {
    if ops == [] then []
    else match ParseOp(ops[|ops| - 1])
      case None => StateOf(ops[..|ops| - 1])
      case Some(p) => Effect(StateOf(ops[..|ops| - 1]), p)
  }

  // ---------- when a log is valid ----------

  predicate Signed(c: Crypto, op: Op, p: Parsed) {
    p.bodyLength <= |op| && c.verify(p.body.signer, op[..p.bodyLength], p.sig)
  }

  predicate IsGenesis(c: Crypto, op: Op) {
    match ParseOp(op)
    case None => false
    case Some(p) =>
      && p.body.kind == GENESIS && p.body.number == 0 && p.body.prev == seq(PREV, i => 0)
      && p.body.signer == p.body.subject && Signed(c, op, p)
  }

  /** The operation may follow these: right number, chained by hash, signed by a member, and of a known kind. */
  predicate Follows(c: Crypto, ops: seq<Op>, op: Op)
    requires ops != []
  {
    match ParseOp(op)
    case None => false
    case Some(p) =>
      && p.body.number == |ops| && p.body.prev == c.hash(ops[|ops| - 1])
      && IsMember(StateOf(ops), p.body.signer) && Signed(c, op, p)
      && (p.body.kind == ADD || p.body.kind == REMOVE)
  }

  predicate OpOk(c: Crypto, ops: seq<Op>, i: nat)
    requires i < |ops|
  {
    if i == 0 then IsGenesis(c, ops[0]) else Follows(c, ops[..i], ops[i])
  }

  /** Every operation is right at its place. */
  predicate Verifies(c: Crypto, ops: seq<Op>) {
    forall i | 0 <= i < |ops| :: OpOk(c, ops, i)
  }

  // ---------- the log as the program keeps it ----------

  class MembershipLog {
    const crypto: Crypto
    var ops: seq<Op>
    var state: seq<Member>

    /** The members kept are those the operations make. */
    ghost predicate Valid()
      reads this
    {
      Verifies(crypto, ops) && state == StateOf(ops)
    }

    constructor (crypto: Crypto)
      ensures Valid() && this.crypto == crypto && ops == []
    {
      this.crypto := crypto;
      ops, state := [], [];
    }

    static method FindMember(state: seq<Member>, key: Key) returns (i: nat)
      ensures i == Find(state, key)
    {
      i := 0;
      while i < |state| && state[i].key != key
        invariant 0 <= i <= |state| && Find(state, key) == i + Find(state[i..], key)
      {
        i := i + 1;
      }
    }

    static method EraseMember(state: seq<Member>, key: Key) returns (r: seq<Member>)
      ensures r == Removed(state, key)
    {
      r := [];
      var i := 0;
      while i < |state|
        invariant 0 <= i <= |state| && r == Removed(state[..i], key)
      {
        assert state[..i + 1][..i] == state[..i];
        if state[i].key != key { r := r + [state[i]]; }
        i := i + 1;
      }
      assert state[..i] == state;
    }

    /** Takes the operation if it is valid at the end of the log; otherwise nothing changes. */
    method AppendVerified(op: Op) returns (ok: bool)
      requires Valid()
      modifies this
      ensures Valid()
      ensures ok <==> Verifies(crypto, old(ops) + [op])
      ensures ops == if ok then old(ops) + [op] else old(ops)
    {
      hide ParseOp, StateOf, Find, Removed;
      VerifiesLast(crypto, ops, op);
      StateStep(ops, op);
      var parsed := ParseOp(op);
      if parsed.None? { return false; }
      var p := parsed.value;
      if p.bodyLength > |op| { return false; }
      var body := op[..p.bodyLength];
      if ops == [] {
        if p.body.kind != GENESIS || p.body.number != 0 || p.body.prev != seq(PREV, i => 0) { return false; }
        if p.body.signer != p.body.subject { return false; }
        if !crypto.verify(p.body.subject, body, p.sig) { return false; }
        EmptyState(p.body.subject);
        ops, state := ops + [op], state + [Named(p)];
        return true;
      }
      if p.body.number != |ops| { return false; }
      if p.body.prev != crypto.hash(ops[|ops| - 1]) { return false; }
      var at := FindMember(state, p.body.signer);
      if at == |state| { return false; }
      if !crypto.verify(p.body.signer, body, p.sig) { return false; }
      if p.body.kind == ADD {
        var i := FindMember(state, p.body.subject);
        state := if i < |state| then state[i := Named(p)] else state + [Named(p)];
      } else if p.body.kind == REMOVE {
        state := EraseMember(state, p.body.subject);
      } else {
        return false;
      }
      ops := ops + [op];
      return true;
    }

    method Clear()
      modifies this
      ensures Valid() && ops == []
    {
      StateStep([], []);
      ops, state := [], [];
    }

    /** Replaces the log; a chain that does not verify leaves it empty. */
    method Load(chain: seq<Op>) returns (ok: bool)
      modifies this
      ensures Valid() && (ok <==> Verifies(crypto, chain))
      ensures ops == if ok then chain else []
    {
      hide Verifies, StateOf;
      Clear();
      var i := 0;
      while i < |chain|
        invariant 0 <= i <= |chain| && Valid() && ops == chain[..i]
      {
        assert chain[..i] + [chain[i]] == chain[..i + 1];
        var taken := AppendVerified(chain[i]);
        if !taken {
          VerifiesPrefix(crypto, chain, i + 1);
          Clear();
          return false;
        }
        i := i + 1;
      }
      assert chain[..i] == chain;
      ok := true;
    }

    /** The members at a time; those past their expiry are left out when the time is given. */
    method Members(now: int) returns (r: seq<Member>)
      ensures r == Current(state, now)
    {
      r := [];
      var i := 0;
      while i < |state|
        invariant 0 <= i <= |state| && r == Current(state[..i], now)
      {
        assert state[..i + 1][..i] == state[..i];
        if now <= 0 || state[i].expires == 0 || state[i].expires > now { r := r + [state[i]]; }
        i := i + 1;
      }
      assert state[..i] == state;
    }
  }

  function Current(state: seq<Member>, now: int): seq<Member> {
    if state == [] then []
    else
      var m := state[|state| - 1];
      Current(state[..|state| - 1], now) + (if now <= 0 || m.expires == 0 || m.expires > now then [m] else [])
  }

  lemma VerifiesPrefix(c: Crypto, ops: seq<Op>, n: nat)
    requires n <= |ops|
    ensures Verifies(c, ops) ==> Verifies(c, ops[..n])
  {
    hide IsGenesis, Follows;
    if Verifies(c, ops) {
      forall i | 0 <= i < n ensures OpOk(c, ops[..n], i) {
        assert OpOk(c, ops, i);
        assert ops[..n][..i] == ops[..i];
      }
    }
  }

  lemma VerifiesLast(c: Crypto, ops: seq<Op>, op: Op)
    requires Verifies(c, ops)
    ensures Verifies(c, ops + [op]) <==> (if ops == [] then IsGenesis(c, op) else Follows(c, ops, op))
  {
    hide IsGenesis, Follows;
    var all := ops + [op];
    assert all[..|ops|] == ops;
    forall i | 0 <= i < |ops| ensures OpOk(c, all, i) {
      assert OpOk(c, ops, i);
      assert all[..i] == ops[..i];
    }
    if Verifies(c, all) { assert OpOk(c, all, |ops|); }
  }

  lemma StateStep(ops: seq<Op>, op: Op)
    ensures StateOf(ops + [op]) == match ParseOp(op) case None => StateOf(ops) case Some(p) => Effect(StateOf(ops), p)
    ensures StateOf([]) == []
  {
    assert (ops + [op])[..|ops|] == ops;
  }

  lemma EmptyState(key: Key)
    ensures Find([], key) == 0
  {
  }
}
