/** What a verified membership log guarantees. */
module MembershipTheorems {
  import opened Bytes
  import opened Wire
  import opened Wrappers
  import opened Memberships

  // ---------- the encoding ----------

  /** The body's bytes with something behind them, field by field. */
  lemma FlatBody(b: Body, rest: seq<byte>)
    ensures BodyBytes(b) + rest == LE(b.kind, 1) + (LE(b.number, 4) + (b.prev + (Str(b.subject) + (Str(b.name) + (Str(b.cert)
      + (LE(FromSigned(b.expires, 8), 8) + (Str(b.signer) + rest)))))))
  {
    hide LE, Str, FromSigned;
    var c7 := LE(FromSigned(b.expires, 8), 8) + Str(b.signer);
    var c6 := Str(b.cert) + c7;
    var c5 := Str(b.name) + c6;
    var c4 := Str(b.subject) + c5;
    var c3 := b.prev + c4;
    var c2 := LE(b.number, 4) + c3;
    Associative(LE(FromSigned(b.expires, 8), 8), Str(b.signer), rest);
    Associative(Str(b.cert), c7, rest);
    Associative(Str(b.name), c6, rest);
    Associative(Str(b.subject), c5, rest);
    Associative(b.prev, c4, rest);
    Associative(LE(b.number, 4), c3, rest);
    Associative(LE(b.kind, 1), c2, rest);
  }

  lemma StringsRead(b: Body, tail: seq<byte>)
    requires FitsBody(b)
    ensures GetStr(Input(Str(b.subject) + (Str(b.name) + (Str(b.cert) + tail)), true))
         == (Input(Str(b.name) + (Str(b.cert) + tail), true), b.subject)
    ensures GetStr(Input(Str(b.name) + (Str(b.cert) + tail), true)) == (Input(Str(b.cert) + tail, true), b.name)
    ensures GetStr(Input(Str(b.cert) + tail, true)) == (Input(tail, true), b.cert)
  {
    RangeValues();
    hide Str, GetStr, Range;
    GetStrOfStr(b.subject, Str(b.name) + (Str(b.cert) + tail));
    GetStrOfStr(b.name, Str(b.cert) + tail);
    GetStrOfStr(b.cert, tail);
  }

  /** What ParseOp makes of an operation whose number fields and tail read as they should. */
  lemma ParseStep(op: Op, b: Body, tail: seq<byte>, last: seq<byte>, n: nat, sig: seq<byte>)
    requires FitsBody(b)
    requires var r := b.prev + (Str(b.subject) + (Str(b.name) + (Str(b.cert) + tail)));
             Get(Input(op, true), 1) == (Input(LE(b.number, 4) + r, true), b.kind)
             && Get(Input(LE(b.number, 4) + r, true), 4) == (Input(r, true), b.number)
    requires var (i, e) := Get(Input(tail, true), 8);
             i.ok && ToSigned(e, 8) == b.expires && GetStr(i) == (Input(last, true), b.signer)
    requires var (i, x) := GetStr(Input(last, true)); i.ok && x == sig
    requires |op| - |last| == n
    ensures ParseOp(op) == Some(Parsed(b, n, sig))
  {
    hide Get, GetStr, ToSigned, Str, LE;
    StringsRead(b, tail);
    Skip(b.prev, Str(b.subject) + (Str(b.name) + (Str(b.cert) + tail)));
  }

  lemma Skip<T>(a: seq<T>, b: seq<T>)
    ensures (a + b)[..|a|] == a && (a + b)[|a|..] == b
  {
  }

  lemma TailRead(b: Body, sig: seq<byte>, rest: seq<byte>)
    requires FitsBody(b) && |sig| < 0x1_0000_0000
    ensures var (last, e) := (Str(sig) + rest, FromSigned(b.expires, 8));
            && Get(Input(LE(e, 8) + (Str(b.signer) + last), true), 8) == (Input(Str(b.signer) + last, true), e)
            && GetStr(Input(Str(b.signer) + last, true)) == (Input(last, true), b.signer)
            && GetStr(Input(last, true)) == (Input(rest, true), sig)
            && ToSigned(e, 8) == b.expires
  {
    RangeValues();
    SignedRoundTrip(b.expires, 8);
    hide Str, GetStr, Range, LE, Get, ToSigned, FromSigned;
    var last := Str(sig) + rest;
    GetOfSmall(FromSigned(b.expires, 8), 8, Str(b.signer) + last);
    GetStrOfStr(b.signer, last);
    GetStrOfStr(sig, rest);
  }

  lemma NumbersRead(kind: nat, number: nat, r: seq<byte>)
    requires kind < 0x100 && number < 0x1_0000_0000
    ensures Get(Input(LE(kind, 1) + (LE(number, 4) + r), true), 1) == (Input(LE(number, 4) + r, true), kind)
    ensures Get(Input(LE(number, 4) + r, true), 4) == (Input(r, true), number)
  {
    RangeValues();
    hide Range, LE, Get;
    GetOfSmall(kind, 1, LE(number, 4) + r);
    GetOfSmall(number, 4, r);
  }

  /** An operation is read back as it was built, whatever follows it; its signed part is the body's bytes. */
  lemma ParseOfBuild(b: Body, sig: seq<byte>, rest: seq<byte>)
    requires FitsBody(b) && |sig| < 0x1_0000_0000
    ensures ParseOp(OpBytes(b, sig) + rest) == Some(Parsed(b, |BodyBytes(b)|, sig))
    ensures (OpBytes(b, sig) + rest)[..|BodyBytes(b)|] == BodyBytes(b)
  {
    var last := Str(sig) + rest;
    FlatBody(b, last);
    Associative(BodyBytes(b), Str(sig), rest);
    TailRead(b, sig, rest);
    hide BodyBytes, LE, Str, FromSigned, Range, Get, GetStr, ToSigned, FitsBody;
    var op := OpBytes(b, sig) + rest;
    assert op == BodyBytes(b) + last;
    var tail := LE(FromSigned(b.expires, 8), 8) + (Str(b.signer) + last);
    var r := b.prev + (Str(b.subject) + (Str(b.name) + (Str(b.cert) + tail)));
    assert b.kind < 0x100 && b.number < 0x1_0000_0000 by { KindFits(b); }
    NumbersRead(b.kind, b.number, r);
    ParseStep(op, b, tail, last, |BodyBytes(b)|, sig);
  }

  lemma KindFits(b: Body)
    requires FitsBody(b)
    ensures b.kind < 0x100 && b.number < 0x1_0000_0000
  {
  }

  // ---------- members ----------

  predicate DistinctKeys(state: seq<Member>) {
    forall i, j | 0 <= i < j < |state| :: state[i].key != state[j].key
  }

  /** Find gives the place of any member with the key, there being one only. */
  lemma FindUnique(state: seq<Member>, i: nat)
    requires DistinctKeys(state) && i < |state|
    ensures Find(state, state[i].key) == i
  {
    var j := Find(state, state[i].key);
    assert j <= i && state[j].key == state[i].key;
  }

  lemma {:induction false} RemovedKeys(state: seq<Member>, key: Key)
    requires DistinctKeys(state)
    ensures DistinctKeys(Removed(state, key))
    ensures forall m :: m in Removed(state, key) <==> m in state && m.key != key
  {
    if state != [] {
      var (front, last) := (state[..|state| - 1], state[|state| - 1]);
      assert state == front + [last];
      assert DistinctKeys(front);
      RemovedKeys(front, key);
      var r := Removed(front, key);
      forall i | 0 <= i < |r| ensures r[i].key != last.key {
        assert r[i] in r;
        assert r[i] in front;
      }
    }
  }

  lemma EffectKeepsDistinct(state: seq<Member>, p: Parsed)
    requires DistinctKeys(state)
    ensures DistinctKeys(Effect(state, p))
  {
    if p.body.kind == REMOVE {
      RemovedKeys(state, p.body.subject);
    } else {
      var i := Find(state, p.body.subject);
      if i == |state| {
        forall j | 0 <= j < |state| ensures state[j].key != p.body.subject {}
      }
    }
  }

  /** No device is listed twice. */
  lemma {:induction false} KeysAreDistinct(ops: seq<Op>)
    ensures DistinctKeys(StateOf(ops))
  {
    hide ParseOp, Effect;
    if ops != [] {
      KeysAreDistinct(ops[..|ops| - 1]);
      var parsed := ParseOp(ops[|ops| - 1]);
      if parsed.Some? { EffectKeepsDistinct(StateOf(ops[..|ops| - 1]), parsed.value); }
    }
  }

  // ---------- the last word on a device ----------

  /** Operation i is about the device. */
  predicate About(ops: seq<Op>, i: nat, key: Key)
    requires i < |ops|
  {
    ParseOp(ops[i]).Some? && ParseOp(ops[i]).value.body.subject == key
  }

  predicate LastWord(ops: seq<Op>, i: nat, key: Key)
    requires i < |ops|
  {
    About(ops, i, key) && forall j | i < j < |ops| :: !About(ops, j, key)
  }

  /** The member with this key, if there is one. */
  function MemberOf(state: seq<Member>, key: Key): Option<Member> {
    if IsMember(state, key) then Some(state[Find(state, key)]) else None
  }

  lemma EffectOnMember(state: seq<Member>, p: Parsed, key: Key)
    requires DistinctKeys(state)
    ensures MemberOf(Effect(state, p), key)
         == if key != p.body.subject then MemberOf(state, key)
            else if p.body.kind == REMOVE then None else Some(Named(p))
  {
    var r := Effect(state, p);
    EffectKeepsDistinct(state, p);
    if p.body.kind == REMOVE {
      RemovedKeys(state, p.body.subject);
      if IsMember(r, key) { assert r[Find(r, key)] in r; }
      if IsMember(state, key) && key != p.body.subject {
        var m := state[Find(state, key)];
        assert m in state;
        assert m in r;
        var i :| 0 <= i < |r| && r[i] == m;
        FindUnique(r, i);
      }
      if IsMember(r, key) {
        var m := r[Find(r, key)];
        var i :| 0 <= i < |state| && state[i] == m;
        FindUnique(state, i);
      }
    } else {
      var i := Find(state, p.body.subject);
      FindUnique(r, i);
      if key != p.body.subject {
        var k := Find(state, key);
        if k < |state| { FindUnique(r, k); }
        if Find(r, key) < |r| {
          assert Find(r, key) < |state|;
          FindUnique(state, Find(r, key));
        }
      }
    }
  }

  /** A device is a member exactly when the last operation about it is not a removal, and then as that operation named it. */
  lemma {:induction false} LastWordDecides(ops: seq<Op>, i: nat, key: Key)
    requires i < |ops| && LastWord(ops, i, key)
    ensures var p := ParseOp(ops[i]).value;
            MemberOf(StateOf(ops), key) == if p.body.kind == REMOVE then None else Some(Named(p))
    decreases |ops|
  {
    hide ParseOp, MemberOf, Effect;
    var front := ops[..|ops| - 1];
    KeysAreDistinct(front);
    var parsed := ParseOp(ops[|ops| - 1]);
    if parsed.Some? { EffectOnMember(StateOf(front), parsed.value, key); }
    if i < |ops| - 1 {
      assert !About(ops, |ops| - 1, key);
      assert LastWord(front, i, key) by {
        assert forall j | 0 <= j < |front| :: About(front, j, key) == About(ops, j, key);
      }
      LastWordDecides(front, i, key);
    }
  }

  /** Nobody is a member about whom nothing was said. */
  lemma {:induction false} NoWordNoMember(ops: seq<Op>, key: Key)
    requires forall j | 0 <= j < |ops| :: !About(ops, j, key)
    ensures !IsMember(StateOf(ops), key)
  {
    hide ParseOp, Effect;
    if ops != [] {
      var front := ops[..|ops| - 1];
      KeysAreDistinct(front);
      assert forall j | 0 <= j < |front| :: About(front, j, key) == About(ops, j, key);
      NoWordNoMember(front, key);
      var parsed := ParseOp(ops[|ops| - 1]);
      assert !About(ops, |ops| - 1, key);
      if parsed.Some? { EffectOnMember(StateOf(front), parsed.value, key); }
    }
  }

  // ---------- where membership comes from ----------

  /** Operation i brings the device in. */
  predicate Admits(ops: seq<Op>, i: nat, key: Key)
    requires i < |ops|
  {
    About(ops, i, key) && ParseOp(ops[i]).value.body.kind != REMOVE
  }

  /**
    A path of operations from the founding one: each brings in the device that signs the next,
    that device was a member when it signed, and the last one brings in the key.
  */
  predicate Path(ops: seq<Op>, path: seq<nat>, key: Key)
    decreases |path|
  {
    && path != []
    && var i := path[|path| - 1];
       i < |ops| && Admits(ops, i, key)
       && if |path| == 1 then i == 0
          else
            var signer := ParseOp(ops[i]).value.body.signer;
            path[|path| - 2] < i && IsMember(StateOf(ops[..i]), signer) && Path(ops, path[..|path| - 1], signer)
  }

  lemma {:induction false} PathInLonger(ops: seq<Op>, path: seq<nat>, key: Key, op: Op)
    requires Path(ops, path, key)
    ensures Path(ops + [op], path, key)
    decreases |path|
  {
    hide ParseOp, StateOf;
    var i := path[|path| - 1];
    assert (ops + [op])[..i] == ops[..i];
    if |path| > 1 {
      PathInLonger(ops, path[..|path| - 1], ParseOp(ops[i]).value.body.signer, op);
    }
  }

  lemma OnePath(ops: seq<Op>, key: Key)
    requires ops != [] && Admits(ops, 0, key)
    ensures Path(ops, [0], key)
  {
    hide ParseOp, StateOf;
  }

  lemma LongerPath(ops: seq<Op>, path: seq<nat>, i: nat, key: Key)
    requires i < |ops| && Admits(ops, i, key) && path != [] && path[|path| - 1] < i
    requires var signer := ParseOp(ops[i]).value.body.signer; IsMember(StateOf(ops[..i]), signer) && Path(ops, path, signer)
    ensures Path(ops, path + [i], key)
  {
    hide ParseOp, StateOf;
    assert (path + [i])[..|path|] == path;
  }

  /** A valid last operation parses, and after the first its signer was a member before it. */
  lemma LastOpOk(c: Crypto, ops: seq<Op>, n: nat)
    requires Verifies(c, ops) && n + 1 == |ops|
    ensures ParseOp(ops[n]).Some? && (n > 0 ==> IsMember(StateOf(ops[..n]), ParseOp(ops[n]).value.body.signer))
    ensures Verifies(c, ops[..n])
    ensures StateOf(ops) == Effect(StateOf(ops[..n]), ParseOp(ops[n]).value)
  {
    hide ParseOp, Effect, Signed;
    assert OpOk(c, ops, n);
    VerifiesPrefix(c, ops, n);
  }

  /** Every member traces back to the founder through devices that were members when they signed. */
  lemma {:induction false} MembersTraceToFounder(c: Crypto, ops: seq<Op>, key: Key) returns (path: seq<nat>)
    requires Verifies(c, ops) && IsMember(StateOf(ops), key)
    ensures Path(ops, path, key)
    decreases |ops|
  {
    StateStep([], []);
    hide ParseOp, Effect, StateOf, Verifies, Path;
    var n := |ops| - 1;
    var front := ops[..n];
    assert ops == front + [ops[n]];
    LastOpOk(c, ops, n);
    KeysAreDistinct(front);
    var p := ParseOp(ops[n]).value;
    EffectOnMember(StateOf(front), p, key);
    if p.body.subject != key {
      path := MembersTraceToFounder(c, front, key);
      PathInLonger(front, path, key, ops[n]);
    } else if n == 0 {
      path := [0];
      OnePath(ops, key);
    } else {
      var before := MembersTraceToFounder(c, front, p.body.signer);
      PathInLonger(front, before, p.body.signer, ops[n]);
      PathBound(front, before, p.body.signer);
      path := before + [n];
      LongerPath(ops, before, n, key);
    }
  }

  lemma PathBound(ops: seq<Op>, path: seq<nat>, key: Key)
    requires Path(ops, path, key)
    ensures path != [] && path[|path| - 1] < |ops|
  {
  }

  // ---------- one hash chain, one log ----------

  ghost predicate Injective(hash: seq<byte> -> seq<byte>) {
    forall a, b :: hash(a) == hash(b) ==> a == b
  }

  lemma HashesDiffer(hash: seq<byte> -> seq<byte>, a: seq<byte>, b: seq<byte>)
    requires Injective(hash) && hash(a) == hash(b)
    ensures a == b
  {
  }

  /** The last operation determines a verified log of a given length. */
  lemma {:induction false} LastOpDetermines(c: Crypto, a: seq<Op>, b: seq<Op>)
    requires Injective(c.hash) && Verifies(c, a) && Verifies(c, b)
    requires |a| == |b| && a != [] && a[|a| - 1] == b[|b| - 1]
    ensures a == b
    decreases |a|
  {
    hide Injective, ParseOp, StateOf, Signed;
    var n := |a| - 1;
    if n > 0 {
      assert OpOk(c, a, n) && OpOk(c, b, n);
      HashesDiffer(c.hash, a[n - 1], b[n - 1]);
      VerifiesPrefix(c, a, n);
      VerifiesPrefix(c, b, n);
      LastOpDetermines(c, a[..n], b[..n]);
      assert a == a[..n] + [a[n]] && b == b[..n] + [b[n]];
    }
  }

  /** Of two verified logs the longer continues the shorter exactly when it has the shorter's last operation in its place. */
  lemma ContinuesIff(c: Crypto, a: seq<Op>, b: seq<Op>)
    requires Injective(c.hash) && Verifies(c, a) && Verifies(c, b) && 0 < |a| <= |b|
    ensures a <= b <==> b[|a| - 1] == a[|a| - 1]
  {
    hide Injective, Verifies;
    if b[|a| - 1] == a[|a| - 1] {
      VerifiesPrefix(c, b, |a|);
      LastOpDetermines(c, a, b[..|a|]);
    }
  }
}
