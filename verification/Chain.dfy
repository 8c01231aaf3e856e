/** The signed personal chain of protocol.js: inclusions linked by the hash of their canonical text. */
module Chain {
  import opened Options
  import opened Json
  import opened JsonReading

  /** The cryptography that the chain rests on. Signing is randomized: a nonce stands for the coins. */
  datatype Crypto = Crypto(
    hash: Text -> Text,
    sign: (Text, Text, nat) -> Text,
    verify: (Json, Text, Text) -> bool)

  /** The code units of a string of characters from the basic plane. */
  function Ascii(s: string): (t: Text)
    ensures |t| == |s| && forall i :: 0 <= i < |s| && s[i] as int < 0x1_0000 ==> t[i] == s[i] as int
  {
    seq(|s|, i requires 0 <= i < |s| => if s[i] as int < 0x1_0000 then s[i] as int else 0xFFFD)
  }

  function ZeroHash(): Text {
    Ascii("sha256:") + seq(64, _ => 0x30)
  }

  /** A whole number as JSON.stringify prints it. */
  function Numerals(n: nat): (t: Text)
    ensures t != [] && forall i :: 0 <= i < |t| ==> 0x30 <= t[i] <= 0x39
  {
    if n < 10 then [0x30 + n] else Numerals(n / 10) + [0x30 + n % 10]
  }

  lemma {:induction false} NumeralsInjective(m: nat, n: nat)
    requires Numerals(m) == Numerals(n)
    ensures m == n
  {
    var s, t := Numerals(m), Numerals(n);
    assert s[|s| - 1] == t[|t| - 1] && s[..|s| - 1] == t[..|t| - 1];
    assert m >= 10 ==> s[..|s| - 1] == Numerals(m / 10) && Numerals(m / 10) != [];
    assert n >= 10 ==> t[..|t| - 1] == Numerals(n / 10) && Numerals(n / 10) != [];
    if m >= 10 {
      NumeralsInjective(m / 10, n / 10);
    }
  }

  // ---------------------------------------------------------------- objects

  /** The value of an object's member. */
  function Field(j: Json, key: Text): Option<Json> {
    if j.Obj? then Lookup(j.members, key) else None
  }

  function Lookup(ms: seq<Member>, key: Text): Option<Json> {
    if ms == [] then None else if ms[0].key == key then Some(ms[0].value) else Lookup(ms[1..], key)
  }

  lemma {:induction false} LookupIs(ms: seq<Member>, key: Text)
    ensures Lookup(ms, key).Some? <==> key in Keys(ms)
    ensures Lookup(ms, key).Some? ==>
      exists i :: 0 <= i < |ms| && ms[i].key == key && ms[i].value == Lookup(ms, key).value
  {
    if ms != [] {
      LookupIs(ms[1..], key);
      if ms[0].key == key {
      } else {
        assert key in Keys(ms) <==> key in Keys(ms[1..]) by {
          if key in Keys(ms) { var i :| 0 <= i < |ms| && ms[i].key == key; assert ms[1..][i - 1].key == key; }
          if key in Keys(ms[1..]) { var i :| 0 <= i < |ms[1..]| && ms[1..][i].key == key; assert ms[i + 1].key == key; }
        }
        if Lookup(ms, key).Some? {
          var i :| 0 <= i < |ms[1..]| && ms[1..][i].key == key && ms[1..][i].value == Lookup(ms, key).value;
          assert ms[i + 1].key == key && ms[i + 1].value == Lookup(ms, key).value;
        }
      }
    }
  }

  lemma {:induction false} LookupAt(ms: seq<Member>, i: nat)
    requires DistinctKeys(ms) && i < |ms|
    ensures Lookup(ms, ms[i].key) == Some(ms[i].value)
  {
    if i > 0 {
      LookupAt(ms[1..], i - 1);
    }
  }

  /** Objects that are equal up to the order of their members have equal fields. */
  lemma SameFields(v: Json, w: Json, key: Text)
    requires v.Obj? && SameJson(v, w)
    ensures Field(v, key).Some? <==> Field(w, key).Some?
    ensures Field(v, key).Some? ==> SameJson(Field(v, key).value, Field(w, key).value)
  {
    LookupIs(v.members, key);
    LookupIs(w.members, key);
  }

  // ---------------------------------------------------------------- inclusions

  /** An inclusion: its event hash and signature apart, and all its other fields in the body. */
  datatype Inclusion = Inclusion(body: Json, eventHash: Text, signature: Text)

  const PERSONAL_CHAIN := Ascii("greenways-personal-chain/0-alpha")
  const PROTOCOL := Ascii("protocol")
  const CHAIN_ID := Ascii("chainId")
  const KEY_ID := Ascii("keyId")
  const SEQUENCE := Ascii("sequence")
  const PREVIOUS_HASH := Ascii("previousHash")
  const ACTION_ROOT := Ascii("actionRoot")
  const INCLUDED_AT := Ascii("includedAt")

  /** JavaScript's notion of a value that counts as present. */
  predicate Truthy(j: Json) {
    match j
    case Null => false
    case Bool(b) => b
    case Num(n) => n != [0x30]
    case Str(s) => s != []
    case _ => true
  }

  /** Strict equality of parsed values: two objects are never the same object. */
  predicate StrictlyEqual(a: Json, b: Json) {
    !a.Arr? && !a.Obj? && a == b
  }

  predicate Carries(body: Json, key: Text, value: Json) {
    Field(body, key) == Some(value)
  }

  predicate Present(body: Json, key: Text) {
    Field(body, key).Some? && Truthy(Field(body, key).value)
  }

  predicate SameOwner(body: Json, first: Json) {
    && Present(body, CHAIN_ID) && Present(first, CHAIN_ID)
    && StrictlyEqual(Field(body, CHAIN_ID).value, Field(first, CHAIN_ID).value)
    && Present(body, KEY_ID) && Present(first, KEY_ID)
    && StrictlyEqual(Field(body, KEY_ID).value, Field(first, KEY_ID).value)
  }

  /** The inclusion is signed with a known key whose id is the hash of the key itself. */
  predicate SignedByOwner(crypto: Crypto, inclusion: Inclusion, keys: map<Text, Json>) {
    && Field(inclusion.body, KEY_ID).Some? && Field(inclusion.body, KEY_ID).value.Str?
    && var keyId := Field(inclusion.body, KEY_ID).value.text;
    && keyId in keys && keyId == crypto.hash(Canonical(keys[keyId]))
    && inclusion.signature != []
    && crypto.verify(keys[keyId], Canonical(inclusion.body), inclusion.signature)
  }

  /** What makes the inclusion at position i a link of the chain. */
  predicate Link(crypto: Crypto, chain: seq<Inclusion>, i: nat, keys: map<Text, Json>)
    requires i < |chain|
  {
    var body := chain[i].body;
    && Carries(body, PROTOCOL, Str(PERSONAL_CHAIN))
    && Present(body, CHAIN_ID) && Present(body, KEY_ID)
    && (i > 0 ==> SameOwner(body, chain[0].body))
    && Carries(body, SEQUENCE, Num(Numerals(i + 1)))
    && Carries(body, PREVIOUS_HASH, Str(if i == 0 then ZeroHash() else chain[i - 1].eventHash))
    && chain[i].eventHash == crypto.hash(Canonical(body))
    && SignedByOwner(crypto, chain[i], keys)
  }

  predicate ValidChain(crypto: Crypto, chain: seq<Inclusion>, keys: map<Text, Json>) {
    forall i :: 0 <= i < |chain| ==> Link(crypto, chain, i, keys)
  }

  /** The verifier walks the chain with the previous inclusion in hand. */
  method VerifyPersonalChain(crypto: Crypto, chain: seq<Inclusion>, keys: map<Text, Json>) returns (ok: bool)
    ensures ok <==> ValidChain(crypto, chain, keys)
  {
    var previous: Option<Inclusion> := None;
    var first: Option<Json> := None;
    for i := 0 to |chain|
      invariant i == 0 ==> previous == None && first == None
      invariant i > 0 ==> previous == Some(chain[i - 1]) && first == Some(chain[0].body)
      invariant forall k :: 0 <= k < i ==> Link(crypto, chain, k, keys)
    {
      var inclusion := chain[i];
      var body := inclusion.body;
      if !Carries(body, PROTOCOL, Str(PERSONAL_CHAIN)) || !Present(body, CHAIN_ID) || !Present(body, KEY_ID) {
        assert !Link(crypto, chain, i, keys);
        return false;
      }
      if first.None? {
        first := Some(body);
      } else if !SameOwner(body, first.value) {
        assert !Link(crypto, chain, i, keys);
        return false;
      }
      var previousHash := match previous case None => ZeroHash() case Some(p) => p.eventHash;
      if !Carries(body, SEQUENCE, Num(Numerals(i + 1))) || !Carries(body, PREVIOUS_HASH, Str(previousHash)) {
        assert !Link(crypto, chain, i, keys);
        return false;
      }
      if inclusion.eventHash != crypto.hash(Canonical(body)) || !SignedByOwner(crypto, inclusion, keys) {
        assert !Link(crypto, chain, i, keys);
        return false;
      }
      previous := Some(inclusion);
    }
    return true;
  }

  // ---------------------------------------------------------------- the head commits to the history

  predicate WellFormedBodies(chain: seq<Inclusion>) {
    forall i :: 0 <= i < |chain| ==> WellFormed(chain[i].body)
  }

  /** Two different texts from the two chains with the same hash. */
  ghost predicate Collision(crypto: Crypto, a: seq<Inclusion>, b: seq<Inclusion>) {
    exists i, j :: 0 <= i < |a| && 0 <= j < |b|
      && Canonical(a[i].body) != Canonical(b[j].body)
      && crypto.hash(Canonical(a[i].body)) == crypto.hash(Canonical(b[j].body))
  }

  ghost predicate SameBodies(a: seq<Inclusion>, b: seq<Inclusion>, n: nat)
    requires n <= |a| && n <= |b|
  {
    forall k :: 0 <= k < n ==> SameJson(a[k].body, b[k].body) && a[k].eventHash == b[k].eventHash
  }

  /** Two links of the same body stand at the same place and name the same predecessor. */
  lemma SamePlace(crypto: Crypto, a: seq<Inclusion>, b: seq<Inclusion>, aKeys: map<Text, Json>,
          bKeys: map<Text, Json>, i: nat, j: nat)
    requires i < |a| && j < |b| && Link(crypto, a, i, aKeys) && Link(crypto, b, j, bKeys)
    requires SameJson(a[i].body, b[j].body)
    ensures i == j && (i > 0 ==> a[i - 1].eventHash == b[j - 1].eventHash)
  {
    SameFields(a[i].body, b[j].body, SEQUENCE);
    NumeralsInjective(i + 1, j + 1);
    SameFields(a[i].body, b[j].body, PREVIOUS_HASH);
  }

  lemma {:induction false} SameBodiesNext(a: seq<Inclusion>, b: seq<Inclusion>, n: nat)
    requires n < |a| && n < |b| && SameBodies(a, b, n)
    requires SameJson(a[n].body, b[n].body) && a[n].eventHash == b[n].eventHash
    ensures SameBodies(a, b, n + 1)
  {}

  lemma {:induction false} SameBody(crypto: Crypto, a: seq<Inclusion>, b: seq<Inclusion>, aKeys: map<Text, Json>,
          bKeys: map<Text, Json>, i: nat, j: nat)
    requires i < |a| && j < |b| && Link(crypto, a, i, aKeys) && Link(crypto, b, j, bKeys)
    requires WellFormed(a[i].body) && WellFormed(b[j].body)
    requires a[i].eventHash == b[j].eventHash && !Collision(crypto, a, b)
    ensures SameJson(a[i].body, b[j].body)
  {
    assert Canonical(a[i].body) == Canonical(b[j].body);
    UniquelyReadable(a[i].body, b[j].body);
  }

  /** Equal event hashes without a collision: the inclusions have the same place and body, and
      so do all before them. */
  lemma {:induction false} BackFrom(crypto: Crypto, a: seq<Inclusion>, b: seq<Inclusion>, aKeys: map<Text, Json>,
          bKeys: map<Text, Json>, i: nat, j: nat)
    requires ValidChain(crypto, a, aKeys) && ValidChain(crypto, b, bKeys) && WellFormedBodies(a) && WellFormedBodies(b)
    requires i < |a| && j < |b| && a[i].eventHash == b[j].eventHash && !Collision(crypto, a, b)
    ensures i == j && SameBodies(a, b, i + 1)
    decreases i
  {
    SameBody(crypto, a, b, aKeys, bKeys, i, j);
    SamePlace(crypto, a, b, aKeys, bKeys, i, j);
    if i > 0 {
      BackFrom(crypto, a, b, aKeys, bKeys, i - 1, j - 1);
    }
    SameBodiesNext(a, b, i);
  }

  /** Two accepted chains with the same head have the same length and the same body at every place,
      or two of their texts collide under the hash. The keys need not be the same. */
  lemma HeadCommits(crypto: Crypto, a: seq<Inclusion>, b: seq<Inclusion>, aKeys: map<Text, Json>,
          bKeys: map<Text, Json>)
    requires ValidChain(crypto, a, aKeys) && ValidChain(crypto, b, bKeys) && WellFormedBodies(a) && WellFormedBodies(b)
    requires a != [] && b != [] && a[|a| - 1].eventHash == b[|b| - 1].eventHash
    ensures Collision(crypto, a, b) || (|a| == |b| && SameBodies(a, b, |a|))
  {
    if !Collision(crypto, a, b) {
      BackFrom(crypto, a, b, aKeys, bKeys, |a| - 1, |b| - 1);
    }
  }
}
