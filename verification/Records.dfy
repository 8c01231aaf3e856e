/** Owner-signed actions and inclusions: how protocol.js builds, signs and verifies them. Values that
    pass the schema checks are records; their JSON form is what is hashed and signed. */
module Records {
  import opened Options
  import opened Json
  import opened JsonReading
  import opened Chain

  /** Cryptography, which private key belongs to which public key, and what counts as a timestamp. */
  datatype Environment = Environment(crypto: Crypto, pairs: (Text, Json) -> bool, isTimestamp: Text -> bool)

  predicate IsHash(t: Text) {
    |t| == 71 && t[..7] == Ascii("sha256:") && forall i :: 7 <= i < 71 ==> 0x30 <= t[i] <= 0x39 || 0x61 <= t[i] <= 0x66
  }

  predicate UrlSafe(u: Unit) {
    0x41 <= u <= 0x5A || 0x61 <= u <= 0x7A || 0x30 <= u <= 0x39 || u == 0x5F || u == 0x2D
  }

  predicate IsSignature(t: Text) {
    t != [] && forall i :: 0 <= i < |t| ==> UrlSafe(t[i])
  }

  predicate IsActionId(t: Text) {
    |t| == 29 && t[..7] == Ascii("action/") && forall i :: 7 <= i < 29 ==> UrlSafe(t[i])
  }

  /** A signature verifies under the public key of the key it was made with; hashes and signatures have
      the shape that the schemas ask for. */
  ghost predicate Sound(env: Environment) {
    && (forall secret, key, message, nonce ::
          env.pairs(secret, key) ==> env.crypto.verify(key, message, env.crypto.sign(secret, message, nonce)))
    && (forall t :: IsHash(env.crypto.hash(t)))
    && (forall secret, message, nonce :: IsSignature(env.crypto.sign(secret, message, nonce)))
  }

  // ---------------------------------------------------------------- actions

  datatype Identity = Identity(identityId: Text, handle: Text, keyId: Text, publicKey: Json, createdAt: Text)

  /** How one inclusion of the unsigned chain was mapped to the signed one. */
  datatype Mapping = Mapping(sequence: nat, actionRoot: Text, legacyEventHash: Text, signedEventHash: Text)

  datatype Bridge = Bridge(legacyHead: Text, signedHead: Text, mappings: seq<Mapping>, pending: seq<Text>)

  /** An action's payload: any JSON value, or the record of a migration. */
  datatype Payload = Plain(value: Json) | Migration(bridge: Bridge)

  datatype Action = Action(
    id: Text, kind: Text, identityId: Text, handle: Text, keyId: Text,
    workflowRoot: Option<Text>, subject: Option<Text>, payload: Payload, createdAt: Text,
    root: Text, signature: Text)

  const ACTION := Ascii("greenways-action/0-alpha")
  const MIGRATED := Ascii("@greenways/personal-chain-migrated")

  function M(key: string, value: Json): Member {
    Member(Ascii(key), value)
  }

  function OptionalText(t: Option<Text>): Json {
    match t case None => Null case Some(text) => Str(text)
  }

  function MappingJson(m: Mapping): Json {
    Obj([
      M("sequence", Num(Numerals(m.sequence))), M("actionRoot", Str(m.actionRoot)),
      M("legacyEventHash", Str(m.legacyEventHash)), M("signedEventHash", Str(m.signedEventHash))])
  }

  function BridgeJson(b: Bridge): Json {
    Obj([
      M("protocol", Str(Ascii("greenways-personal-chain-migration/0-alpha"))),
      M("fromProtocol", Str(Ascii("greenways-personal-chain/0-alpha-unsigned"))),
      M("toProtocol", Str(PERSONAL_CHAIN)),
      M("legacyHead", Str(b.legacyHead)), M("signedHead", Str(b.signedHead)),
      M("mappings", Arr(seq(|b.mappings|, i requires 0 <= i < |b.mappings| => MappingJson(b.mappings[i])))),
      M("previouslyPendingRoots", Arr(seq(|b.pending|, i requires 0 <= i < |b.pending| => Str(b.pending[i]))))])
  }

  function PayloadJson(p: Payload): Json {
    match p case Plain(j) => j case Migration(b) => BridgeJson(b)
  }

  /** The part of an action that is hashed and signed. */
  function ActionBody(a: Action): Json {
    Obj([
      M("protocol", Str(ACTION)), M("id", Str(a.id)), M("type", Str(a.kind)),
      M("actor", Obj([M("identityId", Str(a.identityId)), M("handle", Str(a.handle)), M("keyId", Str(a.keyId))])),
      M("workflowRoot", OptionalText(a.workflowRoot)), M("subject", OptionalText(a.subject)),
      M("payload", PayloadJson(a.payload)), M("createdAt", Str(a.createdAt))])
  }

  function SignAction(env: Environment, body: Action, secret: Text, nonce: nat): Action {
    var text := Canonical(ActionBody(body));
    body.(root := env.crypto.hash(text), signature := env.crypto.sign(secret, text, nonce))
  }

  predicate VerifyAction(env: Environment, a: Action, key: Json) {
    var text := Canonical(ActionBody(a));
    a.root == env.crypto.hash(text) && a.signature != [] && env.crypto.verify(key, text, a.signature)
  }

  lemma SignedVerifies(env: Environment, body: Action, secret: Text, nonce: nat, key: Json)
    requires Sound(env) && env.pairs(secret, key)
    ensures VerifyAction(env, SignAction(env, body, secret, nonce), key)
  {
    var a := SignAction(env, body, secret, nonce);
    assert ActionBody(a) == ActionBody(body);
  }

  // ---------------------------------------------------------------- inclusions

  /** A signed inclusion of the present format. */
  datatype Signed = Signed(
    chainId: Text, keyId: Text, sequence: nat, previousHash: Text, actionRoot: Text, includedAt: Text,
    eventHash: Text, signature: Text)

  function SignedBody(x: Signed): Json {
    Obj([
      Member(PROTOCOL, Str(PERSONAL_CHAIN)), Member(CHAIN_ID, Str(x.chainId)), Member(KEY_ID, Str(x.keyId)),
      Member(SEQUENCE, Num(Numerals(x.sequence))), Member(PREVIOUS_HASH, Str(x.previousHash)),
      Member(ACTION_ROOT, Str(x.actionRoot)), Member(INCLUDED_AT, Str(x.includedAt))])
  }

  function ToInclusion(x: Signed): Inclusion {
    Inclusion(SignedBody(x), x.eventHash, x.signature)
  }

  function ToInclusions(chain: seq<Signed>): seq<Inclusion> {
    seq(|chain|, i requires 0 <= i < |chain| => ToInclusion(chain[i]))
  }

  lemma KeysDiffer()
    ensures |PROTOCOL| == 8 && |CHAIN_ID| == 7 && |KEY_ID| == 5 && |SEQUENCE| == 8 && |PREVIOUS_HASH| == 12
    ensures |ACTION_ROOT| == 10 && |INCLUDED_AT| == 10 && PROTOCOL[0] != SEQUENCE[0] && ACTION_ROOT[0] != INCLUDED_AT[0]
  {}

  lemma SignedFields(x: Signed)
    ensures
      var body := SignedBody(x);
      && Carries(body, PROTOCOL, Str(PERSONAL_CHAIN)) && Carries(body, CHAIN_ID, Str(x.chainId))
      && Carries(body, KEY_ID, Str(x.keyId)) && Carries(body, SEQUENCE, Num(Numerals(x.sequence)))
      && Carries(body, PREVIOUS_HASH, Str(x.previousHash)) && Carries(body, ACTION_ROOT, Str(x.actionRoot))
  {
    KeysDiffer();
    var ms := SignedBody(x).members;
    assert DistinctKeys(ms);
    LookupAt(ms, 0);
    LookupAt(ms, 1);
    LookupAt(ms, 2);
    LookupAt(ms, 3);
    LookupAt(ms, 4);
    LookupAt(ms, 5);
  }

  /** One link of the owner's chain, in terms of its fields. */
  predicate OwnLink(env: Environment, identity: Identity, chain: seq<Signed>, i: nat)
    requires i < |chain|
  {
    var x := chain[i];
    var text := Canonical(SignedBody(x));
    && x.chainId == identity.identityId && x.keyId == identity.keyId
    && x.sequence == i + 1
    && x.previousHash == (if i == 0 then ZeroHash() else chain[i - 1].eventHash)
    && x.eventHash == env.crypto.hash(text)
    && x.signature != [] && env.crypto.verify(identity.publicKey, text, x.signature)
  }

  predicate OwnChain(env: Environment, identity: Identity, chain: seq<Signed>) {
    forall i :: 0 <= i < |chain| ==> OwnLink(env, identity, chain, i)
  }

  function KeysOf(identity: Identity): map<Text, Json> {
    map[identity.keyId := identity.publicKey]
  }

  predicate Owns(env: Environment, identity: Identity) {
    && identity.identityId != [] && identity.keyId != []
    && identity.keyId == env.crypto.hash(Canonical(identity.publicKey))
  }

  lemma LinkIsOwn(env: Environment, identity: Identity, chain: seq<Signed>, i: nat)
    requires Owns(env, identity) && i < |chain|
    requires forall k :: 0 <= k < |chain| ==>
      chain[k].chainId == identity.identityId && chain[k].keyId == identity.keyId
    ensures Link(env.crypto, ToInclusions(chain), i, KeysOf(identity)) <==> OwnLink(env, identity, chain, i)
  {
    SignedFields(chain[i]);
    SignedFields(chain[0]);
    if Numerals(chain[i].sequence) == Numerals(i + 1) {
      NumeralsInjective(chain[i].sequence, i + 1);
    }
  }

  /** verifyPersonalChain accepts the owner's inclusions exactly when each is a link. */
  lemma OwnChainValid(env: Environment, identity: Identity, chain: seq<Signed>)
    requires Owns(env, identity)
    requires forall k :: 0 <= k < |chain| ==>
      chain[k].chainId == identity.identityId && chain[k].keyId == identity.keyId
    ensures ValidChain(env.crypto, ToInclusions(chain), KeysOf(identity)) <==> OwnChain(env, identity, chain)
  {
    forall i | 0 <= i < |chain|
      ensures Link(env.crypto, ToInclusions(chain), i, KeysOf(identity)) <==> OwnLink(env, identity, chain, i)
    {
      LinkIsOwn(env, identity, chain, i);
    }
    assert |ToInclusions(chain)| == |chain|;
  }

  // ---------------------------------------------------------------- includeAction

  /** The inclusion's own signature verifies under the owner's key. */
  predicate Attested(env: Environment, identity: Identity, x: Signed) {
    env.crypto.verify(identity.publicKey, Canonical(SignedBody(x)), x.signature)
  }

  lemma PairedAttests(env: Environment, identity: Identity, secret: Text, previous: Option<Signed>, action: Action,
                      at: Text, nonce: nat)
    requires Sound(env) && env.pairs(secret, identity.publicKey)
    ensures Attested(env, identity, Included(env, identity, secret, previous, action, at, nonce))
  {
    var x := Included(env, identity, secret, previous, action, at, nonce);
    assert SignedBody(x) == SignedBody(x.(eventHash := [], signature := []));
  }

  /** Appends an action to the owner's chain; refused if the action is not signed, the previous
      inclusion is of another chain, or the new one does not verify under the owner's key. */
  method IncludeAction(env: Environment, identity: Identity, secret: Text, previous: Option<Signed>, action: Action,
                       at: Text, nonce: nat) returns (included: Option<Signed>)
    ensures included.Some? <==>
      && action.root != [] && action.signature != [] && Owns(env, identity)
      && Attested(env, identity, Included(env, identity, secret, previous, action, at, nonce))
      && (previous.Some? ==> previous.value.chainId == identity.identityId && previous.value.keyId == identity.keyId)
    ensures included.Some? ==> included.value == Included(env, identity, secret, previous, action, at, nonce)
  {
    if action.root == [] || action.signature == [] {
      return None;
    }
    if identity.identityId == [] || identity.keyId == [] {
      return None;
    }
    if identity.keyId != env.crypto.hash(Canonical(identity.publicKey)) {
      return None;
    }
    if previous.Some? && (previous.value.chainId != identity.identityId || previous.value.keyId != identity.keyId) {
      return None;
    }
    var sequence := match previous case None => 1 case Some(p) => p.sequence + 1;
    var previousHash := match previous case None => ZeroHash() case Some(p) => p.eventHash;
    var inclusion := Signed(identity.identityId, identity.keyId, sequence, previousHash, action.root, at, [], []);
    var text := Canonical(SignedBody(inclusion));
    var signature := env.crypto.sign(secret, text, nonce);
    assert SignedBody(inclusion) == SignedBody(Included(env, identity, secret, previous, action, at, nonce));
    if !env.crypto.verify(identity.publicKey, text, signature) {
      return None;
    }
    return Some(inclusion.(eventHash := env.crypto.hash(text), signature := signature));
  }

  function Included(env: Environment, identity: Identity, secret: Text, previous: Option<Signed>, action: Action,
                    at: Text, nonce: nat): Signed {
    var sequence := match previous case None => 1 case Some(p) => p.sequence + 1;
    var previousHash := match previous case None => ZeroHash() case Some(p) => p.eventHash;
    var inclusion := Signed(identity.identityId, identity.keyId, sequence, previousHash, action.root, at, [], []);
    var text := Canonical(SignedBody(inclusion));
    inclusion.(eventHash := env.crypto.hash(text), signature := env.crypto.sign(secret, text, nonce))
  }

  function LastOf<T>(s: seq<T>): Option<T> {
    if s == [] then None else Some(s[|s| - 1])
  }

  /** Including an action extends the owner's chain by one link that names it. */
  lemma IncludedExtends(env: Environment, identity: Identity, secret: Text, chain: seq<Signed>, action: Action,
          at: Text, nonce: nat)
    requires Sound(env) && env.pairs(secret, identity.publicKey) && OwnChain(env, identity, chain)
    ensures
      var x := Included(env, identity, secret, LastOf(chain), action, at, nonce);
      OwnChain(env, identity, chain + [x]) && x.actionRoot == action.root
  {
    var x := Included(env, identity, secret, LastOf(chain), action, at, nonce);
    var longer := chain + [x];
    assert SignedBody(x) == SignedBody(x.(eventHash := [], signature := []));
    assert chain != [] ==> OwnLink(env, identity, chain, |chain| - 1);
    forall i | 0 <= i < |longer| ensures OwnLink(env, identity, longer, i) {
      if i < |chain| {
        assert OwnLink(env, identity, chain, i);
      }
    }
  }
}
