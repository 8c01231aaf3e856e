/** What the identity migration accepts: the validators of identity-migration.js. */
module Migration {
  import opened Options
  import opened Lists
  import opened Json
  import opened JsonReading
  import opened Chain
  import opened Records
  import opened Sorting
  import Sync

  // ---------------------------------------------------------------- the store

  datatype PrivateKey = PrivateKey(secret: Text, extractable: bool)

  datatype Owner = Owner(identity: Identity, privateKey: PrivateKey, migrations: seq<Action>)

  /** An inclusion of the unsigned chain. */
  datatype Legacy = Legacy(
    chainId: Text, sequence: nat, previousHash: Text, actionRoot: Text, includedAt: Text, eventHash: Text)

  datatype Stored = LegacyItem(legacy: Legacy) | SignedItem(signed: Signed)

  /** An outbox record: a bare action of the old format, or an action with its inclusion. */
  datatype Outgoing = Bare(action: Action) | Entry(action: Action, inclusion: Signed)

  /** The stores, each listed in whatever order the database returns. */
  datatype Store = Store(owner: Option<Owner>, actions: seq<Action>, inclusions: seq<Stored>, outbox: seq<Outgoing>)

  function LegacyBody(x: Legacy): Json {
    Obj([
      Member(PROTOCOL, Str(PERSONAL_CHAIN)), Member(CHAIN_ID, Str(x.chainId)),
      Member(SEQUENCE, Num(Numerals(x.sequence))), Member(PREVIOUS_HASH, Str(x.previousHash)),
      Member(ACTION_ROOT, Str(x.actionRoot)), Member(INCLUDED_AT, Str(x.includedAt))])
  }

  // ---------------------------------------------------------------- identity

  /** What String.prototype.trim removes. */
  predicate IsSpace(u: Unit) {
    || 0x09 <= u <= 0x0D || u == 0x20 || u == 0xA0 || u == 0x1680 || 0x2000 <= u <= 0x200A
    || u == 0x2028 || u == 0x2029 || u == 0x202F || u == 0x205F || u == 0x3000 || u == 0xFEFF
  }

  predicate HandleEdge(u: Unit) {
    0x61 <= u <= 0x7A || 0x30 <= u <= 0x39
  }

  predicate IsHandle(t: Text) {
    && 1 <= |t| <= 48 && HandleEdge(t[0]) && HandleEdge(t[|t| - 1])
    && forall i :: 0 <= i < |t| ==> HandleEdge(t[i]) || t[i] == 0x2E || t[i] == 0x5F || t[i] == 0x2D
  }

  /** The stored card is valid, and the stored key is the one that it names. */
  predicate ValidIdentity(env: Environment, owner: Owner) {
    var identity := owner.identity;
    && (exists i :: 0 <= i < |identity.identityId| && !IsSpace(identity.identityId[i]))
    && IsHandle(identity.handle) && IsHash(identity.keyId) && env.isTimestamp(identity.createdAt)
    && Carries(identity.publicKey, Ascii("kty"), Str(Ascii("EC")))
    && Carries(identity.publicKey, Ascii("crv"), Str(Ascii("P-256")))
    && identity.keyId == env.crypto.hash(Canonical(identity.publicKey))
    && env.pairs(owner.privateKey.secret, identity.publicKey)
  }

  lemma ValidOwns(env: Environment, owner: Owner)
    requires ValidIdentity(env, owner)
    ensures Owns(env, owner.identity)
  {}

  // ---------------------------------------------------------------- actions

  /** Any JSON value but null and lists. */
  predicate ValidPayload(p: Payload) {
    p.Migration? || (!p.value.Null? && !p.value.Arr? && WellFormed(p.value))
  }

  /** The schema of an action that the owner controls. */
  predicate ActionSchema(env: Environment, a: Action, identity: Identity) {
    && IsActionId(a.id) && Ascii("@greenways/") <= a.kind
    && a.identityId == identity.identityId && a.handle == identity.handle && a.keyId == identity.keyId
    && (a.workflowRoot.Some? ==> IsHash(a.workflowRoot.value))
    && (a.subject.Some? ==> a.subject.value != [])
    && ValidPayload(a.payload) && env.isTimestamp(a.createdAt) && IsHash(a.root) && IsSignature(a.signature)
  }

  predicate OwnAction(env: Environment, a: Action, identity: Identity) {
    ActionSchema(env, a, identity) && VerifyAction(env, a, identity.publicKey)
  }

  predicate DistinctActions(actions: seq<Action>) {
    forall i, j :: 0 <= i < j < |actions| ==> actions[i].id != actions[j].id && actions[i].root != actions[j].root
  }

  predicate ValidActions(env: Environment, actions: seq<Action>, identity: Identity) {
    DistinctActions(actions) && forall i :: 0 <= i < |actions| ==> OwnAction(env, actions[i], identity)
  }

  function Ids(actions: seq<Action>): set<Text> {
    set i | 0 <= i < |actions| :: actions[i].id
  }

  function Roots(actions: seq<Action>): set<Text> {
    set i | 0 <= i < |actions| :: actions[i].root
  }

  /** The stored actions by root. */
  function IndexOf(actions: seq<Action>): map<Text, Action> {
    if actions == [] then map[]
    else IndexOf(actions[..|actions| - 1])[actions[|actions| - 1].root := actions[|actions| - 1]]
  }

  lemma NamesNext(done: seq<Action>, a: Action)
    ensures Ids(done + [a]) == Ids(done) + {a.id} && Roots(done + [a]) == Roots(done) + {a.root}
  {
    var more := done + [a];
    assert more[|done|] == a;
    forall k | 0 <= k < |done| ensures done[k].id in Ids(more) && done[k].root in Roots(more) {
      assert more[k] == done[k];
    }
    forall k | 0 <= k < |more| ensures more[k].id in Ids(done) + {a.id} && more[k].root in Roots(done) + {a.root} {
      if k < |done| { assert more[k] == done[k]; }
    }
  }

  lemma DistinctNext(done: seq<Action>, a: Action)
    requires DistinctActions(done)
    ensures DistinctActions(done + [a]) <==> a.id !in Ids(done) && a.root !in Roots(done)
  {
    var more := done + [a];
    assert more[|done|] == a;
    forall k | 0 <= k < |done| ensures more[k] == done[k] && done[k].id in Ids(done) && done[k].root in Roots(done) {}
  }

  /** One more action is valid when it is the owner's and neither its id nor its root is taken. */
  lemma ActionNext(env: Environment, done: seq<Action>, a: Action, identity: Identity)
    requires ValidActions(env, done, identity)
    ensures ValidActions(env, done + [a], identity) <==>
      OwnAction(env, a, identity) && a.id !in Ids(done) && a.root !in Roots(done)
  {
    DistinctNext(done, a);
    var more := done + [a];
    assert more[|done|] == a && forall k :: 0 <= k < |done| ==> more[k] == done[k];
  }

  lemma IndexNext(done: seq<Action>, a: Action)
    ensures IndexOf(done + [a]) == IndexOf(done)[a.root := a]
  {
    assert (done + [a])[..|done|] == done;
  }

  lemma {:induction false} IndexKeys(actions: seq<Action>)
    ensures IndexOf(actions).Keys == Roots(actions)
    ensures forall r :: r in IndexOf(actions) ==> IndexOf(actions)[r] in actions && IndexOf(actions)[r].root == r
  {
    if actions != [] {
      var done, a := actions[..|actions| - 1], actions[|actions| - 1];
      assert actions == done + [a];
      IndexKeys(done);
      NamesNext(done, a);
    }
  }

  /** With distinct roots the index finds every action, and has one entry for each. */
  lemma {:induction false} IndexFinds(actions: seq<Action>)
    requires DistinctActions(actions)
    ensures |Roots(actions)| == |actions|
    ensures forall i :: 0 <= i < |actions| ==>
      actions[i].root in IndexOf(actions) && IndexOf(actions)[actions[i].root] == actions[i]
  {
    if actions != [] {
      var done, a := actions[..|actions| - 1], actions[|actions| - 1];
      assert actions == done + [a];
      IndexFinds(done);
      NamesNext(done, a);
      assert a.root !in Roots(done);
    }
  }

  lemma PrefixValid(env: Environment, actions: seq<Action>, identity: Identity, i: nat)
    requires i <= |actions|
    ensures ValidActions(env, actions, identity) ==> ValidActions(env, actions[..i], identity)
  {}

  method ValidatedActions(env: Environment, actions: seq<Action>,
          identity: Identity) returns (byRoot: Option<map<Text, Action>>)
    ensures byRoot == if ValidActions(env, actions, identity) then Some(IndexOf(actions)) else None
  {
    var index: map<Text, Action> := map[];
    var ids: set<Text> := {};
    for i := 0 to |actions|
      invariant ids == Ids(actions[..i]) && index == IndexOf(actions[..i])
      invariant ValidActions(env, actions[..i], identity)
    {
      var a := actions[i];
      OneMore(actions, i);
      ActionNext(env, actions[..i], a, identity);
      NamesNext(actions[..i], a);
      IndexKeys(actions[..i]);
      IndexNext(actions[..i], a);
      if !ActionSchema(env, a, identity) || a.id in ids || a.root in index
          || !VerifyAction(env, a, identity.publicKey) {
        PrefixValid(env, actions, identity, i + 1);
        return None;
      }
      ids := ids + {a.id};
      index := index[a.root := a];
    }
    assert actions[..|actions|] == actions;
    return Some(index);
  }

  // ---------------------------------------------------------------- the unsigned chain

  const legacyPlace: Legacy -> int := (x: Legacy) => x.sequence
  const signedPlace: Signed -> int := (x: Signed) => x.sequence

  predicate SafeSequence(n: nat) {
    1 <= n <= Sync.MAX_SAFE_INTEGER
  }

  predicate LegacyLink(env: Environment, identity: Identity, chain: seq<Legacy>, i: nat)
    requires i < |chain|
  {
    var x := chain[i];
    && x.chainId == identity.identityId && SafeSequence(x.sequence) && x.sequence == i + 1
    && IsHash(x.previousHash) && IsHash(x.actionRoot) && IsHash(x.eventHash) && env.isTimestamp(x.includedAt)
    && x.previousHash == (if i == 0 then ZeroHash() else chain[i - 1].eventHash)
    && x.eventHash == env.crypto.hash(Canonical(LegacyBody(x)))
  }

  /** The list names every root of the set, and none twice. */
  ghost predicate NamesOnce(list: seq<Text>, roots: set<Text>) {
    && Distinct(list) && |list| == |roots| && forall i :: 0 <= i < |list| ==> list[i] in roots
  }

  function LegacyRoots(chain: seq<Legacy>): seq<Text> {
    seq(|chain|, i requires 0 <= i < |chain| => chain[i].actionRoot)
  }

  function SignedRoots(chain: seq<Signed>): seq<Text> {
    seq(|chain|, i requires 0 <= i < |chain| => chain[i].actionRoot)
  }

  /** The unsigned chain links from the zero hash, and names every stored action once. */
  ghost predicate LegacyChain(env: Environment, identity: Identity, chain: seq<Legacy>, roots: set<Text>) {
    (forall i :: 0 <= i < |chain| ==> LegacyLink(env, identity, chain, i)) && NamesOnce(LegacyRoots(chain), roots)
  }

  method LegacyLinks(env: Environment, identity: Identity, chain: seq<Legacy>) returns (ok: bool)
    ensures ok <==> forall i :: 0 <= i < |chain| ==> LegacyLink(env, identity, chain, i)
  {
    for i := 0 to |chain|
      invariant forall k :: 0 <= k < i ==> LegacyLink(env, identity, chain, k)
    {
      if !LegacyLink(env, identity, chain, i) {
        return false;
      }
    }
    return true;
  }

  method ValidateLegacyInclusions(env: Environment, identity: Identity, values: seq<Legacy>, byRoot: map<Text, Action>)
    returns (chain: Option<seq<Legacy>>)
    ensures chain.Some? <==> LegacyChain(env, identity, SortBy(values, legacyPlace), byRoot.Keys)
    ensures chain.Some? ==> chain.value == SortBy(values, legacyPlace)
  {
    var inclusions := SortBy(values, legacyPlace);
    var linked := LegacyLinks(env, identity, inclusions);
    if !linked {
      return None;
    }
    var roots := LegacyRoots(inclusions);
    var known := (i: int) => 0 <= i < |roots| && roots[i] in byRoot;
    var named := EachOnce(roots, known);
    assert forall i :: 0 <= i < |roots| ==> (known(i) <==> roots[i] in byRoot);
    return if named && |roots| == |byRoot.Keys| then Some(inclusions) else None;
  }

  // ---------------------------------------------------------------- the signed chain

  predicate SignedSchema(env: Environment, x: Signed, identity: Identity) {
    && x.chainId == identity.identityId && x.keyId == identity.keyId && SafeSequence(x.sequence)
    && IsHash(x.previousHash) && IsHash(x.actionRoot) && IsHash(x.eventHash) && IsSignature(x.signature)
    && env.isTimestamp(x.includedAt)
  }

  /** The owner's signed chain, naming every stored action once. */
  ghost predicate SignedChain(env: Environment, identity: Identity, chain: seq<Signed>, roots: set<Text>) {
    && (forall i :: 0 <= i < |chain| ==> SignedSchema(env, chain[i], identity))
    && OwnChain(env, identity, chain) && NamesOnce(SignedRoots(chain), roots)
  }

  method ValidateCurrentInclusions(env: Environment, identity: Identity, values: seq<Signed>, byRoot: map<Text, Action>)
    returns (chain: Option<seq<Signed>>)
    requires Owns(env, identity)
    ensures chain.Some? <==> SignedChain(env, identity, SortBy(values, signedPlace), byRoot.Keys)
    ensures chain.Some? ==> chain.value == SortBy(values, signedPlace)
  {
    var inclusions := SortBy(values, signedPlace);
    for i := 0 to |inclusions|
      invariant forall k :: 0 <= k < i ==> SignedSchema(env, inclusions[k], identity)
    {
      if !SignedSchema(env, inclusions[i], identity) {
        return None;
      }
    }
    var valid := VerifyPersonalChain(env.crypto, ToInclusions(inclusions), KeysOf(identity));
    OwnChainValid(env, identity, inclusions);
    if !valid {
      return None;
    }
    var roots := SignedRoots(inclusions);
    var known := (i: int) => 0 <= i < |roots| && roots[i] in byRoot;
    var named := EachOnce(roots, known);
    assert forall i :: 0 <= i < |roots| ==> (known(i) <==> roots[i] in byRoot);
    return if named && |roots| == |byRoot.Keys| then Some(inclusions) else None;
  }

  // ---------------------------------------------------------------- the outbox

  /** An action with its root and signature, as it is stored. */
  function ActionJson(a: Action): Json {
    Obj(ActionBody(a).members + [M("root", Str(a.root)), M("signature", Str(a.signature))])
  }

  function SignedJson(x: Signed): Json {
    Obj(SignedBody(x).members + [M("eventHash", Str(x.eventHash)), M("signature", Str(x.signature))])
  }

  predicate SameAction(a: Action, b: Action) {
    Canonical(ActionJson(a)) == Canonical(ActionJson(b))
  }

  predicate SameInclusion(x: Signed, y: Signed) {
    Canonical(SignedJson(x)) == Canonical(SignedJson(y))
  }

  function OutgoingRoots(outbox: seq<Outgoing>): seq<Text> {
    seq(|outbox|, i requires 0 <= i < |outbox| => outbox[i].action.root)
  }

  /** A pending action of the old outbox is one that is stored, and verifies. */
  predicate Pending(env: Environment, e: Outgoing, identity: Identity, byRoot: map<Text, Action>, included: set<Text>) {
    && e.Bare? && e.action.root in byRoot && e.action.root in included && SameAction(e.action, byRoot[e.action.root])
    && e.action.identityId == identity.identityId && e.action.keyId == identity.keyId
    && VerifyAction(env, e.action, identity.publicKey)
  }

  ghost predicate PendingOutbox(env: Environment, outbox: seq<Outgoing>, identity: Identity,
          byRoot: map<Text, Action>, included: set<Text>) {
    && (forall i :: 0 <= i < |outbox| ==> Pending(env, outbox[i], identity, byRoot, included))
    && Distinct(OutgoingRoots(outbox))
  }

  method LegacyPendingRoots(env: Environment, outbox: seq<Outgoing>, identity: Identity, byRoot: map<Text, Action>,
          included: set<Text>)
    returns (roots: Option<seq<Text>>)
    ensures roots ==
      if PendingOutbox(env, outbox, identity, byRoot, included) then Some(OutgoingRoots(outbox)) else None
  {
    var fits := (i: int) => 0 <= i < |outbox| && Pending(env, outbox[i], identity, byRoot, included);
    var ok := EachOnce(OutgoingRoots(outbox), fits);
    assert forall i :: 0 <= i < |outbox| ==> (fits(i) <==> Pending(env, outbox[i], identity, byRoot, included));
    return if ok then Some(OutgoingRoots(outbox)) else None;
  }

  /** The entry that synchronization sends for a signed record. */
  function SyncEntry(a: Action, x: Signed): Sync.Entry {
    Sync.Entry(
      Sync.SyncAction(a.id, a.root, a.signature),
      Sync.SyncInclusion(x.chainId, x.keyId, x.sequence, x.previousHash, x.actionRoot, x.eventHash, x.signature))
  }

  /** The inclusions by event hash; of two with the same hash, the later. */
  function ByHash(chain: seq<Signed>): map<Text, Signed> {
    if chain == [] then map[]
    else ByHash(chain[..|chain| - 1])[chain[|chain| - 1].eventHash := chain[|chain| - 1]]
  }

  /** A queued entry is a stored action with the stored inclusion that names it. */
  predicate Queued(e: Outgoing, byRoot: map<Text, Action>, byHash: map<Text, Signed>) {
    && e.Entry? && Sync.ValidEntry(SyncEntry(e.action, e.inclusion))
    && e.action.root in byRoot && e.inclusion.eventHash in byHash
    && SameAction(e.action, byRoot[e.action.root]) && SameInclusion(e.inclusion, byHash[e.inclusion.eventHash])
  }

  ghost predicate QueuedOutbox(outbox: seq<Outgoing>, byRoot: map<Text, Action>, byHash: map<Text, Signed>) {
    (forall i :: 0 <= i < |outbox| ==> Queued(outbox[i], byRoot, byHash)) && Distinct(OutgoingRoots(outbox))
  }

  method CurrentOutbox(outbox: seq<Outgoing>, byRoot: map<Text, Action>, inclusions: seq<Signed>) returns (ok: bool)
    ensures ok <==> QueuedOutbox(outbox, byRoot, ByHash(inclusions))
  {
    var byHash := ByHash(inclusions);
    var fits := (i: int) => 0 <= i < |outbox| && Queued(outbox[i], byRoot, byHash);
    ok := EachOnce(OutgoingRoots(outbox), fits);
    assert forall i :: 0 <= i < |outbox| ==> (fits(i) <==> Queued(outbox[i], byRoot, byHash));
  }

  // ---------------------------------------------------------------- the migration history

  /** A stored record of a migration, signed by the owner. */
  predicate MigrationSchema(env: Environment, a: Action, identity: Identity) {
    && ActionSchema(env, a, identity) && a.kind == MIGRATED && a.subject == Some(identity.identityId)
    && a.payload.Migration? && IsHash(a.payload.bridge.legacyHead) && IsHash(a.payload.bridge.signedHead)
    && VerifyAction(env, a, identity.publicKey)
  }

  predicate ValidHistory(env: Environment, history: seq<Action>, identity: Identity) {
    forall i :: 0 <= i < |history| ==> MigrationSchema(env, history[i], identity)
  }

  function MappedRoots(bridge: Bridge): seq<Text> {
    seq(|bridge.mappings|, i requires 0 <= i < |bridge.mappings| => bridge.mappings[i].actionRoot)
  }

  /** The i-th mapping leads to the i-th inclusion of the chain. */
  predicate MappedTo(bridge: Bridge, chain: seq<Signed>, i: nat)
    requires i < |bridge.mappings|
  {
    var m := bridge.mappings[i];
    && i < |chain| && m.sequence == i + 1 && chain[i].sequence == m.sequence && SafeSequence(m.sequence)
    && chain[i].actionRoot == m.actionRoot && chain[i].eventHash == m.signedEventHash
    && IsHash(m.actionRoot) && IsHash(m.legacyEventHash) && IsHash(m.signedEventHash)
  }

  /** The record ends where its mappings end, and what it calls pending is mapped. */
  ghost predicate Continuous(bridge: Bridge) {
    && bridge.mappings != []
    && bridge.legacyHead == bridge.mappings[|bridge.mappings| - 1].legacyEventHash
    && bridge.signedHead == bridge.mappings[|bridge.mappings| - 1].signedEventHash
    && Distinct(bridge.pending) && Elements(bridge.pending) <= Elements(MappedRoots(bridge))
  }

  /** The record's mappings follow the signed chain from its start. */
  ghost predicate Linked(bridge: Bridge, chain: seq<Signed>) {
    && (forall i :: 0 <= i < |bridge.mappings| ==> MappedTo(bridge, chain, i))
    && Distinct(MappedRoots(bridge)) && Continuous(bridge)
  }

  method ValidateLinkage(bridge: Bridge, chain: seq<Signed>) returns (ok: bool)
    ensures ok <==> Linked(bridge, chain)
  {
    var fits := (i: int) => 0 <= i < |bridge.mappings| && MappedTo(bridge, chain, i);
    var mapped := EachOnce(MappedRoots(bridge), fits);
    assert forall i :: 0 <= i < |bridge.mappings| ==> (fits(i) <==> MappedTo(bridge, chain, i));
    var mappedRoots := Elements(MappedRoots(bridge));
    DistinctCount(bridge.pending);
    var last := |bridge.mappings| - 1;
    return mapped && bridge.mappings != []
      && bridge.legacyHead == bridge.mappings[last].legacyEventHash
      && bridge.signedHead == bridge.mappings[last].signedEventHash
      && |Elements(bridge.pending)| == |bridge.pending| && Elements(bridge.pending) <= mappedRoots;
  }

  ghost predicate HistoryLinked(history: seq<Action>, chain: seq<Signed>) {
    forall i :: 0 <= i < |history| ==> history[i].payload.Migration? && Linked(history[i].payload.bridge, chain)
  }

  method ValidateMigrationHistoryLinkage(history: seq<Action>, chain: seq<Signed>) returns (ok: bool)
    requires forall i :: 0 <= i < |history| ==> history[i].payload.Migration?
    ensures ok <==> HistoryLinked(history, chain)
  {
    for i := 0 to |history|
      invariant forall k :: 0 <= k < i ==> Linked(history[k].payload.bridge, chain)
    {
      var linked := ValidateLinkage(history[i].payload.bridge, chain);
      if !linked {
        return false;
      }
    }
    return true;
  }
}
