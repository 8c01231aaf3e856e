/** The migration is correct, and has nothing to do when it is run again. */
module MigrationSettles {
  import opened Options
  import opened Lists
  import opened Json
  import opened JsonReading
  import opened Chain
  import opened Records
  import opened Sorting
  import opened Migration
  import opened MigrationRun
  import Sync

  // ---------------------------------------------------------------- the rebuilt chain

  lemma {:induction false} RebuiltLinks(env: Environment, identity: Identity, secret: Text, legacy: seq<Legacy>,
          byRoot: map<Text, Action>, inputs: Inputs)
    requires Sound(env) && env.pairs(secret, identity.publicKey) && Known(legacy, byRoot) && Keyed(byRoot)
    ensures
      var chain := Rebuilt(env, identity, secret, legacy, byRoot, inputs);
      && OwnChain(env, identity, chain)
      && forall i :: 0 <= i < |chain| ==> IsSignature(chain[i].signature) && chain[i].includedAt == inputs.clock(i)
  {
    if legacy != [] {
      var n := |legacy| - 1;
      var before := Rebuilt(env, identity, secret, legacy[..n], byRoot, inputs);
      RebuiltLinks(env, identity, secret, legacy[..n], byRoot, inputs);
      RebuiltOrder(env, identity, secret, legacy[..n], byRoot, inputs);
      IncludedExtends(env, identity, secret, before, byRoot[legacy[n].actionRoot], inputs.clock(n), inputs.nonces(n));
    }
  }

  lemma ZeroIsHash()
    ensures IsHash(ZeroHash())
  {
    assert ZeroHash()[..7] == Ascii("sha256:");
  }

  /** The rebuilt chain passes the checks that a stored signed chain must pass. */
  lemma RebuiltChain(env: Environment, identity: Identity, secret: Text, legacy: seq<Legacy>,
          byRoot: map<Text, Action>, roots: set<Text>, inputs: Inputs)
    requires Sound(env) && Ready(env, inputs) && env.pairs(secret, identity.publicKey) && Known(legacy, byRoot)
    requires Keyed(byRoot)
    requires LegacyChain(env, identity, legacy, roots)
    ensures SignedChain(env, identity, Rebuilt(env, identity, secret, legacy, byRoot, inputs), roots)
  {
    var chain := Rebuilt(env, identity, secret, legacy, byRoot, inputs);
    RebuiltOrder(env, identity, secret, legacy, byRoot, inputs);
    RebuiltLinks(env, identity, secret, legacy, byRoot, inputs);
    assert SignedRoots(chain) == LegacyRoots(legacy);
    ZeroIsHash();
    forall i | 0 <= i < |chain| ensures SignedSchema(env, chain[i], identity) {
      assert LegacyLink(env, identity, legacy, i);
      assert OwnLink(env, identity, chain, i);
      assert i > 0 ==> OwnLink(env, identity, chain, i - 1);
    }
  }

  lemma InOrder(chain: seq<Signed>)
    requires forall i :: 0 <= i < |chain| ==> chain[i].sequence == i + 1
    ensures Strictly(chain, signedPlace)
  {}

  /** Storing a chain and reading it back gives the same chain. */
  lemma ReadBack(env: Environment, identity: Identity, chain: seq<Signed>)
    requires OwnChain(env, identity, chain)
    ensures AllSigned(Wrapped(chain)) && SortBy(SignedOf(Wrapped(chain)), signedPlace) == chain
  {
    assert SignedOf(Wrapped(chain)) == chain;
    forall i | 0 <= i < |chain| ensures chain[i].sequence == i + 1 {
      assert OwnLink(env, identity, chain, i);
    }
    InOrder(chain);
    SortUnique(chain, chain, signedPlace);
  }

  // ---------------------------------------------------------------- the migration record

  /** The bridge follows the rebuilt chain. */
  lemma BridgeLinked(env: Environment, identity: Identity, legacy: seq<Legacy>, chain: seq<Signed>, roots: set<Text>,
          pending: seq<Text>)
    requires Sound(env) && legacy != [] && LegacyChain(env, identity, legacy, roots)
    requires SignedChain(env, identity, chain, roots)
    requires |legacy| == |chain| && SignedRoots(chain) == LegacyRoots(legacy)
    requires Distinct(pending) && Elements(pending) <= Elements(LegacyRoots(legacy))
    ensures Linked(BridgeOf(legacy, chain, pending), chain)
  {
    var bridge := BridgeOf(legacy, chain, pending);
    assert MappedRoots(bridge) == LegacyRoots(legacy);
    forall i | 0 <= i < |chain| ensures MappedTo(bridge, chain, i) {
      assert LegacyLink(env, identity, legacy, i) && OwnLink(env, identity, chain, i)
          && SignedSchema(env, chain[i], identity);
      assert SignedRoots(chain)[i] == LegacyRoots(legacy)[i];
    }
  }

  /** The migration record passes the checks of the stored history. */
  lemma RecordSchema(env: Environment, owner: Owner, bridge: Bridge, inputs: Inputs)
    requires Sound(env) && Ready(env, inputs) && ValidIdentity(env, owner)
    requires IsHash(bridge.legacyHead) && IsHash(bridge.signedHead)
    ensures MigrationSchema(env, MigrationRecord(env, owner.identity, owner.privateKey.secret, bridge, inputs),
                            owner.identity)
  {
    var identity := owner.identity;
    var n := |bridge.mappings|;
    var body := Action(inputs.recordId, MIGRATED, identity.identityId, identity.handle, identity.keyId,
                       None, Some(identity.identityId), Payload.Migration(bridge), inputs.clock(n), [], []);
    SignedVerifies(env, body, owner.privateKey.secret, inputs.nonces(n), identity.publicKey);
    assert MIGRATED[..|Ascii("@greenways/")|] == Ascii("@greenways/");
  }

  // ---------------------------------------------------------------- the outbox

  lemma {:induction false} ByHashFinds(chain: seq<Signed>)
    requires Distinct(HashesOf(chain))
    ensures forall i :: 0 <= i < |chain| ==>
      chain[i].eventHash in ByHash(chain) && ByHash(chain)[chain[i].eventHash] == chain[i]
  {
    if chain != [] {
      var before := chain[..|chain| - 1];
      assert HashesOf(before) == HashesOf(chain)[..|chain| - 1];
      ByHashFinds(before);
      forall i | 0 <= i < |chain| - 1
        ensures chain[i] == before[i] && chain[i].eventHash != chain[|chain| - 1].eventHash
      {
        assert HashesOf(chain)[i] != HashesOf(chain)[|chain| - 1];
      }
    }
  }

  lemma EntryValid(env: Environment, identity: Identity, a: Action, x: Signed)
    requires OwnAction(env, a, identity) && SignedSchema(env, x, identity) && x.actionRoot == a.root
    requires identity.identityId != [] && identity.keyId != []
    ensures Sync.ValidEntry(SyncEntry(a, x))
  {}

  lemma EntryQueued(env: Environment, identity: Identity, actions: seq<Action>, x: Signed, byHash: map<Text, Signed>)
    requires ValidActions(env, actions, identity) && SignedSchema(env, x, identity) && x.actionRoot in IndexOf(actions)
    requires identity.identityId != [] && identity.keyId != [] && x.eventHash in byHash && byHash[x.eventHash] == x
    ensures Queued(Entry(IndexOf(actions)[x.actionRoot], x), IndexOf(actions), byHash)
  {
    IndexKeys(actions);
    var a := IndexOf(actions)[x.actionRoot];
    var k :| 0 <= k < |actions| && actions[k] == a;
    assert OwnAction(env, actions[k], identity);
    EntryValid(env, identity, a, x);
  }

  /** A queue of the chain's inclusions, each with an action of its root, passes its checks. */
  lemma QueueFits(chain: seq<Signed>, outbox: seq<Outgoing>, byRoot: map<Text, Action>, byHash: map<Text, Signed>)
    requires |outbox| == |chain| && Distinct(HashesOf(chain)) && Distinct(SignedRoots(chain))
    requires forall i :: 0 <= i < |chain| ==> Queued(outbox[i], byRoot, byHash) && outbox[i].inclusion == chain[i]
    ensures QueuedOutbox(outbox, byRoot, byHash) && Storable(chain, outbox)
  {
    forall i | 0 <= i < |chain|
      ensures OutgoingRoots(outbox)[i] == SignedRoots(chain)[i] && OutboxHashes(outbox)[i] == HashesOf(chain)[i]
      ensures chain[i].eventHash != []
    {
      assert Queued(outbox[i], byRoot, byHash) && Sync.ValidEntry(SyncEntry(outbox[i].action, outbox[i].inclusion));
    }
    assert OutgoingRoots(outbox) == SignedRoots(chain) && OutboxHashes(outbox) == HashesOf(chain);
  }

  /** Every inclusion is queued with its action, and the queue passes its checks. */
  lemma OutboxQueued(env: Environment, identity: Identity, actions: seq<Action>, chain: seq<Signed>)
    requires ValidActions(env, actions, identity) && SignedChain(env, identity, chain, Roots(actions))
    requires identity.identityId != [] && identity.keyId != [] && Distinct(HashesOf(chain))
    requires forall i :: 0 <= i < |chain| ==> chain[i].actionRoot in IndexOf(actions)
    ensures QueuedOutbox(SignedOutbox(chain, IndexOf(actions)), IndexOf(actions), ByHash(chain))
    ensures Storable(chain, SignedOutbox(chain, IndexOf(actions)))
  {
    var outbox := SignedOutbox(chain, IndexOf(actions));
    ByHashFinds(chain);
    forall i | 0 <= i < |chain| ensures Queued(outbox[i], IndexOf(actions), ByHash(chain)) {
      EntryQueued(env, identity, actions, chain[i], ByHash(chain));
    }
    QueueFits(chain, outbox, IndexOf(actions), ByHash(chain));
  }

  // ---------------------------------------------------------------- the result

  /** Two inclusions of the chain whose different texts have the same hash. */
  ghost predicate HashCollision(env: Environment, chain: seq<Signed>) {
    exists i, j :: 0 <= i < j < |chain|
      && Canonical(SignedBody(chain[i])) != Canonical(SignedBody(chain[j]))
      && env.crypto.hash(Canonical(SignedBody(chain[i]))) == env.crypto.hash(Canonical(SignedBody(chain[j])))
  }

  lemma BodyWellFormed(x: Signed)
    ensures WellFormed(SignedBody(x))
  {
    KeysDiffer();
  }

  /** Inclusions at different places have different texts. */
  lemma {:induction false} TextsDiffer(x: Signed, y: Signed)
    ensures Canonical(SignedBody(x)) == Canonical(SignedBody(y)) ==> x.sequence == y.sequence
  {
    BodyWellFormed(x);
    BodyWellFormed(y);
    UniquelyReadable(SignedBody(x), SignedBody(y));
    if SameJson(SignedBody(x), SignedBody(y)) {
      SameFields(SignedBody(x), SignedBody(y), SEQUENCE);
      SignedFields(x);
      SignedFields(y);
      NumeralsInjective(x.sequence, y.sequence);
    }
  }

  /** Links of a chain have different texts; so equal event hashes are a collision. */
  lemma DuplicateCollides(env: Environment, identity: Identity, chain: seq<Signed>)
    requires OwnChain(env, identity, chain) && !Distinct(HashesOf(chain))
    ensures HashCollision(env, chain)
  {
    var i, j :| 0 <= i < j < |chain| && HashesOf(chain)[i] == HashesOf(chain)[j];
    assert OwnLink(env, identity, chain, i) && OwnLink(env, identity, chain, j);
    TextsDiffer(chain[i], chain[j]);
  }

  lemma SubsetOf(env: Environment, outbox: seq<Outgoing>, identity: Identity, byRoot: map<Text, Action>,
          included: set<Text>)
    requires PendingOutbox(env, outbox, identity, byRoot, included)
    ensures Elements(OutgoingRoots(outbox)) <= included
  {
    forall i | 0 <= i < |outbox| ensures OutgoingRoots(outbox)[i] in included {
      assert Pending(env, outbox[i], identity, byRoot, included);
    }
  }

  /** The upgraded owner and chain are valid, and linked by the record. */
  lemma UpgradeValid(env: Environment, owner: Owner, roots: set<Text>, legacy: seq<Legacy>,
          byRoot: map<Text, Action>, pending: seq<Text>, inputs: Inputs)
    requires Sound(env) && Ready(env, inputs) && ValidIdentity(env, owner)
    requires legacy != [] && LegacyChain(env, owner.identity, legacy, roots) && Known(legacy, byRoot) && Keyed(byRoot)
    requires Distinct(pending) && Elements(pending) <= Elements(LegacyRoots(legacy))
    ensures
      var w := Upgraded(env, owner, legacy, byRoot, pending, inputs);
      && ValidOwner(env, w.owner) && SignedChain(env, owner.identity, w.chain, roots)
      && HistoryLinked(w.owner.migrations, w.chain)
      && SignedRoots(w.chain) == LegacyRoots(legacy)
  {
    var identity, secret := owner.identity, owner.privateKey.secret;
    var chain := Rebuilt(env, identity, secret, legacy, byRoot, inputs);
    RebuiltOrder(env, identity, secret, legacy, byRoot, inputs);
    RebuiltChain(env, identity, secret, legacy, byRoot, roots, inputs);
    assert SignedRoots(chain) == LegacyRoots(legacy);
    var bridge := BridgeOf(legacy, chain, pending);
    BridgeLinked(env, identity, legacy, chain, roots, pending);
    assert MappedTo(bridge, chain, |legacy| - 1);
    RecordSchema(env, owner, bridge, inputs);
  }

  /** The upgrade of an accepted store. */
  lemma UpgradeOfValid(env: Environment, s: Store, inputs: Inputs)
    requires Sound(env) && Ready(env, inputs) && Unsigned(env, s)
    ensures
      var w := UpgradeOf(env, s, inputs);
      && ValidOwner(env, w.owner) && SignedChain(env, w.owner.identity, w.chain, Roots(s.actions))
      && HistoryLinked(w.owner.migrations, w.chain)
      && SignedRoots(w.chain) == LegacyRoots(LegacyChainOf(s))
      && (forall i :: 0 <= i < |w.chain| ==> w.chain[i].actionRoot in IndexOf(s.actions))
      && w.outbox == SignedOutbox(w.chain, IndexOf(s.actions))
      && w.owner.identity == s.owner.value.identity && !w.owner.privateKey.extractable
  {
    var owner, legacy, byRoot := s.owner.value, LegacyChainOf(s), IndexOf(s.actions);
    UnsignedKnown(env, s);
    SubsetOf(env, s.outbox, owner.identity, byRoot, Elements(LegacyRoots(legacy)));
    LegacyNotEmpty(s);
    UpgradeValid(env, owner, Roots(s.actions), legacy, byRoot, OutgoingRoots(s.outbox), inputs);
    RebuiltOrder(env, owner.identity, owner.privateKey.secret, legacy, byRoot, inputs);
  }

  /** Records that fit together around a chain are current once they are stored. */
  lemma Assembled(env: Environment, owner: Owner, actions: seq<Action>, chain: seq<Signed>, outbox: seq<Outgoing>)
    requires ValidOwner(env, owner) && ValidActions(env, actions, owner.identity)
    requires Fits(env, owner, actions, chain, outbox)
    ensures
      var t := Store(Some(owner), actions, Wrapped(chain), outbox);
      Current(env, t) && ChainOf(t) == chain
  {
    ReadBack(env, owner.identity, chain);
  }

  /** From an accepted store in the old format, the migration writes a store that is settled, unless
      two of its inclusions collide under the hash; the chain keeps its length and its order. */
  lemma MigrationSettled(env: Environment, s: Store, inputs: Inputs)
    requires Sound(env) && Ready(env, inputs) && Unsigned(env, s)
    ensures
      var w := UpgradeOf(env, s, inputs);
      && SignedRoots(w.chain) == LegacyRoots(LegacyChainOf(s)) && OwnChain(env, s.owner.value.identity, w.chain)
      && (!Distinct(HashesOf(w.chain)) ==> Migrated(env, s, inputs) == Failed && HashCollision(env, w.chain))
      && (Distinct(HashesOf(w.chain)) ==>
            var t := Store(Some(w.owner), s.actions, Wrapped(w.chain), w.outbox);
            Migrated(env, s, inputs) == Replaced(t) && Settled(env, t) && ChainOf(t) == w.chain)
  {
    var w := UpgradeOf(env, s, inputs);
    UpgradeOfValid(env, s, inputs);
    NotCurrent(env, s);
    if Distinct(HashesOf(w.chain)) {
      ValidOwns(env, w.owner);
      OutboxQueued(env, w.owner.identity, s.actions, w.chain);
      Assembled(env, w.owner, s.actions, w.chain, w.outbox);
    } else {
      DuplicateCollides(env, w.owner.identity, w.chain);
    }
  }

  /** The signed record maps every old event hash to the new one at the same place, and names what was
      pending. */
  lemma RecordBridges(env: Environment, s: Store, inputs: Inputs)
    requires Sound(env) && Ready(env, inputs) && Unsigned(env, s)
    ensures
      var w, legacy := UpgradeOf(env, s, inputs), LegacyChainOf(s);
      && |w.owner.migrations| == 1 && w.owner.migrations[0].payload.Migration?
      && var bridge := w.owner.migrations[0].payload.bridge;
      && |bridge.mappings| == |legacy| == |w.chain| && bridge.pending == OutgoingRoots(s.outbox)
      && forall i :: 0 <= i < |legacy| ==>
           && bridge.mappings[i].legacyEventHash == legacy[i].eventHash
           && bridge.mappings[i].signedEventHash == w.chain[i].eventHash
           && bridge.mappings[i].actionRoot == legacy[i].actionRoot == w.chain[i].actionRoot
  {
    UnsignedKnown(env, s);
    var owner := s.owner.value;
    RebuiltOrder(env, owner.identity, owner.privateKey.secret, LegacyChainOf(s), IndexOf(s.actions), inputs);
  }

  lemma LegacyNotEmpty(s: Store)
    requires AllLegacy(s.inclusions) && s.inclusions != []
    ensures LegacyChainOf(s) != []
  {
    SortElements(LegacyOf(s.inclusions), legacyPlace);
  }

  lemma NotCurrent(env: Environment, s: Store)
    requires Unsigned(env, s)
    ensures !Settled(env, s) && !Current(env, s)
  {
    assert s.inclusions[0].LegacyItem?;
  }

  lemma StoredWellFormed(x: Signed)
    ensures WellFormed(SignedJson(x)) && SignedJson(x).members[5] == Member(ACTION_ROOT, Str(x.actionRoot))
  {
    KeysDiffer();
    BodyWellFormed(x);
    var ms := SignedJson(x).members;
    assert |ms[7].key| == 9 && |ms[8].key| == 9 && ms[7].key[0] != ms[8].key[0];
    assert forall i :: 0 <= i < 7 ==> ms[i] == SignedBody(x).members[i] && |ms[i].key| != 9;
    assert DistinctKeys(ms);
  }

  /** The stored form of an inclusion names its action. */
  lemma StoredNamesAction(x: Signed, y: Signed)
    requires SameInclusion(x, y)
    ensures x.actionRoot == y.actionRoot
  {
    StoredWellFormed(x);
    StoredWellFormed(y);
    UniquelyReadable(SignedJson(x), SignedJson(y));
    LookupAt(SignedJson(x).members, 5);
    LookupAt(SignedJson(y).members, 5);
    SameFields(SignedJson(x), SignedJson(y), ACTION_ROOT);
  }

  /** Queued entries with one event hash are of one action. */
  lemma QueuedOnce(e: Outgoing, f: Outgoing, byRoot: map<Text, Action>, byHash: map<Text, Signed>)
    requires Queued(e, byRoot, byHash) && Queued(f, byRoot, byHash)
    requires e.inclusion.eventHash == f.inclusion.eventHash
    ensures e.action.root == f.action.root
  {
    StoredNamesAction(e.inclusion, byHash[e.inclusion.eventHash]);
    StoredNamesAction(f.inclusion, byHash[f.inclusion.eventHash]);
  }

  /** A queue that passes its checks can be stored with its chain, if the chain can. */
  lemma QueueStorable(env: Environment, owner: Owner, actions: seq<Action>, chain: seq<Signed>, outbox: seq<Outgoing>)
    requires Fits(env, owner, actions, chain, outbox) && Distinct(HashesOf(chain))
    ensures Storable(chain, outbox)
  {
    var byRoot, byHash := IndexOf(actions), ByHash(chain);
    forall i | 0 <= i < |chain| ensures chain[i].eventHash != [] {
      assert SignedSchema(env, chain[i], owner.identity);
    }
    forall i | 0 <= i < |outbox| ensures outbox[i].Entry? {
      assert Queued(outbox[i], byRoot, byHash);
    }
    forall i, j | 0 <= i < j < |outbox| ensures OutboxHashes(outbox)[i] != OutboxHashes(outbox)[j] {
      assert Queued(outbox[i], byRoot, byHash) && Queued(outbox[j], byRoot, byHash);
      assert OutgoingRoots(outbox)[i] != OutgoingRoots(outbox)[j];
      if OutboxHashes(outbox)[i] == OutboxHashes(outbox)[j] { QueuedOnce(outbox[i], outbox[j], byRoot, byHash); }
    }
  }

  /** Replacing an extractable key settles a store of the present format and keeps its chain, or fails with
      two of its inclusions that collide under the hash. */
  lemma HardeningSettles(env: Environment, s: Store, inputs: Inputs)
    requires Current(env, s) && s.owner.value.privateKey.extractable
    ensures
      var t := Store(Some(Hardened(s.owner.value)), s.actions, Wrapped(ChainOf(s)), s.outbox);
      && (!Distinct(HashesOf(ChainOf(s))) ==> Migrated(env, s, inputs) == Failed && HashCollision(env, ChainOf(s)))
      && (Distinct(HashesOf(ChainOf(s))) ==>
            Migrated(env, s, inputs) == Replaced(t) && Settled(env, t) && ChainOf(t) == ChainOf(s))
  {
    var owner, chain := s.owner.value, ChainOf(s);
    Assembled(env, Hardened(owner), s.actions, chain, s.outbox);
    if Distinct(HashesOf(chain)) {
      QueueStorable(env, owner, s.actions, chain, s.outbox);
    } else {
      DuplicateCollides(env, owner.identity, chain);
    }
  }

  /** One run of the migration either fails and changes nothing, or leaves a store on which it has
      nothing more to do. */
  lemma RunsOnce(env: Environment, s: Store, inputs: Inputs, later: Inputs)
    requires Sound(env) && Ready(env, inputs)
    ensures Migrated(env, s, inputs).Unchanged? <==> Settled(env, s)
    ensures Migrated(env, s, inputs).Replaced? ==> Migrated(env, Migrated(env, s, inputs).store, later) == Unchanged
    ensures Migrated(env, s, inputs).Failed? ==> !Settled(env, s)
  {
    if !Settled(env, s) {
      if Current(env, s) {
        HardeningSettles(env, s, inputs);
      } else if Unsigned(env, s) {
        MigrationSettled(env, s, inputs);
      }
    }
  }
}
