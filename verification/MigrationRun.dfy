/** The identity migration as a whole: what it writes, and why running it again changes nothing. */
module MigrationRun {
  import opened Options
  import opened Lists
  import opened Json
  import opened JsonReading
  import opened Chain
  import opened Records
  import opened Sorting
  import opened Migration
  import Sync

  // ---------------------------------------------------------------- stores that the migration accepts

  predicate AllSigned(items: seq<Stored>) {
    forall i :: 0 <= i < |items| ==> items[i].SignedItem?
  }

  predicate AllLegacy(items: seq<Stored>) {
    forall i :: 0 <= i < |items| ==> items[i].LegacyItem?
  }

  function SignedOf(items: seq<Stored>): seq<Signed>
    requires AllSigned(items)
  {
    seq(|items|, i requires 0 <= i < |items| => items[i].signed)
  }

  function LegacyOf(items: seq<Stored>): seq<Legacy>
    requires AllLegacy(items)
  {
    seq(|items|, i requires 0 <= i < |items| => items[i].legacy)
  }

  function ChainOf(s: Store): seq<Signed>
    requires AllSigned(s.inclusions)
  {
    SortBy(SignedOf(s.inclusions), signedPlace)
  }

  function LegacyChainOf(s: Store): seq<Legacy>
    requires AllLegacy(s.inclusions)
  {
    SortBy(LegacyOf(s.inclusions), legacyPlace)
  }

  predicate ValidOwner(env: Environment, owner: Owner) {
    ValidIdentity(env, owner) && ValidHistory(env, owner.migrations, owner.identity)
  }

  /** Inclusions, history and outbox fit together around this chain. */
  ghost predicate Fits(env: Environment, owner: Owner, actions: seq<Action>, chain: seq<Signed>,
          outbox: seq<Outgoing>) {
    && SignedChain(env, owner.identity, chain, Roots(actions))
    && HistoryLinked(owner.migrations, chain)
    && QueuedOutbox(outbox, IndexOf(actions), ByHash(chain))
  }

  /** A store in the present format. */
  ghost predicate Current(env: Environment, s: Store) {
    && s.owner.Some? && ValidOwner(env, s.owner.value) && ValidActions(env, s.actions, s.owner.value.identity)
    && AllSigned(s.inclusions) && Fits(env, s.owner.value, s.actions, ChainOf(s), s.outbox)
  }

  /** A store in the old format, never migrated. */
  ghost predicate Unsigned(env: Environment, s: Store) {
    && s.owner.Some? && ValidOwner(env, s.owner.value) && ValidActions(env, s.actions, s.owner.value.identity)
    && s.inclusions != [] && AllLegacy(s.inclusions)
    && LegacyChain(env, s.owner.value.identity, LegacyChainOf(s), Roots(s.actions))
    && s.owner.value.migrations == []
    && PendingOutbox(env, s.outbox, s.owner.value.identity, IndexOf(s.actions), Elements(LegacyRoots(LegacyChainOf(s))))
  }

  predicate Blank(s: Store) {
    s.owner.None? && s.actions == [] && s.inclusions == [] && s.outbox == []
  }

  /** Nothing is left to migrate. */
  ghost predicate Settled(env: Environment, s: Store) {
    Blank(s) || (Current(env, s) && !s.owner.value.privateKey.extractable)
  }

  // ---------------------------------------------------------------- what the migration writes

  /** Timestamps and signing coins, by the position of the record they are used for. */
  datatype Inputs = Inputs(clock: nat -> Text, nonces: nat -> nat, recordId: Text)

  ghost predicate Ready(env: Environment, inputs: Inputs) {
    IsActionId(inputs.recordId) && forall n: nat :: env.isTimestamp(inputs.clock(n))
  }

  predicate Known(legacy: seq<Legacy>, byRoot: map<Text, Action>) {
    forall i :: 0 <= i < |legacy| ==> legacy[i].actionRoot in byRoot
  }

  /** Each stored action, included anew in the order of the unsigned chain. */
  function Rebuilt(env: Environment, identity: Identity, secret: Text, legacy: seq<Legacy>,
          byRoot: map<Text, Action>, inputs: Inputs): seq<Signed>
    requires Known(legacy, byRoot)
  {
    if legacy == [] then []
    else
      var n := |legacy| - 1;
      var before := Rebuilt(env, identity, secret, legacy[..n], byRoot, inputs);
      before + [Included(env, identity, secret, LastOf(before), byRoot[legacy[n].actionRoot], inputs.clock(n),
                         inputs.nonces(n))]
  }

  function MappingsOf(legacy: seq<Legacy>, chain: seq<Signed>): seq<Mapping>
    requires |legacy| == |chain|
  {
    seq(|legacy|, i requires 0 <= i < |legacy| =>
      Mapping(legacy[i].sequence, legacy[i].actionRoot, legacy[i].eventHash, chain[i].eventHash))
  }

  function BridgeOf(legacy: seq<Legacy>, chain: seq<Signed>, pending: seq<Text>): Bridge
    requires |legacy| == |chain|
  {
    var n := |legacy|;
    Bridge(
      if n == 0 then ZeroHash() else legacy[n - 1].eventHash, if n == 0 then ZeroHash() else chain[n - 1].eventHash,
      MappingsOf(legacy, chain), pending)
  }

  function MigrationRecord(env: Environment, identity: Identity, secret: Text, bridge: Bridge, inputs: Inputs): Action {
    var n := |bridge.mappings|;
    SignAction(env, Action(inputs.recordId, MIGRATED, identity.identityId, identity.handle, identity.keyId,
                           None, Some(identity.identityId), Payload.Migration(bridge), inputs.clock(n), [], []),
               secret, inputs.nonces(n))
  }

  function SignedOutbox(chain: seq<Signed>, byRoot: map<Text, Action>): seq<Outgoing>
    requires forall i :: 0 <= i < |chain| ==> chain[i].actionRoot in byRoot
  {
    seq(|chain|, i requires 0 <= i < |chain| => Entry(byRoot[chain[i].actionRoot], chain[i]))
  }

  datatype Outcome = Unchanged | Replaced(store: Store) | Failed

  function HashesOf(chain: seq<Signed>): seq<Text> {
    seq(|chain|, i requires 0 <= i < |chain| => chain[i].eventHash)
  }

  predicate AllEntries(outbox: seq<Outgoing>) {
    forall i :: 0 <= i < |outbox| ==>
      outbox[i].Entry? && Sync.ValidEntry(SyncEntry(outbox[i].action, outbox[i].inclusion))
  }

  function OutboxHashes(outbox: seq<Outgoing>): seq<Text>
    requires AllEntries(outbox)
  {
    seq(|outbox|, i requires 0 <= i < |outbox| => outbox[i].inclusion.eventHash)
  }

  function Wrapped(chain: seq<Signed>): seq<Stored> {
    seq(|chain|, i requires 0 <= i < |chain| => SignedItem(chain[i]))
  }

  predicate Storable(chain: seq<Signed>, outbox: seq<Outgoing>) {
    && (forall i :: 0 <= i < |chain| ==> chain[i].eventHash != [])
    && AllEntries(outbox) && Distinct(HashesOf(chain)) && Distinct(OutboxHashes(outbox))
  }

  /** The identity, inclusions and outbox are replaced together, or nothing is. */
  function Replacing(s: Store, owner: Owner, chain: seq<Signed>, outbox: seq<Outgoing>): Outcome {
    if Storable(chain, outbox) then Replaced(Store(Some(owner), s.actions, Wrapped(chain), outbox)) else Failed
  }

  function Hardened(owner: Owner): Owner {
    owner.(privateKey := owner.privateKey.(extractable := false))
  }

  lemma {:induction false} RebuiltOrder(env: Environment, identity: Identity, secret: Text, legacy: seq<Legacy>,
          byRoot: map<Text, Action>, inputs: Inputs)
    requires Known(legacy, byRoot) && Keyed(byRoot)
    ensures
      var chain := Rebuilt(env, identity, secret, legacy, byRoot, inputs);
      |chain| == |legacy| && forall i :: 0 <= i < |legacy| ==> chain[i].actionRoot == legacy[i].actionRoot
  {
    if legacy != [] {
      RebuiltOrder(env, identity, secret, legacy[..|legacy| - 1], byRoot, inputs);
    }
  }

  predicate Keyed(byRoot: map<Text, Action>) {
    forall r :: r in byRoot ==> byRoot[r].root == r
  }

  lemma NamedIsKnown(legacy: seq<Legacy>, actions: seq<Action>)
    requires NamesOnce(LegacyRoots(legacy), Roots(actions))
    ensures Known(legacy, IndexOf(actions)) && Keyed(IndexOf(actions))
  {
    IndexKeys(actions);
    forall i | 0 <= i < |legacy| ensures legacy[i].actionRoot in Roots(actions) {
      assert LegacyRoots(legacy)[i] in Roots(actions);
    }
  }

  datatype Writing = Writing(owner: Owner, chain: seq<Signed>, outbox: seq<Outgoing>)

  /** The upgraded owner, chain and outbox: the record of the migration bridges the two chains, and
      the whole chain is queued. */
  function Upgraded(env: Environment, owner: Owner, legacy: seq<Legacy>, byRoot: map<Text, Action>,
          pending: seq<Text>, inputs: Inputs): Writing
    requires Known(legacy, byRoot) && Keyed(byRoot)
  {
    var identity, secret := owner.identity, owner.privateKey.secret;
    RebuiltOrder(env, identity, secret, legacy, byRoot, inputs);
    var chain := Rebuilt(env, identity, secret, legacy, byRoot, inputs);
    var record := MigrationRecord(env, identity, secret, BridgeOf(legacy, chain, pending), inputs);
    Writing(Hardened(owner).(migrations := [record]), chain, SignedOutbox(chain, byRoot))
  }

  lemma UnsignedKnown(env: Environment, s: Store)
    requires Unsigned(env, s)
    ensures Known(LegacyChainOf(s), IndexOf(s.actions)) && Keyed(IndexOf(s.actions))
  {
    NamedIsKnown(LegacyChainOf(s), s.actions);
  }

  ghost function UpgradeOf(env: Environment, s: Store, inputs: Inputs): Writing
    requires Unsigned(env, s)
  {
    UnsignedKnown(env, s);
    Upgraded(env, s.owner.value, LegacyChainOf(s), IndexOf(s.actions), OutgoingRoots(s.outbox), inputs)
  }

  /** What one run of the migration does to a store. */
  ghost function Migrated(env: Environment, s: Store, inputs: Inputs): Outcome {
    if Settled(env, s) then Unchanged
    else if Current(env, s) then Replacing(s, Hardened(s.owner.value), ChainOf(s), s.outbox)
    else if Unsigned(env, s) then
      var w := UpgradeOf(env, s, inputs);
      Replacing(s, w.owner, w.chain, w.outbox)
    else Failed
  }

  // ---------------------------------------------------------------- the migration as it runs

  predicate SignedActions(byRoot: map<Text, Action>) {
    forall r :: r in byRoot ==> byRoot[r].root != [] && byRoot[r].signature != []
  }

  lemma {:induction false} RebuiltNext(env: Environment, identity: Identity, secret: Text, legacy: seq<Legacy>,
          byRoot: map<Text, Action>, inputs: Inputs, i: nat)
    requires Known(legacy, byRoot) && i < |legacy|
    ensures
      var before := Rebuilt(env, identity, secret, legacy[..i], byRoot, inputs);
      Rebuilt(env, identity, secret, legacy[..i + 1], byRoot, inputs) ==
        before + [Included(env, identity, secret, LastOf(before), byRoot[legacy[i].actionRoot], inputs.clock(i),
                           inputs.nonces(i))]
  {
    assert legacy[..i + 1][..i] == legacy[..i];
  }

  method RebuildInclusions(env: Environment, identity: Identity, secret: Text, legacy: seq<Legacy>,
                           byRoot: map<Text, Action>, inputs: Inputs) returns (chain: seq<Signed>)
    requires Sound(env) && env.pairs(secret, identity.publicKey) && Owns(env, identity)
    requires Known(legacy, byRoot) && SignedActions(byRoot)
    ensures chain == Rebuilt(env, identity, secret, legacy, byRoot, inputs)
  {
    chain := [];
    var previous: Option<Signed> := None;
    for i := 0 to |legacy|
      invariant chain == Rebuilt(env, identity, secret, legacy[..i], byRoot, inputs) && previous == LastOf(chain)
      invariant previous.Some? ==>
        previous.value.chainId == identity.identityId && previous.value.keyId == identity.keyId
    {
      RebuiltNext(env, identity, secret, legacy, byRoot, inputs, i);
      PairedAttests(env, identity, secret, previous, byRoot[legacy[i].actionRoot], inputs.clock(i), inputs.nonces(i));
      var inclusion := IncludeAction(env, identity, secret, previous, byRoot[legacy[i].actionRoot], inputs.clock(i),
                                     inputs.nonces(i));
      chain := chain + [inclusion.value];
      previous := inclusion;
    }
    assert legacy[..|legacy|] == legacy;
  }

  lemma OwnActionsSigned(env: Environment, actions: seq<Action>, identity: Identity)
    requires ValidActions(env, actions, identity)
    ensures SignedActions(IndexOf(actions))
  {
    IndexKeys(actions);
    forall r | r in IndexOf(actions) ensures IndexOf(actions)[r].root != [] && IndexOf(actions)[r].signature != [] {
      var a := IndexOf(actions)[r];
      assert a in actions;
      var i :| 0 <= i < |actions| && actions[i] == a;
      assert OwnAction(env, actions[i], identity);
    }
  }

  /** A store without inclusions is current exactly when it holds no records at all. */
  lemma EmptyFits(env: Environment, owner: Owner, actions: seq<Action>, outbox: seq<Outgoing>)
    ensures Fits(env, owner, actions, [], outbox) <==> owner.migrations == [] && actions == [] && outbox == []
  {
    assert SignedRoots([]) == [];
    if actions != [] {
      assert actions[0].root in Roots(actions);
    }
    if owner.migrations != [] && owner.migrations[0].payload.Migration? {
      var bridge := owner.migrations[0].payload.bridge;
      assert bridge.mappings == [] || !MappedTo(bridge, [], 0);
    }
    if outbox != [] {
      assert !Queued(outbox[0], IndexOf(actions), ByHash([]));
    }
    if actions == [] && outbox == [] {
      assert Roots(actions) == {};
      assert OutgoingRoots(outbox) == [];
    }
  }

  method Upgrade(env: Environment, owner: Owner, legacy: seq<Legacy>, byRoot: map<Text, Action>, pending: seq<Text>,
          inputs: Inputs)
    returns (w: Writing)
    requires Sound(env) && ValidIdentity(env, owner)
    requires Known(legacy, byRoot) && Keyed(byRoot) && SignedActions(byRoot)
    ensures w == Upgraded(env, owner, legacy, byRoot, pending, inputs)
  {
    ValidOwns(env, owner);
    var identity, hardened := owner.identity, Hardened(owner);
    var chain := RebuildInclusions(env, identity, hardened.privateKey.secret, legacy, byRoot, inputs);
    RebuiltOrder(env, identity, owner.privateKey.secret, legacy, byRoot, inputs);
    var record := MigrationRecord(env, identity, hardened.privateKey.secret, BridgeOf(legacy, chain, pending), inputs);
    return Writing(hardened.(migrations := [record]), chain, SignedOutbox(chain, byRoot));
  }

  function HashOf(item: Stored): Text {
    match item case LegacyItem(x) => x.eventHash case SignedItem(x) => x.eventHash
  }

  /** The elements that do not have the property. */
  function Others<T>(s: seq<T>, same: T -> bool): seq<T> {
    if s == [] then []
    else Others(s[..|s| - 1], same) + if same(s[|s| - 1]) then [] else [s[|s| - 1]]
  }

  lemma {:induction false} NoneOther<T>(s: seq<T>, same: T -> bool)
    requires forall i :: 0 <= i < |s| ==> !same(s[i])
    ensures Others(s, same) == s
  {
    if s != [] {
      NoneOther(s[..|s| - 1], same);
      SplitLast(s);
    }
  }

  function Putting(s: Store, action: Action, inclusion: Signed): Store {
    s.(actions := Others(s.actions, (a: Action) => a.id == action.id) + [action],
       inclusions := Others(s.inclusions, (i: Stored) => HashOf(i) == inclusion.eventHash) + [SignedItem(inclusion)],
       outbox := Others(s.outbox, (e: Outgoing) => e.Entry? && e.inclusion.eventHash == inclusion.eventHash)
                 + [Entry(action, inclusion)])
  }

  /** The personal records as the extension stores them. */
  class PersonalDatabase {
    var owner: Option<Owner>
    var actions: seq<Action>
    var inclusions: seq<Stored>
    var outbox: seq<Outgoing>

    constructor (s: Store)
      ensures Contents() == s
    {
      owner, actions, inclusions, outbox := s.owner, s.actions, s.inclusions, s.outbox;
    }

    function Contents(): Store
      reads this
    {
      Store(owner, actions, inclusions, outbox)
    }

    /** One transaction: a replacement that cannot be stored leaves everything as it was. */
    method ReplacePersonalChain(newOwner: Owner, chain: seq<Signed>, entries: seq<Outgoing>) returns (outcome: Outcome)
      modifies this`owner, this`inclusions, this`outbox
      ensures outcome == Replacing(old(Contents()), newOwner, chain, entries)
      ensures Contents() == if outcome.Replaced? then outcome.store else old(Contents())
    {
      if !Storable(chain, entries) {
        return Failed;
      }
      owner := Some(newOwner);
      inclusions := Wrapped(chain);
      outbox := entries;
      return Replaced(Contents());
    }

    /** Each object store replaces the record under the same key, if there is one. */
    method PutSignedRecord(action: Action, inclusion: Signed) returns (ok: bool)
      modifies this`actions, this`inclusions, this`outbox
      ensures ok <==> Sync.ValidEntry(SyncEntry(action, inclusion))
      ensures Contents() == if ok then Putting(old(Contents()), action, inclusion) else old(Contents())
    {
      if !Sync.ValidEntry(SyncEntry(action, inclusion)) {
        return false;
      }
      actions := Others(actions, (a: Action) => a.id == action.id) + [action];
      inclusions := Others(inclusions, (i: Stored) => HashOf(i) == inclusion.eventHash) + [SignedItem(inclusion)];
      outbox := Others(outbox, (e: Outgoing) => e.Entry? && e.inclusion.eventHash == inclusion.eventHash)
                + [Entry(action, inclusion)];
      return true;
    }

    method MigrateCurrent(env: Environment, byRoot: map<Text, Action>) returns (outcome: Outcome)
      requires owner.Some? && ValidOwner(env, owner.value) && ValidActions(env, actions, owner.value.identity)
      requires byRoot == IndexOf(actions) && AllSigned(inclusions)
      modifies this`owner, this`inclusions, this`outbox
      ensures
        var s := old(Contents());
        outcome == if !Fits(env, s.owner.value, s.actions, ChainOf(s), s.outbox) then Failed
                   else if !s.owner.value.privateKey.extractable then Unchanged
                   else Replacing(s, Hardened(s.owner.value), ChainOf(s), s.outbox)
      ensures Contents() == if outcome.Replaced? then outcome.store else old(Contents())
    {
      ValidOwns(env, owner.value);
      IndexKeys(actions);
      var chain := ValidateCurrentInclusions(env, owner.value.identity, SignedOf(inclusions), byRoot);
      if chain.None? {
        return Failed;
      }
      assert ValidHistory(env, owner.value.migrations, owner.value.identity);
      var linked := ValidateMigrationHistoryLinkage(owner.value.migrations, chain.value);
      if !linked {
        return Failed;
      }
      var queued := CurrentOutbox(outbox, byRoot, chain.value);
      if !queued {
        return Failed;
      }
      if !owner.value.privateKey.extractable {
        return Unchanged;
      }
      outcome := ReplacePersonalChain(Hardened(owner.value), chain.value, outbox);
    }

    method MigrateEmpty(env: Environment) returns (outcome: Outcome)
      requires owner.Some? && ValidOwner(env, owner.value) && inclusions == []
      modifies this`owner, this`inclusions, this`outbox
      ensures
        var s := old(Contents());
        outcome == if !Fits(env, s.owner.value, s.actions, [], s.outbox) then Failed
                   else if !s.owner.value.privateKey.extractable then Unchanged
                   else Replacing(s, Hardened(s.owner.value), [], [])
      ensures Contents() == if outcome.Replaced? then outcome.store else old(Contents())
    {
      EmptyFits(env, owner.value, actions, outbox);
      assert ValidHistory(env, owner.value.migrations, owner.value.identity);
      var linked := ValidateMigrationHistoryLinkage(owner.value.migrations, []);
      if !linked || actions != [] || outbox != [] {
        return Failed;
      }
      if !owner.value.privateKey.extractable {
        return Unchanged;
      }
      outcome := ReplacePersonalChain(Hardened(owner.value), [], []);
    }

    method MigrateLegacy(env: Environment, byRoot: map<Text, Action>, inputs: Inputs) returns (outcome: Outcome)
      requires Sound(env)
      requires owner.Some? && ValidOwner(env, owner.value) && ValidActions(env, actions, owner.value.identity)
      requires byRoot == IndexOf(actions) && inclusions != [] && AllLegacy(inclusions)
      modifies this`owner, this`inclusions, this`outbox
      ensures
        var s := old(Contents());
        outcome == if !Unsigned(env, s) then Failed
                   else var w := UpgradeOf(env, s, inputs); Replacing(s, w.owner, w.chain, w.outbox)
      ensures Contents() == if outcome.Replaced? then outcome.store else old(Contents())
    {
      var o := owner.value;
      IndexKeys(actions);
      var legacy := ValidateLegacyInclusions(env, o.identity, LegacyOf(inclusions), byRoot);
      if legacy.None? || o.migrations != [] {
        return Failed;
      }
      var pending := LegacyPendingRoots(env, outbox, o.identity, byRoot, Elements(LegacyRoots(legacy.value)));
      if pending.None? {
        return Failed;
      }
      NamedIsKnown(legacy.value, actions);
      OwnActionsSigned(env, actions, o.identity);
      var w := Upgrade(env, o, legacy.value, byRoot, pending.value, inputs);
      outcome := ReplacePersonalChain(w.owner, w.chain, w.outbox);
    }

    /** migrateLegacyIdentityAndPersonalChain. */
    method Migrate(env: Environment, inputs: Inputs) returns (outcome: Outcome)
      requires Sound(env)
      modifies this`owner, this`inclusions, this`outbox
      ensures outcome == Migrated(env, old(Contents()), inputs)
      ensures Contents() == if outcome.Replaced? then outcome.store else old(Contents())
    {
      if owner.None? {
        return if actions != [] || inclusions != [] || outbox != [] then Failed else Unchanged;
      }
      if !ValidOwner(env, owner.value) {
        return Failed;
      }
      var byRoot := ValidatedActions(env, actions, owner.value.identity);
      if byRoot.None? {
        return Failed;
      }
      if inclusions == [] {
        EmptyFits(env, owner.value, actions, outbox);
        assert ChainOf(Contents()) == [];
        outcome := MigrateEmpty(env);
      } else if AllSigned(inclusions) {
        assert inclusions[0].SignedItem?;
        outcome := MigrateCurrent(env, byRoot.value);
      } else if AllLegacy(inclusions) {
        outcome := MigrateLegacy(env, byRoot.value, inputs);
      } else {
        outcome := Failed;
      }
    }
  }
}
