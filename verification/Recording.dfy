/** What a new record needs of the hash function, and that the records of a settled store are the chain
    that the outbox drains. */
module Recording {
  import opened Options
  import opened Lists
  import opened Json
  import opened JsonReading
  import opened Chain
  import opened Records
  import opened Sorting
  import opened Migration
  import opened MigrationRun
  import opened MigrationSettles
  import opened MigrationLife
  import Sync
  import Outbox

  // ---------------------------------------------------------------- an action's text names its id

  lemma MappingWellFormed(m: Mapping)
    ensures WellFormed(MappingJson(m))
  {
    var ms := MappingJson(m).members;
    assert |ms[0].key| == 8 && |ms[1].key| == 10 && |ms[2].key| == 15 && |ms[3].key| == 15;
    assert ms[2].key[0] != ms[3].key[0];
    assert DistinctKeys(ms);
  }

  lemma BridgeKeys(b: Bridge)
    ensures DistinctKeys(BridgeJson(b).members)
  {
    var ms := BridgeJson(b).members;
    assert |ms[0].key| == 8 && |ms[1].key| == 12 && |ms[2].key| == 10 && |ms[3].key| == 10 && |ms[4].key| == 10;
    assert |ms[5].key| == 8 && |ms[6].key| == 22 && ms[0].key[0] != ms[5].key[0];
    assert ms[2].key[0] == 0x74 && ms[3].key[0] == 0x6C && ms[4].key[0] == 0x73;
  }

  lemma BridgeWellFormed(b: Bridge)
    ensures WellFormed(BridgeJson(b))
  {
    var ms := BridgeJson(b).members;
    BridgeKeys(b);
    forall i | 0 <= i < |b.mappings|
      ensures WellFormed(MappingJson(b.mappings[i]))
    {
      MappingWellFormed(b.mappings[i]);
    }
    assert WellFormed(ms[5].value) && WellFormed(ms[6].value);
  }

  lemma ActionKeys(a: Action)
    ensures DistinctKeys(ActionBody(a).members) && ActionBody(a).members[1] == M("id", Str(a.id))
  {
    var ms := ActionBody(a).members;
    assert |ms[0].key| == 8 && |ms[1].key| == 2 && |ms[2].key| == 4 && |ms[3].key| == 5 && |ms[4].key| == 12;
    assert |ms[5].key| == 7 && |ms[6].key| == 7 && |ms[7].key| == 9 && ms[5].key[0] != ms[6].key[0];
  }

  lemma ActionWellFormed(a: Action)
    requires WellFormed(PayloadJson(a.payload))
    ensures WellFormed(ActionBody(a))
  {
    ActionKeys(a);
    var actor := ActionBody(a).members[3].value;
    assert |actor.members[0].key| == 10 && |actor.members[1].key| == 6 && |actor.members[2].key| == 5;
    assert WellFormed(actor);
  }

  lemma TextNamesAction(a: Action, b: Action)
    requires WellFormed(PayloadJson(a.payload)) && WellFormed(PayloadJson(b.payload))
    ensures Canonical(ActionBody(a)) == Canonical(ActionBody(b)) ==> a.id == b.id
  {
    ActionWellFormed(a);
    ActionWellFormed(b);
    UniquelyReadable(ActionBody(a), ActionBody(b));
    if SameJson(ActionBody(a), ActionBody(b)) {
      ActionKeys(a);
      ActionKeys(b);
      LookupAt(ActionBody(a).members, 1);
      LookupAt(ActionBody(b).members, 1);
      SameFields(ActionBody(a), ActionBody(b), Ascii("id"));
    }
  }

  // ---------------------------------------------------------------- a fresh id makes a fresh record

  ghost predicate SameHash(env: Environment, t: Text, u: Text) {
    t != u && env.crypto.hash(t) == env.crypto.hash(u)
  }

  /** The text of the new action or of its inclusion has the hash of another text of the store. */
  ghost predicate Clashes(env: Environment, s: Store, a: Action, x: Signed)
    requires AllSigned(s.inclusions)
  {
    || (exists i :: 0 <= i < |s.actions| &&
          SameHash(env, Canonical(ActionBody(s.actions[i])), Canonical(ActionBody(a))))
    || (exists i :: 0 <= i < |ChainOf(s)| &&
          SameHash(env, Canonical(SignedBody(ChainOf(s)[i])), Canonical(SignedBody(x))))
  }

  lemma RootFresh(env: Environment, s: Store, a: Action, x: Signed)
    requires Current(env, s) && a.id !in Ids(s.actions) && WellFormed(PayloadJson(a.payload))
    requires a.root == env.crypto.hash(Canonical(ActionBody(a)))
    ensures a.root !in Roots(s.actions) || Clashes(env, s, a, x)
  {
    if a.root in Roots(s.actions) {
      var i :| 0 <= i < |s.actions| && s.actions[i].root == a.root;
      var b := s.actions[i];
      assert OwnAction(env, b, s.owner.value.identity);
      if b.payload.Migration? { BridgeWellFormed(b.payload.bridge); }
      assert b.id in Ids(s.actions);
      TextNamesAction(a, b);
      assert SameHash(env, Canonical(ActionBody(s.actions[i])), Canonical(ActionBody(a)));
    }
  }

  lemma HashFresh(env: Environment, s: Store, a: Action, x: Signed, i: nat)
    requires Current(env, s) && i < |ChainOf(s)| && x.sequence == |ChainOf(s)| + 1
    requires x.eventHash == env.crypto.hash(Canonical(SignedBody(x)))
    ensures ChainOf(s)[i].eventHash != x.eventHash || Clashes(env, s, a, x)
  {
    assert OwnLink(env, s.owner.value.identity, ChainOf(s), i);
    TextsDiffer(ChainOf(s)[i], x);
    assert ChainOf(s)[i].eventHash == x.eventHash ==>
      SameHash(env, Canonical(SignedBody(ChainOf(s)[i])), Canonical(SignedBody(x)));
  }

  lemma StoredInChain(s: Store, i: nat) returns (k: nat)
    requires AllSigned(s.inclusions) && i < |s.inclusions|
    ensures k < |ChainOf(s)| && ChainOf(s)[k] == s.inclusions[i].signed
  {
    var values := SignedOf(s.inclusions);
    SortElements(values, signedPlace);
    assert values[i] in multiset(values);
    assert values[i] in multiset(ChainOf(s));
    k :| 0 <= k < |ChainOf(s)| && ChainOf(s)[k] == values[i];
  }

  /** A record under an id not yet in use replaces no other, unless two texts have the same hash. */
  lemma FreshUnlessClash(env: Environment, s: Store, a: Action, x: Signed)
    requires Current(env, s) && a.id !in Ids(s.actions) && WellFormed(PayloadJson(a.payload))
    requires a.root == env.crypto.hash(Canonical(ActionBody(a)))
    requires x.sequence == |ChainOf(s)| + 1 && x.eventHash == env.crypto.hash(Canonical(SignedBody(x)))
    ensures Fresh(s, a, x) || Clashes(env, s, a, x)
  {
    RootFresh(env, s, a, x);
    if !Clashes(env, s, a, x) {
      forall i | 0 <= i < |ChainOf(s)| ensures ChainOf(s)[i].eventHash != x.eventHash { HashFresh(env, s, a, x, i); }
      forall i | 0 <= i < |s.inclusions|
        ensures s.inclusions[i].signed.eventHash != x.eventHash
      {
        var k := StoredInChain(s, i);
      }
      ByHashKeys(ChainOf(s));
      forall i | 0 <= i < |s.outbox| ensures s.outbox[i].inclusion.eventHash != x.eventHash {
        assert Queued(s.outbox[i], IndexOf(s.actions), ByHash(ChainOf(s)));
      }
    }
  }

  lemma DraftHashed(env: Environment, s: Store, d: Draft)
    requires Current(env, s)
    ensures var a, x := ActionOf(env, s.owner.value, d), InclusionOf(env, s.owner.value, ChainOf(s), d);
      && a.id == d.id && a.payload == d.payload && a.root == env.crypto.hash(Canonical(ActionBody(a)))
      && x.sequence == |ChainOf(s)| + 1 && x.eventHash == env.crypto.hash(Canonical(SignedBody(x)))
  {
    var chain := ChainOf(s);
    var a, x := ActionOf(env, s.owner.value, d), InclusionOf(env, s.owner.value, chain, d);
    assert ActionBody(a) == ActionBody(a.(root := [], signature := []));
    assert SignedBody(x) == SignedBody(x.(eventHash := [], signature := []));
    assert chain != [] ==> OwnLink(env, s.owner.value.identity, chain, |chain| - 1);
  }

  /** Recording under an id not yet in use keeps a store settled exactly when the caller's fields are
      acceptable; otherwise the next run of the migration fails; unless two texts have the same hash. */
  lemma RecordSettles(env: Environment, s: Store, d: Draft, inputs: Inputs)
    requires Sound(env) && Settled(env, s) && InUse(s) && Supplied(env, d) && SafeSequence(|ChainOf(s)| + 1)
    requires d.id !in Ids(s.actions) && WellFormed(PayloadJson(d.payload))
    ensures var a, x := ActionOf(env, s.owner.value, d), InclusionOf(env, s.owner.value, ChainOf(s), d);
      || Clashes(env, s, a, x)
      || (Putting(s, a, x) == Recorded(env, s, d)
          && if Acceptable(d) then Settled(env, Recorded(env, s, d))
             else Migrated(env, Recorded(env, s, d), inputs) == Failed)
  {
    var a, x := ActionOf(env, s.owner.value, d), InclusionOf(env, s.owner.value, ChainOf(s), d);
    DraftHashed(env, s, d);
    FreshUnlessClash(env, s, a, x);
    if Fresh(s, a, x) {
      PuttingFresh(s, a, x);
      RecordKeeps(env, s, d, inputs);
    }
  }

  // ---------------------------------------------------------------- a store in use

  /** record() under an id not yet in use, with acceptable fields. */
  ghost predicate Writes(env: Environment, s: Store, t: Store, d: Draft) {
    && InUse(s) && Supplied(env, d) && Acceptable(d) && SafeSequence(|ChainOf(s)| + 1) && d.id !in Ids(s.actions)
    && t == Putting(s, ActionOf(env, s.owner.value, d), InclusionOf(env, s.owner.value, ChainOf(s), d))
  }

  ghost predicate Runs(env: Environment, s: Store, t: Store, inputs: Inputs) {
    Ready(env, inputs) && match Migrated(env, s, inputs) case Replaced(r) => t == r case _ => t == s
  }

  /** A step of a store in use: an acceptable record, an accepted entry, another listing, or a new run of
      the migration. */
  ghost predicate Step(env: Environment, s: Store, t: Store) {
    || (exists d :: Writes(env, s, t, d))
    || (exists k: nat :: k < |s.outbox| && t == Sent(s, k))
    || Shuffled(s, t)
    || (exists inputs :: Runs(env, s, t, inputs))
  }

  /** A record whose text, or whose inclusion's, has the hash of another text of the store. */
  ghost predicate StepClashes(env: Environment, s: Store, t: Store) {
    exists d :: Writes(env, s, t, d)
      && Clashes(env, s, ActionOf(env, s.owner.value, d), InclusionOf(env, s.owner.value, ChainOf(s), d))
  }

  lemma PayloadWellFormed(d: Draft)
    requires Acceptable(d)
    ensures WellFormed(PayloadJson(d.payload))
  {
    if d.payload.Migration? { BridgeWellFormed(d.payload.bridge); }
  }

  lemma {:induction false} StepSettles(env: Environment, s: Store, t: Store, inputs: Inputs)
    requires Sound(env) && Settled(env, s) && Step(env, s, t)
    ensures Settled(env, t) || StepClashes(env, s, t)
  {
    if d :| Writes(env, s, t, d) {
      PayloadWellFormed(d);
      RecordSettles(env, s, d, inputs);
    } else if k: nat :| k < |s.outbox| && t == Sent(s, k) {
      SendKeeps(env, s, k);
    } else if Shuffled(s, t) {
      ShuffleKeeps(env, s, t);
    }
  }

  /** However long a settled store is used, with ids that are unused when they are taken, the migration has
      nothing to do on it; unless some step shows two different texts with the same hash. */
  lemma {:induction false} SettledForGood(env: Environment, run: seq<Store>, k: nat, inputs: Inputs)
    requires Sound(env) && k < |run| && Settled(env, run[0])
    requires forall i :: 0 <= i < |run| - 1 ==> Step(env, run[i], run[i + 1])
    ensures
      || (Settled(env, run[k]) && Migrated(env, run[k], inputs) == Unchanged)
      || exists i :: 0 <= i < k && Settled(env, run[i]) && StepClashes(env, run[i], run[i + 1])
  {
    if k > 0 {
      SettledForGood(env, run, k - 1, inputs);
      if Settled(env, run[k - 1]) {
        assert Step(env, run[k - 1], run[k - 1 + 1]);
        StepSettles(env, run[k - 1], run[k], inputs);
        if StepClashes(env, run[k - 1], run[k]) { assert StepClashes(env, run[k - 1], run[k - 1 + 1]); }
      }
    }
  }

  // ---------------------------------------------------------------- the chain that the outbox drains

  predicate Named(s: Store)
    requires InUse(s)
  {
    forall i :: 0 <= i < |ChainOf(s)| ==> ChainOf(s)[i].actionRoot in IndexOf(s.actions)
  }

  /** The store's inclusions in chain order, each with its action, as they are sent. */
  function EntriesOf(s: Store): seq<Sync.Entry>
    requires InUse(s) && Named(s)
  {
    var chain := ChainOf(s);
    seq(|chain|, i requires 0 <= i < |chain| => SyncEntry(IndexOf(s.actions)[chain[i].actionRoot], chain[i]))
  }

  lemma SettledNamed(env: Environment, s: Store)
    requires Current(env, s)
    ensures Named(s)
  {
    IndexKeys(s.actions);
    forall i | 0 <= i < |ChainOf(s)| ensures ChainOf(s)[i].actionRoot in Roots(s.actions) {
      assert SignedRoots(ChainOf(s))[i] in Roots(s.actions);
    }
  }

  lemma EntryFollows(env: Environment, identity: Identity, chain: seq<Signed>, i: nat, a: Action, b: Action)
    requires OwnChain(env, identity, chain) && i < |chain|
    ensures i > 0 ==> Sync.Follows(SyncEntry(a, chain[i]), SyncEntry(b, chain[i - 1]))
    ensures i == 0 ==> chain[i].sequence == 1 && chain[i].previousHash == ZeroHash()
  {
    assert OwnLink(env, identity, chain, i);
    assert i > 0 ==> OwnLink(env, identity, chain, i - 1);
  }

  lemma EntriesFollow(env: Environment, identity: Identity, chain: seq<Signed>, names: seq<Action>,
                      entries: seq<Sync.Entry>)
    requires OwnChain(env, identity, chain) && |names| == |chain| == |entries|
    requires forall i :: 0 <= i < |chain| ==> entries[i] == SyncEntry(names[i], chain[i])
    ensures forall i :: 1 <= i < |chain| ==> Sync.Follows(entries[i], entries[i - 1])
    ensures chain != [] ==> entries[0].inclusion.sequence == 1 && entries[0].inclusion.previousHash == ZeroHash()
  {
    if chain != [] {
      EntryFollows(env, identity, chain, 0, names[0], names[0]);
    }
    forall i | 1 <= i < |chain| ensures Sync.Follows(entries[i], entries[i - 1]) {
      EntryFollows(env, identity, chain, i, names[i], names[i - 1]);
    }
  }

  lemma EntriesSegment(env: Environment, identity: Identity, chain: seq<Signed>, names: seq<Action>,
                       entries: seq<Sync.Entry>)
    requires OwnChain(env, identity, chain) && Distinct(HashesOf(chain)) && Distinct(SignedRoots(chain))
    requires |names| == |chain| == |entries|
    requires forall i :: 0 <= i < |chain| ==>
      && entries[i] == SyncEntry(names[i], chain[i]) && names[i].root == chain[i].actionRoot
      && Sync.ValidEntry(entries[i])
    ensures Outbox.ChainFromStart(entries)
  {
    EntriesDistinct(chain, names, entries);
    EntriesFollow(env, identity, chain, names, entries);
  }

  /** The actions that the chain names, in its order. */
  function NamesOf(s: Store): seq<Action>
    requires InUse(s) && Named(s)
  {
    var chain := ChainOf(s);
    seq(|chain|, i requires 0 <= i < |chain| => IndexOf(s.actions)[chain[i].actionRoot])
  }

  /** The entries of a settled store are a chain from sequence 1, unless two inclusions collide. */
  lemma EntriesFromStart(env: Environment, s: Store)
    requires Current(env, s)
    ensures Named(s) && (Outbox.ChainFromStart(EntriesOf(s)) || HashCollision(env, ChainOf(s)))
  {
    SettledNamed(env, s);
    if !Distinct(HashesOf(ChainOf(s))) {
      DuplicateCollides(env, s.owner.value.identity, ChainOf(s));
    } else {
      EntriesValid(env, s);
      IndexKeys(s.actions);
      EntriesSegment(env, s.owner.value.identity, ChainOf(s), NamesOf(s), EntriesOf(s));
    }
  }

  lemma EntriesValid(env: Environment, s: Store)
    requires Current(env, s) && Named(s)
    ensures forall i :: 0 <= i < |ChainOf(s)| ==> Sync.ValidEntry(EntriesOf(s)[i])
  {
    var entries, chain := EntriesOf(s), ChainOf(s);
    ValidOwns(env, s.owner.value);
    forall i | 0 <= i < |chain| ensures Sync.ValidEntry(entries[i]) {
      EntryQueued(env, s.owner.value.identity, s.actions, chain[i], map[chain[i].eventHash := chain[i]]);
    }
  }

  lemma EntriesDistinct(chain: seq<Signed>, names: seq<Action>, entries: seq<Sync.Entry>)
    requires Distinct(HashesOf(chain)) && Distinct(SignedRoots(chain)) && |names| == |chain| == |entries|
    requires forall i :: 0 <= i < |chain| ==>
      entries[i] == SyncEntry(names[i], chain[i]) && names[i].root == chain[i].actionRoot
    ensures forall i, j :: 0 <= i < j < |chain| ==>
      && entries[i].inclusion.eventHash != entries[j].inclusion.eventHash
      && entries[i].action.root != entries[j].action.root
  {
    forall i, j | 0 <= i < j < |chain|
      ensures entries[i].inclusion.eventHash != entries[j].inclusion.eventHash
      ensures entries[i].action.root != entries[j].action.root
    {
      assert HashesOf(chain)[i] != HashesOf(chain)[j] && SignedRoots(chain)[i] != SignedRoots(chain)[j];
    }
  }

  /** So a record that is put in a settled store is a step that the outbox allows: it appends one entry
      to the chain and queues it under its event hash. */
  lemma RecordEnabled(env: Environment, s: Store, d: Draft, state: Outbox.State)
    requires Sound(env) && Settled(env, s) && InUse(s) && Supplied(env, d) && Acceptable(d)
    requires SafeSequence(|ChainOf(s)| + 1)
    requires Fresh(s, ActionOf(env, s.owner.value, d), InclusionOf(env, s.owner.value, ChainOf(s), d))
    requires Named(s) && state.chain == EntriesOf(s)
    ensures
      var t := Recorded(env, s, d);
      var e := SyncEntry(ActionOf(env, s.owner.value, d), InclusionOf(env, s.owner.value, ChainOf(s), d));
      && InUse(t) && Named(t) && EntriesOf(t) == EntriesOf(s) + [e]
      && (Outbox.Enabled(state, Outbox.Record(e)) || HashCollision(env, ChainOf(t)))
  {
    var a, x := ActionOf(env, s.owner.value, d), InclusionOf(env, s.owner.value, ChainOf(s), d);
    RecordedSchema(env, s.owner.value, d);
    AppendCurrent(env, s, a, d.includedAt, d.inclusionNonce);
    var t := Recorded(env, s, d);
    EntriesFromStart(env, t);
    EntriesAppend(s, t, a, x);
  }

  lemma EntriesAppend(s: Store, t: Store, a: Action, x: Signed)
    requires InUse(s) && InUse(t) && Named(s) && Named(t) && t.actions == s.actions + [a]
    requires ChainOf(t) == ChainOf(s) + [x]
    requires a.root !in Roots(s.actions) && x.actionRoot == a.root
    ensures EntriesOf(t) == EntriesOf(s) + [SyncEntry(a, x)]
  {
    IndexNext(s.actions, a);
    IndexKeys(s.actions);
    forall i | 0 <= i < |ChainOf(s)| ensures EntriesOf(t)[i] == EntriesOf(s)[i] {
      assert ChainOf(t)[i] == ChainOf(s)[i];
    }
  }
}
