/** A migrated store in use: records are appended, sent and listed in any order, and every later run
    of the migration finds nothing to do. */
module MigrationLife {
  import opened Options
  import opened Lists
  import opened Json
  import opened JsonReading
  import opened Chain
  import opened Records
  import opened Sorting
  import opened Migration
  import opened MigrationRun
  import opened MigrationSettles
  import Sync

  // ---------------------------------------------------------------- recording an action

  predicate InUse(s: Store) {
    s.owner.Some? && AllSigned(s.inclusions)
  }

  /** What the caller of record() chooses, and what the clock and the random source supply. */
  datatype Draft = Draft(
    id: Text, kind: Text, workflowRoot: Option<Text>, subject: Option<Text>, payload: Payload,
    createdAt: Text, includedAt: Text, actionNonce: nat, inclusionNonce: nat)

  function ActionOf(env: Environment, owner: Owner, d: Draft): Action {
    var identity := owner.identity;
    SignAction(env, Action(d.id, d.kind, identity.identityId, identity.handle, identity.keyId,
                           d.workflowRoot, d.subject, d.payload, d.createdAt, [], []),
               owner.privateKey.secret, d.actionNonce)
  }

  function InclusionOf(env: Environment, owner: Owner, chain: seq<Signed>, d: Draft): Signed {
    Included(env, owner.identity, owner.privateKey.secret, LastOf(chain), ActionOf(env, owner, d), d.includedAt,
             d.inclusionNonce)
  }

  /** The three stores after the action and its inclusion are put under keys not yet in use. */
  function Appended(s: Store, a: Action, x: Signed): Store {
    s.(actions := s.actions + [a], inclusions := s.inclusions + [SignedItem(x)], outbox := s.outbox + [Entry(a, x)])
  }

  /** The ids and hashes of the new records are not in use. */
  ghost predicate Fresh(s: Store, a: Action, x: Signed)
    requires AllSigned(s.inclusions)
  {
    && a.id !in Ids(s.actions) && a.root !in Roots(s.actions)
    && (forall i :: 0 <= i < |s.inclusions| ==> s.inclusions[i].signed.eventHash != x.eventHash)
    && (forall i :: 0 <= i < |s.outbox| ==> s.outbox[i].Entry? ==> s.outbox[i].inclusion.eventHash != x.eventHash)
  }

  /** The fields that record() leaves to its caller. */
  predicate Acceptable(d: Draft) {
    && (d.workflowRoot.Some? ==> IsHash(d.workflowRoot.value)) && (d.subject.Some? ==> d.subject.value != [])
    && ValidPayload(d.payload)
  }

  /** The fields that record() takes care of. */
  predicate Supplied(env: Environment, d: Draft) {
    IsActionId(d.id) && Ascii("@greenways/") <= d.kind && env.isTimestamp(d.createdAt) && env.isTimestamp(d.includedAt)
  }

  /** A recorded action passes the schema of stored actions exactly when the caller's part does. */
  lemma RecordedSchema(env: Environment, owner: Owner, d: Draft)
    requires Sound(env) && ValidIdentity(env, owner) && Supplied(env, d)
    ensures OwnAction(env, ActionOf(env, owner, d), owner.identity) <==> Acceptable(d)
  {
    var identity := owner.identity;
    var body := Action(d.id, d.kind, identity.identityId, identity.handle, identity.keyId,
                       d.workflowRoot, d.subject, d.payload, d.createdAt, [], []);
    SignedVerifies(env, body, owner.privateKey.secret, d.actionNonce, identity.publicKey);
  }

  lemma ActionsExtend(env: Environment, s: Store, a: Action, identity: Identity)
    requires ValidActions(env, s.actions, identity) && a.id !in Ids(s.actions) && a.root !in Roots(s.actions)
    ensures ValidActions(env, s.actions + [a], identity) <==> OwnAction(env, a, identity)
  {
    ActionNext(env, s.actions, a, identity);
  }

  // ---------------------------------------------------------------- the longer chain

  lemma SequenceOf(env: Environment, identity: Identity, chain: seq<Signed>, i: nat)
    requires OwnChain(env, identity, chain) && i < |chain|
    ensures chain[i].sequence == i + 1
  {
    assert OwnLink(env, identity, chain, i);
  }

  /** Sorting the stored inclusions after one is added gives the old chain with the new one last. */
  lemma SortedAppend(env: Environment, identity: Identity, items: seq<Stored>, x: Signed)
    requires AllSigned(items) && OwnChain(env, identity, SortBy(SignedOf(items), signedPlace) + [x])
    ensures SortBy(SignedOf(items + [SignedItem(x)]), signedPlace) == SortBy(SignedOf(items), signedPlace) + [x]
  {
    var values := SignedOf(items);
    var chain := SortBy(values, signedPlace);
    assert SignedOf(items + [SignedItem(x)]) == values + [x];
    SortElements(values, signedPlace);
    forall i | 0 <= i < |chain + [x]| ensures (chain + [x])[i].sequence == i + 1 {
      SequenceOf(env, identity, chain + [x], i);
    }
    InOrder(chain + [x]);
    SortUnique(chain + [x], values + [x], signedPlace);
  }

  /** A chain extended by the inclusion of a new action is again the owner's chain of all actions. */
  lemma ChainExtends(env: Environment, owner: Owner, actions: seq<Action>, chain: seq<Signed>, a: Action, at: Text,
          nonce: nat)
    requires Sound(env) && ValidIdentity(env, owner) && env.isTimestamp(at)
    requires SignedChain(env, owner.identity, chain, Roots(actions)) && a.root !in Roots(actions) && IsHash(a.root)
    requires SafeSequence(|chain| + 1)
    ensures
      var x := Included(env, owner.identity, owner.privateKey.secret, LastOf(chain), a, at, nonce);
      SignedChain(env, owner.identity, chain + [x], Roots(actions + [a]))
  {
    var identity := owner.identity;
    var x := Included(env, identity, owner.privateKey.secret, LastOf(chain), a, at, nonce);
    var longer := chain + [x];
    IncludedExtends(env, identity, owner.privateKey.secret, chain, a, at, nonce);
    ZeroIsHash();
    NamesNext(actions, a);
    assert OwnLink(env, identity, longer, |chain|);
    forall i | 0 <= i < |longer| ensures SignedSchema(env, longer[i], identity) {
      if i < |chain| { assert SignedSchema(env, chain[i], identity); }
      else if i > 0 { assert SignedSchema(env, chain[i - 1], identity); }
    }
    NamesExtend(SignedRoots(chain), Roots(actions), a.root);
    assert SignedRoots(longer) == SignedRoots(chain) + [a.root];
  }

  lemma NamesExtend(list: seq<Text>, roots: set<Text>, r: Text)
    requires NamesOnce(list, roots) && r !in roots
    ensures NamesOnce(list + [r], roots + {r})
  {}

  lemma HistoryExtends(history: seq<Action>, chain: seq<Signed>, x: Signed)
    requires HistoryLinked(history, chain)
    ensures HistoryLinked(history, chain + [x])
  {
    forall h | 0 <= h < |history| ensures Linked(history[h].payload.bridge, chain + [x]) {
      var bridge := history[h].payload.bridge;
      forall i | 0 <= i < |bridge.mappings| ensures MappedTo(bridge, chain + [x], i) {
        assert MappedTo(bridge, chain, i);
      }
    }
  }

  // ---------------------------------------------------------------- the longer outbox

  lemma QueuedStays(e: Outgoing, byRoot: map<Text, Action>, byHash: map<Text, Signed>, a: Action, x: Signed)
    requires Queued(e, byRoot, byHash) && a.root !in byRoot && x.eventHash !in byHash
    ensures Queued(e, byRoot[a.root := a], byHash[x.eventHash := x])
  {}

  lemma {:induction false} ByHashKeys(chain: seq<Signed>)
    ensures forall h :: h in ByHash(chain) ==> exists i :: 0 <= i < |chain| && chain[i].eventHash == h
  {
    if chain != [] {
      ByHashKeys(chain[..|chain| - 1]);
      assert chain[|chain| - 1].eventHash in ByHash(chain);
    }
  }

  lemma {:induction false} RootsExtend(outbox: seq<Outgoing>, byRoot: map<Text, Action>, byHash: map<Text, Signed>,
          a: Action, x: Signed)
    requires QueuedOutbox(outbox, byRoot, byHash) && a.root !in byRoot
    ensures Distinct(OutgoingRoots(outbox + [Entry(a, x)]))
  {
    var more := outbox + [Entry(a, x)];
    forall i | 0 <= i < |outbox| ensures OutgoingRoots(outbox)[i] in byRoot {
      assert Queued(outbox[i], byRoot, byHash);
    }
    assert OutgoingRoots(more) == OutgoingRoots(outbox) + [a.root];
  }

  lemma {:induction false} OutboxExtends(env: Environment, s: Store, identity: Identity, chain: seq<Signed>,
          a: Action, x: Signed)
    requires QueuedOutbox(s.outbox, IndexOf(s.actions), ByHash(chain))
    requires OwnAction(env, a, identity) && SignedSchema(env, x, identity) && x.actionRoot == a.root
    requires Owns(env, identity)
    requires a.root !in Roots(s.actions) && forall i :: 0 <= i < |chain| ==> chain[i].eventHash != x.eventHash
    ensures QueuedOutbox(s.outbox + [Entry(a, x)], IndexOf(s.actions + [a]), ByHash(chain + [x]))
  {
    var more := s.outbox + [Entry(a, x)];
    IndexNext(s.actions, a);
    IndexKeys(s.actions);
    ByHashKeys(chain);
    assert (chain + [x])[..|chain|] == chain;
    EntryValid(env, identity, a, x);
    forall i | 0 <= i < |more| ensures Queued(more[i], IndexOf(s.actions + [a]), ByHash(chain + [x])) {
      if i < |s.outbox| {
        QueuedStays(s.outbox[i], IndexOf(s.actions), ByHash(chain), a, x);
      }
    }
    RootsExtend(s.outbox, IndexOf(s.actions), ByHash(chain), a, x);
  }

  // ---------------------------------------------------------------- record()

  /** Under keys not yet in use, putting is appending. */
  lemma {:induction false} PuttingFresh(s: Store, a: Action, x: Signed)
    requires AllSigned(s.inclusions) && Fresh(s, a, x)
    ensures Putting(s, a, x) == Appended(s, a, x)
  {
    forall i | 0 <= i < |s.actions| ensures s.actions[i].id != a.id { assert s.actions[i].id in Ids(s.actions); }
    NoneOther(s.actions, (b: Action) => b.id == a.id);
    NoneOther(s.inclusions, (i: Stored) => HashOf(i) == x.eventHash);
    NoneOther(s.outbox, (e: Outgoing) => e.Entry? && e.inclusion.eventHash == x.eventHash);
  }

  /** What record() asks of the stored chain, the owner's key and its caller. */
  predicate Recordable(env: Environment, s: Store, d: Draft)
    requires InUse(s)
  {
    var owner, last := s.owner.value, LastOf(ChainOf(s));
    var a, x := ActionOf(env, owner, d), InclusionOf(env, owner, ChainOf(s), d);
    && Ascii("@greenways/") <= d.kind && Owns(env, owner.identity) && Attested(env, owner.identity, x)
    && (last.Some? ==> last.value.chainId == owner.identity.identityId && last.value.keyId == owner.identity.keyId)
    && Sync.ValidEntry(SyncEntry(a, x))
  }

  /** In a settled store the sequence alone may be refused. */
  lemma SettledRecordable(env: Environment, s: Store, d: Draft)
    requires Sound(env) && InUse(s) && Settled(env, s) && Supplied(env, d)
    ensures Recordable(env, s, d) <==> SafeSequence(|ChainOf(s)| + 1)
  {
    var owner, chain := s.owner.value, ChainOf(s);
    ValidOwns(env, owner);
    assert chain != [] ==>
      SignedSchema(env, chain[|chain| - 1], owner.identity) && OwnLink(env, owner.identity, chain, |chain| - 1);
    PairedAttests(env, owner.identity, owner.privateKey.secret, LastOf(chain), ActionOf(env, owner, d), d.includedAt,
                  d.inclusionNonce);
    ZeroIsHash();
  }

  /** Signs an action, includes it behind the last stored inclusion, and stores both, or changes nothing. */
  method Record(env: Environment, db: PersonalDatabase, d: Draft) returns (recorded: bool)
    requires InUse(db.Contents())
    modifies db`actions, db`inclusions, db`outbox
    ensures recorded <==> Recordable(env, old(db.Contents()), d)
    ensures
      var s := old(db.Contents());
      db.Contents() == if !recorded then s
                       else Putting(s, ActionOf(env, s.owner.value, d), InclusionOf(env, s.owner.value, ChainOf(s), d))
    ensures Sound(env) && Settled(env, old(db.Contents())) && Supplied(env, d) ==>
      (recorded <==> SafeSequence(|old(ChainOf(db.Contents()))| + 1))
  {
    ghost var s := db.Contents();
    if Sound(env) && Settled(env, s) && Supplied(env, d) { SettledRecordable(env, s, d); }
    if !(Ascii("@greenways/") <= d.kind) {
      return false;
    }
    var owner, chain := db.owner.value, ChainOf(db.Contents());
    var action := ActionOf(env, owner, d);
    var inclusion := IncludeAction(env, owner.identity, owner.privateKey.secret, LastOf(chain), action, d.includedAt,
                                   d.inclusionNonce);
    if inclusion.None? {
      return false;
    }
    recorded := db.PutSignedRecord(action, inclusion.value);
  }

  // ---------------------------------------------------------------- every step keeps the store settled

  /** record() signs, includes and stores one action. */
  function Recorded(env: Environment, s: Store, d: Draft): Store
    requires InUse(s)
  {
    Appended(s, ActionOf(env, s.owner.value, d), InclusionOf(env, s.owner.value, ChainOf(s), d))
  }

  lemma {:induction false} SortedIn(items: seq<Stored>, h: Text)
    requires AllSigned(items) && forall i :: 0 <= i < |items| ==> items[i].signed.eventHash != h
    ensures forall i :: 0 <= i < |SortBy(SignedOf(items), signedPlace)| ==>
      SortBy(SignedOf(items), signedPlace)[i].eventHash != h
  {
    var values := SignedOf(items);
    SortElements(values, signedPlace);
    forall i | 0 <= i < |SortBy(values, signedPlace)| ensures SortBy(values, signedPlace)[i].eventHash != h {
      assert SortBy(values, signedPlace)[i] in multiset(values);
      var k :| 0 <= k < |values| && values[k] == SortBy(values, signedPlace)[i];
      assert items[k].signed == values[k];
    }
  }

  /** The longer store fits together. */
  lemma {:induction false} AppendFits(env: Environment, s: Store, a: Action, at: Text, nonce: nat)
    requires Sound(env) && Current(env, s) && OwnAction(env, a, s.owner.value.identity) && env.isTimestamp(at)
    requires
      var x := Included(env, s.owner.value.identity, s.owner.value.privateKey.secret, LastOf(ChainOf(s)), a, at, nonce);
      Fresh(s, a, x) && SafeSequence(|ChainOf(s)| + 1)
    ensures
      var x := Included(env, s.owner.value.identity, s.owner.value.privateKey.secret, LastOf(ChainOf(s)), a, at, nonce);
      Fits(env, s.owner.value, s.actions + [a], ChainOf(s) + [x], s.outbox + [Entry(a, x)])
  {
    var owner, chain := s.owner.value, ChainOf(s);
    var x := Included(env, owner.identity, owner.privateKey.secret, LastOf(chain), a, at, nonce);
    ChainExtends(env, owner, s.actions, chain, a, at, nonce);
    HistoryExtends(owner.migrations, chain, x);
    SortedIn(s.inclusions, x.eventHash);
    ValidOwns(env, owner);
    assert (chain + [x])[|chain|] == x;
    OutboxExtends(env, s, owner.identity, chain, a, x);
  }

  lemma {:induction false} AppendCurrent(env: Environment, s: Store, a: Action, at: Text, nonce: nat)
    requires Sound(env) && Current(env, s) && OwnAction(env, a, s.owner.value.identity) && env.isTimestamp(at)
    requires
      var x := Included(env, s.owner.value.identity, s.owner.value.privateKey.secret, LastOf(ChainOf(s)), a, at, nonce);
      Fresh(s, a, x) && SafeSequence(|ChainOf(s)| + 1)
    ensures
      var x := Included(env, s.owner.value.identity, s.owner.value.privateKey.secret, LastOf(ChainOf(s)), a, at, nonce);
      var t := Appended(s, a, x);
      Current(env, t) && ChainOf(t) == ChainOf(s) + [x]
  {
    var owner, chain := s.owner.value, ChainOf(s);
    var x := Included(env, owner.identity, owner.privateKey.secret, LastOf(chain), a, at, nonce);
    AppendFits(env, s, a, at, nonce);
    SortedAppend(env, owner.identity, s.inclusions, x);
    ActionsExtend(env, s, a, owner.identity);
  }

  lemma {:induction false} AcceptableKeeps(env: Environment, s: Store, d: Draft)
    requires Sound(env) && Settled(env, s) && InUse(s) && Supplied(env, d) && SafeSequence(|ChainOf(s)| + 1)
    requires Fresh(s, ActionOf(env, s.owner.value, d), InclusionOf(env, s.owner.value, ChainOf(s), d)) && Acceptable(d)
    ensures Settled(env, Recorded(env, s, d))
  {
    RecordedSchema(env, s.owner.value, d);
    AppendCurrent(env, s, ActionOf(env, s.owner.value, d), d.includedAt, d.inclusionNonce);
  }

  lemma LastInvalid(env: Environment, s: Store, a: Action, identity: Identity)
    requires !OwnAction(env, a, identity)
    ensures !ValidActions(env, s.actions + [a], identity)
  {
    assert (s.actions + [a])[|s.actions|] == a;
  }

  /** Recording an action keeps the store settled exactly when the caller's fields are acceptable;
      otherwise the next run of the migration fails. */
  lemma {:induction false} RecordKeeps(env: Environment, s: Store, d: Draft, inputs: Inputs)
    requires Sound(env) && Settled(env, s) && InUse(s) && Supplied(env, d) && SafeSequence(|ChainOf(s)| + 1)
    requires Fresh(s, ActionOf(env, s.owner.value, d), InclusionOf(env, s.owner.value, ChainOf(s), d))
    ensures Acceptable(d) ==> Settled(env, Recorded(env, s, d))
    ensures !Acceptable(d) ==> Migrated(env, Recorded(env, s, d), inputs) == Failed
  {
    if Acceptable(d) {
      AcceptableKeeps(env, s, d);
    } else {
      RecordedSchema(env, s.owner.value, d);
      LastInvalid(env, s, ActionOf(env, s.owner.value, d), s.owner.value.identity);
    }
  }

  // ---------------------------------------------------------------- sending

  /** The outbox without the entry at position k, which the server has accepted. */
  function Sent(s: Store, k: nat): Store
    requires k < |s.outbox|
  {
    s.(outbox := s.outbox[..k] + s.outbox[k + 1..])
  }

  lemma QueueWithout(outbox: seq<Outgoing>, k: nat, byRoot: map<Text, Action>, byHash: map<Text, Signed>)
    requires QueuedOutbox(outbox, byRoot, byHash) && k < |outbox|
    ensures QueuedOutbox(outbox[..k] + outbox[k + 1..], byRoot, byHash)
  {
    var less := outbox[..k] + outbox[k + 1..];
    forall i | 0 <= i < |less| ensures less[i] == outbox[if i < k then i else i + 1] {}
    forall i, j | 0 <= i < j < |less| ensures OutgoingRoots(less)[i] != OutgoingRoots(less)[j] {
      assert OutgoingRoots(outbox)[if i < k then i else i + 1] != OutgoingRoots(outbox)[if j < k then j else j + 1];
    }
  }

  lemma SendKeeps(env: Environment, s: Store, k: nat)
    requires Settled(env, s) && k < |s.outbox|
    ensures Settled(env, Sent(s, k))
  {
    QueueWithout(s.outbox, k, IndexOf(s.actions), ByHash(ChainOf(s)));
  }

  // ---------------------------------------------------------------- listing in another order

  /** The same records, listed in another order. */
  ghost predicate Shuffled(s: Store, t: Store) {
    && s.owner == t.owner && multiset(s.actions) == multiset(t.actions)
    && multiset(s.inclusions) == multiset(t.inclusions) && multiset(s.outbox) == multiset(t.outbox)
  }

  lemma {:induction false} SameElement<T>(a: seq<T>, b: seq<T>, i: nat)
    requires multiset(a) == multiset(b) && i < |b|
    ensures b[i] in a
  {
    assert b[i] in multiset(b);
    assert b[i] in multiset(a);
  }

  lemma {:induction false} Once<T>(s: seq<T>, x: T)
    requires Distinct(s)
    ensures multiset(s)[x] <= 1
  {
    if s != [] {
      SplitLast(s);
      Once(s[..|s| - 1], x);
    }
  }

  lemma {:induction false} Twice<T>(s: seq<T>, i: nat, j: nat)
    requires i < j < |s| && s[i] == s[j]
    ensures multiset(s)[s[i]] >= 2
  {
    assert s == s[..j] + s[j..];
    assert s[i] in multiset(s[..j]) by { assert s[..j][i] == s[i]; }
    assert s[j] in multiset(s[j..]) by { assert s[j..][0] == s[j]; }
  }

  predicate DistinctBy<T, K(==)>(s: seq<T>, key: T -> K) {
    forall i, j :: 0 <= i < j < |s| ==> key(s[i]) != key(s[j])
  }

  lemma {:induction false} DistinctShuffled<T, K>(a: seq<T>, b: seq<T>, key: T -> K)
    requires DistinctBy(a, key) && multiset(a) == multiset(b)
    ensures DistinctBy(b, key)
  {
    forall i, j | 0 <= i < j < |b| ensures key(b[i]) != key(b[j]) {
      Once(a, b[i]);
      SameElement(a, b, i);
      SameElement(a, b, j);
      if b[i] == b[j] { Twice(b, i, j); }
    }
  }

  const idOf: Action -> Text := (a: Action) => a.id
  const rootOf: Action -> Text := (a: Action) => a.root
  const outgoingRoot: Outgoing -> Text := (e: Outgoing) => e.action.root

  lemma {:induction false} DistinctActionsShuffled(a: seq<Action>, b: seq<Action>)
    requires DistinctActions(a) && multiset(a) == multiset(b)
    ensures DistinctActions(b)
  {
    DistinctShuffled(a, b, idOf);
    DistinctShuffled(a, b, rootOf);
    forall i, j | 0 <= i < j < |b| ensures b[i].id != b[j].id && b[i].root != b[j].root {
      assert idOf(b[i]) != idOf(b[j]) && rootOf(b[i]) != rootOf(b[j]);
    }
  }

  lemma {:induction false} RootsWithin(a: seq<Action>, b: seq<Action>)
    requires forall i :: 0 <= i < |a| ==> a[i] in b
    ensures Roots(a) <= Roots(b)
  {
    forall i | 0 <= i < |a| ensures a[i].root in Roots(b) {
      var k :| 0 <= k < |b| && b[k] == a[i];
      assert b[k].root in Roots(b);
    }
  }

  lemma {:induction false} IndexShuffled(a: seq<Action>, b: seq<Action>)
    requires DistinctActions(b) && Roots(a) == Roots(b) && forall i :: 0 <= i < |a| ==> a[i] in b
    ensures IndexOf(a) == IndexOf(b)
  {
    IndexKeys(a);
    IndexKeys(b);
    IndexFinds(b);
    forall r | r in IndexOf(a) ensures IndexOf(a)[r] == IndexOf(b)[r] {
      var k :| 0 <= k < |a| && a[k] == IndexOf(a)[r];
      var i :| 0 <= i < |b| && b[i] == a[k];
    }
  }

  lemma {:induction false} ActionsShuffled(env: Environment, a: seq<Action>, b: seq<Action>, identity: Identity)
    requires ValidActions(env, a, identity) && multiset(a) == multiset(b)
    ensures ValidActions(env, b, identity) && Roots(a) == Roots(b) && IndexOf(a) == IndexOf(b)
  {
    DistinctActionsShuffled(a, b);
    forall i | 0 <= i < |b| ensures b[i] in a { SameElement(a, b, i); }
    forall i | 0 <= i < |a| ensures a[i] in b { SameElement(b, a, i); }
    RootsWithin(a, b);
    RootsWithin(b, a);
    IndexShuffled(a, b);
    forall i | 0 <= i < |b| ensures OwnAction(env, b[i], identity) {
      var k :| 0 <= k < |a| && a[k] == b[i];
    }
  }

  lemma {:induction false} QueueShuffled(a: seq<Outgoing>, b: seq<Outgoing>, byRoot: map<Text, Action>,
          byHash: map<Text, Signed>)
    requires QueuedOutbox(a, byRoot, byHash) && multiset(a) == multiset(b)
    ensures QueuedOutbox(b, byRoot, byHash)
  {
    forall i, j | 0 <= i < j < |a| ensures outgoingRoot(a[i]) != outgoingRoot(a[j]) {
      assert OutgoingRoots(a)[i] != OutgoingRoots(a)[j];
    }
    DistinctShuffled(a, b, outgoingRoot);
    forall i, j | 0 <= i < j < |b| ensures OutgoingRoots(b)[i] != OutgoingRoots(b)[j] {
      assert outgoingRoot(b[i]) != outgoingRoot(b[j]);
    }
    forall i | 0 <= i < |b| ensures Queued(b[i], byRoot, byHash) { SameElement(a, b, i); }
  }

  lemma {:induction false} ItemsOf(items: seq<Stored>)
    requires AllSigned(items)
    ensures Wrapped(SignedOf(items)) == items
  {}

  lemma {:induction false} WrappedElements(a: seq<Signed>, x: Signed)
    ensures multiset(Wrapped(a))[SignedItem(x)] == multiset(a)[x]
  {
    if a != [] {
      SplitLast(a);
      SplitLast(Wrapped(a));
      assert Wrapped(a)[..|a| - 1] == Wrapped(a[..|a| - 1]);
      WrappedElements(a[..|a| - 1], x);
    }
  }

  lemma {:induction false} ChainShuffled(env: Environment, identity: Identity, a: seq<Stored>, b: seq<Stored>)
    requires AllSigned(a) && multiset(a) == multiset(b) && OwnChain(env, identity, SortBy(SignedOf(a), signedPlace))
    ensures AllSigned(b) && SortBy(SignedOf(b), signedPlace) == SortBy(SignedOf(a), signedPlace)
  {
    forall i | 0 <= i < |b| ensures b[i].SignedItem? { SameElement(a, b, i); }
    var v, w := SignedOf(a), SignedOf(b);
    var chain := SortBy(v, signedPlace);
    ItemsOf(a);
    ItemsOf(b);
    forall x: Signed ensures multiset(v)[x] == multiset(w)[x] {
      WrappedElements(v, x);
      WrappedElements(w, x);
    }
    assert multiset(v) == multiset(w);
    SortElements(v, signedPlace);
    forall i | 0 <= i < |chain| ensures chain[i].sequence == i + 1 { SequenceOf(env, identity, chain, i); }
    InOrder(chain);
    SortUnique(chain, w, signedPlace);
  }

  lemma {:induction false} EmptyShuffled<T>(a: seq<T>, b: seq<T>)
    requires multiset(a) == multiset(b)
    ensures a == [] <==> b == []
  {
    SameLength(a, b);
  }

  /** It does not matter in which order the database lists its records. */
  lemma {:induction false} ShuffleKeeps(env: Environment, s: Store, t: Store)
    requires Settled(env, s) && Shuffled(s, t)
    ensures Settled(env, t)
  {
    EmptyShuffled(s.actions, t.actions);
    EmptyShuffled(s.inclusions, t.inclusions);
    EmptyShuffled(s.outbox, t.outbox);
    if s.owner.Some? {
      var identity := s.owner.value.identity;
      ActionsShuffled(env, s.actions, t.actions, identity);
      ChainShuffled(env, identity, s.inclusions, t.inclusions);
      QueueShuffled(s.outbox, t.outbox, IndexOf(s.actions), ByHash(ChainOf(s)));
    }
  }
}
