/** Evidence bundles: the export of the personal records, and its verification. */
module Evidence {
  import opened Options
  import opened Lists
  import opened Json
  import opened JsonReading
  import opened Chain
  import opened Records
  import opened Migration
  import opened MigrationRun
  import opened MigrationSettles

  // ---------------------------------------------------------------- verifyPersonalChainMigration

  /** The i-th mapping names the i-th inclusion. */
  predicate Maps(bridge: Bridge, chain: seq<Signed>, i: nat)
    requires i < |bridge.mappings|
  {
    var m := bridge.mappings[i];
    && i < |chain| && m.sequence == i + 1 && chain[i].sequence == m.sequence
    && chain[i].actionRoot == m.actionRoot && chain[i].eventHash == m.signedEventHash
  }

  /** The record bridges the old chain to a prefix of this one, and is signed with a known key. */
  ghost predicate Bridges(env: Environment, a: Action, chain: seq<Signed>, keys: map<Text, Json>) {
    && a.kind == MIGRATED && a.subject == Some(a.identityId) && a.payload.Migration?
    && a.keyId in keys && VerifyAction(env, a, keys[a.keyId])
    && var bridge := a.payload.bridge;
    && bridge.mappings != [] && |bridge.mappings| <= |chain|
    && (forall i :: 0 <= i < |bridge.mappings| ==> Maps(bridge, chain, i))
    && Distinct(MappedRoots(bridge))
    && bridge.signedHead == chain[|bridge.mappings| - 1].eventHash
    && bridge.legacyHead == bridge.mappings[|bridge.mappings| - 1].legacyEventHash
    && Distinct(bridge.pending) && Elements(bridge.pending) <= Elements(MappedRoots(bridge))
  }

  method VerifyMappings(bridge: Bridge, chain: seq<Signed>) returns (ok: bool)
    ensures ok <==> Distinct(MappedRoots(bridge)) && forall i :: 0 <= i < |bridge.mappings| ==> Maps(bridge, chain, i)
  {
    var fits := (i: int) => 0 <= i < |bridge.mappings| && Maps(bridge, chain, i);
    ok := EachOnce(MappedRoots(bridge), fits);
    assert forall i :: 0 <= i < |bridge.mappings| ==> (fits(i) <==> Maps(bridge, chain, i));
  }

  method VerifyPersonalChainMigration(env: Environment, a: Action, chain: seq<Signed>,
          keys: map<Text, Json>) returns (ok: bool)
    ensures ok <==> Bridges(env, a, chain, keys)
  {
    if a.kind != MIGRATED || a.subject != Some(a.identityId) || !a.payload.Migration? {
      return false;
    }
    if a.keyId !in keys || !VerifyAction(env, a, keys[a.keyId]) {
      return false;
    }
    var bridge := a.payload.bridge;
    var n := |bridge.mappings|;
    if n == 0 || n > |chain| {
      return false;
    }
    var mapped := VerifyMappings(bridge, chain);
    if !mapped {
      return false;
    }
    DistinctCount(bridge.pending);
    return bridge.signedHead == chain[n - 1].eventHash && bridge.legacyHead == bridge.mappings[n - 1].legacyEventHash
      && |Elements(bridge.pending)| == |bridge.pending| && Elements(bridge.pending) <= Elements(MappedRoots(bridge));
  }

  /** A record that the migration accepts in its history also verifies on its own. */
  lemma HistoryBridges(env: Environment, a: Action, identity: Identity, chain: seq<Signed>)
    requires MigrationSchema(env, a, identity) && Linked(a.payload.bridge, chain)
    ensures Bridges(env, a, chain, KeysOf(identity))
  {
    var bridge := a.payload.bridge;
    forall i | 0 <= i < |bridge.mappings| ensures Maps(bridge, chain, i) {
      assert MappedTo(bridge, chain, i);
    }
    assert MappedTo(bridge, chain, |bridge.mappings| - 1);
  }

  // ---------------------------------------------------------------- bundles

  /** The public keys are the members of a JSON object, by key id. */
  datatype Bundle = Bundle(
    id: Text, exportedAt: Text, project: Json, publicKeys: seq<Member>, identities: seq<Identity>,
    actions: seq<Action>, inclusions: seq<Signed>, migrations: seq<Action>, root: Text)

  function IdentityJson(x: Identity): Json {
    Obj([
      M("type", Str(Ascii("GreenwaysIdentityCard"))), M("version", Num(Numerals(1))),
      M("identityId", Str(x.identityId)), M("handle", Str(x.handle)), M("keyId", Str(x.keyId)),
      M("algorithm", Str(Ascii("ECDSA-P256-SHA256"))), M("publicKey", x.publicKey), M("createdAt", Str(x.createdAt))])
  }

  /** The part of a bundle that its root commits to. */
  function BundleBody(b: Bundle): Json {
    Obj([
      M("protocol", Str(Ascii("greenways-evidence-bundle/0-alpha"))), M("id", Str(b.id)),
      M("exportedAt", Str(b.exportedAt)),
      M("project", b.project), M("publicKeys", Obj(b.publicKeys)),
      M("identities", Arr(seq(|b.identities|, i requires 0 <= i < |b.identities| => IdentityJson(b.identities[i])))),
      M("actions", Arr(seq(|b.actions|, i requires 0 <= i < |b.actions| => ActionJson(b.actions[i])))),
      M("inclusions", Arr(seq(|b.inclusions|, i requires 0 <= i < |b.inclusions| => SignedJson(b.inclusions[i])))),
      M("personalChainMigrations",
        Arr(seq(|b.migrations|, i requires 0 <= i < |b.migrations| => ActionJson(b.migrations[i]))))])
  }

  function KeyMap(ms: seq<Member>): map<Text, Json> {
    if ms == [] then map[] else KeyMap(ms[..|ms| - 1])[ms[|ms| - 1].key := ms[|ms| - 1].value]
  }

  function CreateBundle(env: Environment, id: Text, at: Text, project: Json, identity: Identity, actions: seq<Action>,
                        inclusions: seq<Signed>, migrations: seq<Action>): Bundle {
    var b := Bundle(id, at, project, [Member(identity.keyId, identity.publicKey)], [identity], actions, inclusions,
                    migrations, []);
    b.(root := env.crypto.hash(Canonical(BundleBody(b))))
  }

  /** The verifier's findings. */
  datatype Flaw =
    | RootMismatch | ChainInvalid | ActionInvalid(id: Text) | ActionMissing(root: Text) | MigrationInvalid(index: nat)

  predicate ActionVerifies(env: Environment, a: Action, keys: map<Text, Json>) {
    a.keyId in keys && VerifyAction(env, a, keys[a.keyId])
  }

  /** Whether a flaw is one of the bundle's. */
  ghost predicate HasFlaw(env: Environment, b: Bundle, flaw: Flaw) {
    var keys := KeyMap(b.publicKeys);
    match flaw
    case RootMismatch => b.root != env.crypto.hash(Canonical(BundleBody(b)))
    case ChainInvalid => !ValidChain(env.crypto, ToInclusions(b.inclusions), keys)
    case ActionInvalid(id) =>
      exists i :: 0 <= i < |b.actions| && b.actions[i].id == id && !ActionVerifies(env, b.actions[i], keys)
    case ActionMissing(root) =>
      exists i :: 0 <= i < |b.inclusions| && b.inclusions[i].actionRoot == root && root !in Roots(b.actions)
    case MigrationInvalid(i) => i < |b.migrations| && !Bridges(env, b.migrations[i], b.inclusions, keys)
  }

  method ActionFlaws(env: Environment, actions: seq<Action>, keys: map<Text, Json>) returns (flaws: seq<Flaw>)
    ensures forall f :: f in flaws <==>
      && f.ActionInvalid?
      && exists i :: 0 <= i < |actions| && actions[i].id == f.id && !ActionVerifies(env, actions[i], keys)
  {
    flaws := [];
    for i := 0 to |actions|
      invariant forall f :: f in flaws <==>
        f.ActionInvalid? && exists k :: 0 <= k < i && actions[k].id == f.id && !ActionVerifies(env, actions[k], keys)
    {
      if !ActionVerifies(env, actions[i], keys) {
        flaws := flaws + [ActionInvalid(actions[i].id)];
      }
    }
  }

  method MissingFlaws(chain: seq<Signed>, roots: set<Text>) returns (flaws: seq<Flaw>)
    ensures forall f :: f in flaws <==>
      f.ActionMissing? && exists i :: 0 <= i < |chain| && chain[i].actionRoot == f.root && f.root !in roots
  {
    flaws := [];
    for i := 0 to |chain|
      invariant forall f :: f in flaws <==>
        f.ActionMissing? && exists k :: 0 <= k < i && chain[k].actionRoot == f.root && f.root !in roots
    {
      if chain[i].actionRoot !in roots {
        flaws := flaws + [ActionMissing(chain[i].actionRoot)];
      }
    }
  }

  method MigrationFlaws(env: Environment, migrations: seq<Action>, chain: seq<Signed>,
          keys: map<Text, Json>) returns (flaws: seq<Flaw>)
    ensures forall f :: f in flaws <==>
      f.MigrationInvalid? && f.index < |migrations| && !Bridges(env, migrations[f.index], chain, keys)
  {
    flaws := [];
    for i := 0 to |migrations|
      invariant forall f :: f in flaws <==>
        f.MigrationInvalid? && f.index < i && !Bridges(env, migrations[f.index], chain, keys)
    {
      var ok := VerifyPersonalChainMigration(env, migrations[i], chain, keys);
      if !ok {
        flaws := flaws + [MigrationInvalid(i)];
      }
    }
  }

  /** The verifier reports exactly the bundle's flaws. */
  method VerifyEvidenceBundle(env: Environment, b: Bundle) returns (valid: bool, errors: seq<Flaw>)
    ensures forall f :: f in errors <==> HasFlaw(env, b, f)
    ensures valid <==> forall f :: !HasFlaw(env, b, f)
  {
    var keys := KeyMap(b.publicKeys);
    errors := if b.root != env.crypto.hash(Canonical(BundleBody(b))) then [RootMismatch] else [];
    var chainOk := VerifyPersonalChain(env.crypto, ToInclusions(b.inclusions), keys);
    if !chainOk {
      errors := errors + [ChainInvalid];
    }
    ghost var own := errors;
    assert forall f :: f in own <==> (f.RootMismatch? || f.ChainInvalid?) && HasFlaw(env, b, f);
    var actionErrors := ActionFlaws(env, b.actions, keys);
    var missing := MissingFlaws(b.inclusions, Roots(b.actions));
    var migrationErrors := MigrationFlaws(env, b.migrations, b.inclusions, keys);
    errors := errors + actionErrors + missing + migrationErrors;
    forall f ensures f in errors <==> HasFlaw(env, b, f) {
      match f
      case RootMismatch =>
      case ChainInvalid =>
      case ActionInvalid(_) =>
      case ActionMissing(_) =>
      case MigrationInvalid(_) =>
    }
    if errors != [] {
      assert HasFlaw(env, b, errors[0]);
    }
    valid := errors == [];
  }

  // ---------------------------------------------------------------- the export

  /** What exportEvidence puts into a bundle: the stored records, inclusions in order. */
  ghost function Exported(env: Environment, s: Store, id: Text, at: Text, project: Json): Bundle
    requires Current(env, s)
  {
    CreateBundle(env, id, at, project, s.owner.value.identity, s.actions, ChainOf(s), s.owner.value.migrations)
  }

  lemma RootCommits(env: Environment, id: Text, at: Text, project: Json, identity: Identity, actions: seq<Action>,
          chain: seq<Signed>, migrations: seq<Action>)
    ensures
      var b := CreateBundle(env, id, at, project, identity, actions, chain, migrations);
      b.root == env.crypto.hash(Canonical(BundleBody(b))) && KeyMap(b.publicKeys) == KeysOf(identity)
  {
    var b := CreateBundle(env, id, at, project, identity, actions, chain, migrations);
    assert BundleBody(b) == BundleBody(b.(root := []));
  }

  lemma StoredVerify(env: Environment, s: Store)
    requires Current(env, s)
    ensures
      var owner, keys := s.owner.value, KeysOf(s.owner.value.identity);
      && ValidChain(env.crypto, ToInclusions(ChainOf(s)), keys)
      && (forall i :: 0 <= i < |s.actions| ==> ActionVerifies(env, s.actions[i], keys))
      && (forall i :: 0 <= i < |ChainOf(s)| ==> ChainOf(s)[i].actionRoot in Roots(s.actions))
      && (forall i :: 0 <= i < |owner.migrations| ==> Bridges(env, owner.migrations[i], ChainOf(s), keys))
  {
    var owner, chain := s.owner.value, ChainOf(s);
    ValidOwns(env, owner);
    OwnChainValid(env, owner.identity, chain);
    forall i | 0 <= i < |s.actions| ensures ActionVerifies(env, s.actions[i], KeysOf(owner.identity)) {
      assert OwnAction(env, s.actions[i], owner.identity);
    }
    forall i | 0 <= i < |chain| ensures chain[i].actionRoot in Roots(s.actions) {
      assert SignedRoots(chain)[i] in Roots(s.actions);
    }
    forall i | 0 <= i < |owner.migrations| ensures Bridges(env, owner.migrations[i], chain, KeysOf(owner.identity)) {
      HistoryBridges(env, owner.migrations[i], owner.identity, chain);
    }
  }

  /** The evidence of every store in the present format verifies without a flaw. */
  lemma ExportVerifies(env: Environment, s: Store, id: Text, at: Text, project: Json, flaw: Flaw)
    requires Current(env, s)
    ensures !HasFlaw(env, Exported(env, s, id, at, project), flaw)
  {
    StoredVerify(env, s);
    RootCommits(env, id, at, project, s.owner.value.identity, s.actions, ChainOf(s), s.owner.value.migrations);
  }

  /** So does the evidence exported after a migration, with the record of that migration in it. */
  lemma MigratedExportVerifies(env: Environment, s: Store, inputs: Inputs, id: Text, at: Text, project: Json,
          flaw: Flaw)
    requires Sound(env) && Ready(env, inputs) && Unsigned(env, s) && Distinct(HashesOf(UpgradeOf(env, s, inputs).chain))
    ensures
      var t := Migrated(env, s, inputs);
      && t.Replaced? && Current(env, t.store) && !HasFlaw(env, Exported(env, t.store, id, at, project), flaw)
      && Exported(env, t.store, id, at, project).migrations == UpgradeOf(env, s, inputs).owner.migrations
      && |UpgradeOf(env, s, inputs).owner.migrations| == 1
  {
    MigrationSettled(env, s, inputs);
    ExportVerifies(env, Migrated(env, s, inputs).store, id, at, project, flaw);
  }
}
