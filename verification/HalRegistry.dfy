/** The namespaces of module generations, and the registry that hands the generations out. */
module HalRegistry {
  import opened Options
  import opened HalScanner
  import opened HalRewriter
  import opened HalIsolation

  // ---------------------------------------------------------------- generation roots

  lemma {:induction false} RootIsRoot(id: string, generation: nat)
    requires IsAppId(id)
    ensures IsRoot(Root(id, generation))
  {
    var root := Root(id, generation);
    forall i | 0 <= i < |root| ensures !Breaks(root[i]) && root[i] != '/' {
      if 4 <= i < 4 + |id| {
        assert root[i] == id[i - 4] && AppIdChar(id, i - 4);
      } else if 6 + |id| <= i {
        assert root[i] == Decimal(generation)[i - 6 - |id|];
      }
    }
    assert root[..4] == "app.";
  }

  lemma {:induction false} DecimalInjective(m: nat, n: nat)
    requires Decimal(m) == Decimal(n)
    ensures m == n
  {
    var s, t := Decimal(m), Decimal(n);
    assert s[|s| - 1] == t[|t| - 1];
    assert s[..|s| - 1] == t[..|t| - 1];
    assert m >= 10 ==> s[..|s| - 1] == Decimal(m / 10) && Decimal(m / 10) != "";
    assert n >= 10 ==> t[..|t| - 1] == Decimal(n / 10) && Decimal(n / 10) != "";
    if m >= 10 {
      DecimalInjective(m / 10, n / 10);
    }
  }

  /** Digits end where a dot follows. */
  lemma {:induction false} DigitsEnd(a: string, x: string, b: string, y: string)
    requires forall i :: 0 <= i < |a| ==> '0' <= a[i] <= '9'
    requires forall i :: 0 <= i < |b| ==> '0' <= b[i] <= '9'
    requires a + "." + x == b + "." + y
    ensures a == b && x == y
  {
    var s, t := a + "." + x, b + "." + y;
    assert s[0] == (if a == "" then '.' else a[0]) && t[0] == (if b == "" then '.' else b[0]);
    if a != "" && b != "" {
      assert s[1..] == a[1..] + "." + x && t[1..] == b[1..] + "." + y;
      DigitsEnd(a[1..], x, b[1..], y);
    } else {
      assert s[1..] == x && t[1..] == y;
    }
  }

  /** Within one app, a namespace under a root determines the generation and the name. */
  lemma GenerationsApart(id: string, m: nat, x: string, n: nat, y: string)
    requires Target(Root(id, m), x) == Target(Root(id, n), y)
    ensures m == n && x == y
  {
    var stem := "app." + id + ".g";
    assert Target(Root(id, m), x) == stem + (Decimal(m) + "." + x);
    assert Target(Root(id, n), y) == stem + (Decimal(n) + "." + y);
    assert Target(Root(id, m), x)[|stem|..] == Decimal(m) + "." + x;
    assert Target(Root(id, n), y)[|stem|..] == Decimal(n) + "." + y;
    DigitsEnd(Decimal(m), x, Decimal(n), y);
    DecimalInjective(m, n);
  }

  // ---------------------------------------------------------------- two apps

  /** Two apps can be given the same namespace. */
  ghost predicate Collide(a: string, b: string) {
    exists m: nat, x, n: nat, y :: 1 <= m && 1 <= n && IsNamespace(x) && IsNamespace(y)
      && Target(Root(a, m), x) == Target(Root(b, n), y)
  }

  predicate NestedBy(a: string, b: string, m: nat, tail: string) {
    && 1 <= m && b == a + (".g" + Decimal(m)) + tail
    && (tail == "" || (|tail| > 1 && tail[0] == '.' && 'a' <= tail[1] <= 'z'))
  }

  /** The id b reads like a namespace under a generation root of a. */
  ghost predicate Nested(a: string, b: string) {
    exists m: nat, tail :: NestedBy(a, b, m, tail)
  }

  /** Two different ids are given a common namespace exactly when one is nested under the other. */
  lemma CollideExactly(a: string, b: string)
    requires IsAppId(a) && IsAppId(b) && a != b
    ensures Collide(a, b) <==> Nested(a, b) || Nested(b, a)
  {
    if Collide(a, b) {
      var m: nat, x, n: nat, y :| 1 <= m && 1 <= n && IsNamespace(x) && IsNamespace(y)
        && Target(Root(a, m), x) == Target(Root(b, n), y);
      if |a| <= |b| {
        CollisionNests(a, m, x, b, n, y);
      } else {
        CollisionNests(b, n, y, a, m, x);
      }
    }
    if Nested(a, b) {
      NestedCollides(a, b);
    }
    if Nested(b, a) {
      NestedCollides(b, a);
      assert Collide(b, a);
    }
  }

  /** The part of a namespace after the id. */
  function AfterId(m: nat, x: string): string {
    (".g" + Decimal(m)) + ("." + x)
  }

  lemma TargetParts(id: string, m: nat, x: string)
    ensures Target(Root(id, m), x) == "app." + (id + AfterId(m, x))
  {}

  lemma CollisionNests(a: string, m: nat, x: string, b: string, n: nat, y: string)
    requires IsAppId(a) && IsAppId(b) && a != b && |a| <= |b| && 1 <= m && IsNamespace(x)
    requires Target(Root(a, m), x) == Target(Root(b, n), y)
    ensures Nested(a, b)
  {
    TargetParts(a, m, x);
    TargetParts(b, n, y);
    var s, t := a + AfterId(m, x), b + AfterId(n, y);
    assert s == Target(Root(a, m), x)[4..] && t == Target(Root(b, n), y)[4..];
    assert a == s[..|a|] == b[..|a|];
    var u := b[|a|..];
    assert b == a + u && u != "";
    assert AfterId(m, x) == s[|a|..] == t[|a|..] == u + AfterId(n, y);
    CutAfterDigits(m, x, u, AfterId(n, y));
    var stem := ".g" + Decimal(m);
    var tail := u[|stem|..];
    assert u == stem + tail && b == a + stem + tail;
    TailIsName(b, tail, x, AfterId(n, y));
    assert NestedBy(a, b, m, tail);
  }

  lemma CutAfterDigits(m: nat, x: string, u: string, v: string)
    requires u != "" && v != "" && v[0] == '.' && AfterId(m, x) == u + v
    ensures ".g" + Decimal(m) <= u
    ensures "." + x == u[|".g" + Decimal(m)|..] + v
  {
    var stem := ".g" + Decimal(m);
    var whole := AfterId(m, x);
    assert whole[|u|] == v[0] == '.';
    assert forall i :: 1 <= i < |stem| ==> whole[i] == stem[i] && stem[i] != '.';
    assert stem == whole[..|stem|] == u[..|stem|];
    assert whole[|stem|..] == "." + x;
  }

  lemma TailIsName(b: string, tail: string, x: string, v: string)
    requires IsAppId(b) && |tail| <= |b| && b[|b| - |tail|..] == tail && IsNamespace(x)
    requires "." + x == tail + v
    ensures tail == "" || (|tail| > 1 && tail[0] == '.' && 'a' <= tail[1] <= 'z')
  {
    if tail != "" {
      assert ("." + x)[0] == tail[0];
      assert AppIdChar(b, |b| - 1) && b[|b| - 1] == tail[|tail| - 1];
      assert ("." + x)[1] == x[0];
    }
  }

  lemma NestedCollides(a: string, b: string)
    requires IsAppId(a) && IsAppId(b) && Nested(a, b)
    ensures Collide(a, b)
  {
    var m: nat, tail :| NestedBy(a, b, m, tail);
    var x := (tail + ".g1.x")[1..];
    InnerName(b, tail);
    TargetParts(a, m, x);
    TargetParts(b, 1, "x");
    assert Decimal(1) == "1";
    assert AfterId(1, "x") == ".g1.x";
    var stem := ".g" + Decimal(m);
    assert "." + x == tail + ".g1.x";
    assert a + (stem + ("." + x)) == (a + stem + tail) + ".g1.x";
    assert NamespaceChar("x", 0);
    assert IsNamespace("x");
  }

  lemma InnerName(b: string, tail: string)
    requires IsAppId(b) && |tail| <= |b| && b[|b| - |tail|..] == tail
    requires tail == "" || (|tail| > 1 && tail[0] == '.' && 'a' <= tail[1] <= 'z')
    ensures IsNamespace((tail + ".g1.x")[1..])
  {
    var x := (tail + ".g1.x")[1..];
    forall i | 0 <= i < |x| ensures NamespaceChar(x, i) {
      if i + 1 < |tail| {
        var at := |b| - |tail| + i + 1;
        assert x[i] == tail[i + 1] == b[at] && AppIdChar(b, at);
        if i + 2 < |tail| { assert x[i + 1] == tail[i + 2] == b[at + 1]; }
      } else {
        var k := i + 1 - |tail|;
        assert x[i] == ".g1.x"[k] && (k < 4 ==> x[i + 1] == ".g1.x"[k + 1]);
      }
    }
  }

  /** Ids without dots never collide. */
  lemma DotFreeApart(a: string, b: string)
    requires IsAppId(a) && IsAppId(b) && a != b && '.' !in a && '.' !in b
    ensures !Collide(a, b)
  {
    CollideExactly(a, b);
    forall m: nat, tail ensures !NestedBy(a, b, m, tail) && !NestedBy(b, a, m, tail) {
      assert (a + (".g" + Decimal(m)) + tail)[|a|] == '.';
      assert (b + (".g" + Decimal(m)) + tail)[|b|] == '.';
    }
  }

  /** Dotted ids do: generation 1 of "a" and generation 2 of "a.g1" can share a namespace. */
  lemma DottedCollision()
    ensures IsAppId("a") && IsAppId("a.g1") && IsNamespace("g2.x") && IsNamespace("x")
    ensures Target(Root("a", 1), "g2.x") == Target(Root("a.g1", 2), "x")
  {
    assert Decimal(1) == "1" && Decimal(2) == "2";
  }

  // ---------------------------------------------------------------- the registry

  datatype Staged = Staged(id: string, lockDigest: string, entryNamespace: string, entryName: string,
                           resources: seq<Resource>)

  datatype Descriptor =
    Descriptor(id: string, generation: nat, root: string, lockDigest: string, entry: string, staged: Staged)

  predicate IsDigest(s: string) {
    && |s| == 71 && s[..7] == "sha256:"
    && forall i :: 7 <= i < 71 ==> '0' <= s[i] <= '9' || 'a' <= s[i] <= 'f'
  }

  predicate IsVarName(s: string) {
    && s != "" && !('0' <= s[0] <= '9')
    && forall i :: 0 <= i < |s| ==>
         'a' <= s[i] <= 'z' || 'A' <= s[i] <= 'Z' || '0' <= s[i] <= '9' || s[i] in "*+!_?<>=$%&.-"
  }

  /** What staging checks before it takes a generation number. */
  predicate WellStaged(m: Staged) {
    && IsAppId(m.id) && IsDigest(m.lockDigest) && IsNamespace(m.entryNamespace) && IsVarName(m.entryName)
    && Stageable(m.resources) && m.entryNamespace in Names(m.resources)
  }

  datatype Kind = Install | Reload | Remove

  datatype TransactionState = Prepared | Committed | RolledBack

  /** A transaction that install, reload or remove has prepared; it takes effect at most once. */
  class Transaction {
    const kind: Kind
    const id: string
    const descriptor: Descriptor
    var state: TransactionState

    constructor (kind: Kind, id: string, descriptor: Descriptor)
      ensures this.kind == kind && this.id == id && this.descriptor == descriptor && state == Prepared
    {
      this.kind, this.id, this.descriptor, state := kind, id, descriptor, Prepared;
    }

    method Rollback() returns (done: bool)
      modifies this
      ensures done == (old(state) == Prepared)
      ensures state == if done then RolledBack else old(state)
    {
      done := state == Prepared;
      if done {
        state := RolledBack;
      }
    }
  }

  /** A generation number handed out for an app. */
  datatype Issue = Issue(id: string, generation: nat)

  class ModuleRuntime {
    var installed: map<string, Descriptor>
    var counters: map<string, nat>
    ghost var issued: seq<Issue>

    /** No number is handed out twice, and whatever is installed runs under a number of its own. */
    ghost predicate Valid()
      reads this
    {
      && (forall i :: 0 <= i < |issued| ==>
            issued[i].id in counters && 1 <= issued[i].generation <= counters[issued[i].id])
      && (forall i, j :: 0 <= i < j < |issued| ==> issued[i] != issued[j])
      && (forall id :: id in installed ==> Sound(installed[id], id, issued))
    }

    constructor ()
      ensures Valid() && installed == map[] && counters == map[] && issued == []
    {
      installed, counters, issued := map[], map[], [];
    }

    method NextGeneration(id: string) returns (generation: nat)
      requires Valid()
      modifies this`counters, this`issued
      ensures Valid()
      ensures generation == 1 + (if id in old(counters) then old(counters)[id] else 0)
      ensures counters == old(counters)[id := generation]
      ensures issued == old(issued) + [Issue(id, generation)]
      ensures Issue(id, generation) !in old(issued)
    {
      generation := (if id in counters then counters[id] else 0) + 1;
      counters := counters[id := generation];
      issued := issued + [Issue(id, generation)];
    }

    /** Stages a module under a new generation. The number is spent even if the sources are then
        rejected or the host cannot load them. */
    method Stage(m: Staged, hostLoads: bool) returns (descriptor: Option<Descriptor>)
      requires Valid()
      modifies this`counters, this`issued
      ensures Valid() && old(issued) <= issued
      ensures |issued| == |old(issued)| + if WellStaged(m) then 1 else 0
      ensures WellStaged(m) ==> issued[|issued| - 1].id == m.id && issued[|issued| - 1] !in old(issued)
      ensures descriptor.Some? <==>
        WellStaged(m) && hostLoads && Acceptable(m.id, issued[|issued| - 1].generation, m.resources)
      ensures descriptor.Some? ==>
        && descriptor.value.staged == m && descriptor.value.generation == issued[|issued| - 1].generation
        && Sound(descriptor.value, m.id, issued)
        && Issue(m.id, descriptor.value.generation) !in old(issued)
    {
      if !WellStaged(m) {
        return None;
      }
      var generation := NextGeneration(m.id);
      var rewritten := RewriteModule(m.id, generation, m.resources);
      if rewritten.Rejected? || !hostLoads {
        return None;
      }
      var entry := rewritten.mapping[m.entryNamespace] + "/" + m.entryName;
      descriptor := Some(Descriptor(m.id, generation, rewritten.root, m.lockDigest, entry, m));
      assert issued[|issued| - 1] in issued;
    }

    method PrepareInstall(m: Staged, hostLoads: bool) returns (t: Option<Transaction>)
      requires Valid()
      modifies this`counters, this`issued
      ensures Valid() && old(issued) <= issued
      ensures m.id in installed ==> t.None? && issued == old(issued)
      ensures t.Some? ==>
        && fresh(t.value) && t.value.kind == Install && Admissible(t.value)
        && t.value.id == m.id && Issue(m.id, t.value.descriptor.generation) !in old(issued)
    {
      if !IsAppId(m.id) || m.id in installed {
        return None;
      }
      var descriptor := Stage(m, hostLoads);
      if descriptor.None? {
        return None;
      }
      var transaction := new Transaction(Install, m.id, descriptor.value);
      return Some(transaction);
    }

    /** Without a new module, the installed one is staged again. */
    method PrepareReload(id: string, m: Option<Staged>, hostLoads: bool) returns (t: Option<Transaction>)
      requires Valid()
      modifies this`counters, this`issued
      ensures Valid() && old(issued) <= issued
      ensures id !in installed ==> t.None? && issued == old(issued)
      ensures t.Some? ==>
        && fresh(t.value) && t.value.kind == Reload && Admissible(t.value)
        && t.value.id == id && Issue(id, t.value.descriptor.generation) !in old(issued)
      ensures t.Some? && m.None? ==> t.value.descriptor.staged == installed[id].staged
    {
      if !IsAppId(id) || id !in installed {
        return None;
      }
      var descriptor := Stage(match m case Some(given) => given case None => installed[id].staged, hostLoads);
      if descriptor.None? || descriptor.value.id != id {
        return None;
      }
      var transaction := new Transaction(Reload, id, descriptor.value);
      return Some(transaction);
    }

    method PrepareRemove(id: string) returns (t: Option<Transaction>)
      requires Valid()
      ensures id !in installed ==> t.None?
      ensures t.Some? ==>
        && fresh(t.value) && t.value.kind == Remove && Admissible(t.value)
        && t.value.id == id && t.value.descriptor == installed[id]
    {
      if !IsAppId(id) || id !in installed {
        return None;
      }
      var transaction := new Transaction(Remove, id, installed[id]);
      return Some(transaction);
    }

    /** A prepared transaction of this registry that may still be committed. */
    ghost predicate Admissible(t: Transaction)
      reads this, t
    {
      t.state == Prepared && Sound(t.descriptor, t.id, issued)
    }

    /** Commits a transaction, whatever was prepared or committed since. It hands out no number. */
    method Commit(t: Transaction) returns (done: bool)
      requires Valid() && Sound(t.descriptor, t.id, issued)
      modifies this`installed, t
      ensures Valid()
      ensures done == (old(t.state) == Prepared)
      ensures !done ==> installed == old(installed) && t.state == old(t.state)
      ensures done ==> t.state == Committed
      ensures done ==>
        installed == if t.kind == Remove then old(installed) - {t.id} else old(installed)[t.id := t.descriptor]
    {
      done := t.state == Prepared;
      if done {
        if t.kind == Remove {
          installed := installed - {t.id};
        } else {
          installed := installed[t.id := t.descriptor];
        }
        t.state := Committed;
      }
    }
  }

  /** A descriptor of the app `id` that names a generation handed out to it and its root. */
  ghost predicate Sound(d: Descriptor, id: string, issued: seq<Issue>) {
    && d.id == id && Issue(id, d.generation) in issued
    && d.root == Root(id, d.generation)
    && d.entry == Target(d.root, d.staged.entryNamespace) + "/" + d.staged.entryName
  }
}
