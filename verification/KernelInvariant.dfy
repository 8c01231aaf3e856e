/** What every step of the kernel host keeps, from any start and with a crash at any await. */
module KernelInvariant {
  import opened Options
  import opened Lists
  import opened Kernel

  // ---------------------------------------------------------------- the log of receipts

  /** No id returns among 128 receipts in a row. */
  predicate Windowed(history: seq<Receipt>) {
    forall i, j :: 0 <= i < j < |history| && j - i <= MAX_RECEIPTS ==> history[i].id != history[j].id
  }

  ghost predicate GlobalKept(s: Host) {
    && Windowed(s.history)
    && match s.stores.global
       case None => s.history == [] && s.written == []
       case Some(g) =>
         && g.receipts == Last(MAX_RECEIPTS, s.history)
         && s.written != [] && s.written[|s.written| - 1] == g
  }

  /** Revisions of the global envelope never go back, and one revision stands for one list of
      approvals and grants. */
  predicate WrittenKept(written: seq<Global>) {
    forall i, j :: 0 <= i < j < |written| ==>
      && written[i].revision <= written[j].revision
      && (written[i].revision == written[j].revision ==>
            written[i].installed == written[j].installed && GrantsOf(written[i]) == GrantsOf(written[j]))
  }

  function Count(clients: seq<string>, client: string): nat {
    if clients == [] then 0
    else Count(clients[..|clients| - 1], client) + if clients[|clients| - 1] == client then 1 else 0
  }

  function BaseOf(base: map<string, nat>, client: string): nat {
    if client in base then base[client] else 0
  }

  /** The revision of a context counts the commits made from it. */
  ghost predicate ContextsKept(s: Host) {
    && (forall client :: client in s.stores.contexts ==>
          s.stores.contexts[client].revision == BaseOf(s.base, client) + Count(s.committers, client))
    && (forall client :: client !in s.stores.contexts ==> client !in s.base && Count(s.committers, client) == 0)
  }

  // ---------------------------------------------------------------- what an operation holds

  /** The envelope an operation has read is still the stored one. */
  predicate Holds(d: Stores, g: Global) {
    d.global == Some(g)
  }

  predicate HoldsContext(d: Stores, client: string, c: Context) {
    client in d.contexts && d.contexts[client] == c
  }

  predicate HoldsWork(d: Stores, w: Work) {
    && Holds(d, w.global) && HoldsContext(d, w.request.client, w.context)
    && w.previous.installed == w.global.installed && !HasReceipt(w.global.receipts, w.request.id)
  }

  ghost predicate PhaseKept(s: Host) {
    match s.phase
    case Idle => true
    case LoadingGlobal(_) => true
    case ReplacingGlobal(_, g) =>
      && g.grants.Some?
      && (s.stores.global.None? ==> g.receipts == [])
      && (s.stores.global.Some? ==>
            g.receipts == s.stores.global.value.receipts && g.revision == s.stores.global.value.revision + 1)
    case LoadingContext(_, g) => Holds(s.stores, g)
    case CreatingContext(op, g, c) => Holds(s.stores, g) && ClientOf(op) !in s.stores.contexts && c.revision == 0
    case Loaded(op, g, c) => Holds(s.stores, g) && HoldsContext(s.stores, ClientOf(op), c)
    case Preparing(w, _) => HoldsWork(s.stores, w) && w.request.id !in s.stores.prepared
    case Running(w, _, _) => HoldsWork(s.stores, w) && w.request.id in s.stores.prepared
    case Attempting(w, _, _) => HoldsWork(s.stores, w) && w.request.id in s.stores.prepared
    case Recovering(w, _) => HoldsWork(s.stores, w) && w.request.id in s.stores.prepared
    case RollingBack(w) => HoldsWork(s.stores, w)
    case Announcing(w, g, c) =>
      Holds(s.stores, g) && HoldsContext(s.stores, w.request.client, c) && w.next.installed == g.installed
  }

  ghost predicate Durable(s: Host) {
    GlobalKept(s) && WrittenKept(s.written) && ContextsKept(s) && Projected(s.stores) && PhaseKept(s)
  }

  // ---------------------------------------------------------------- steps

  lemma UpgradeIs(stored: Global, catalog: Catalog, now: int)
    requires Upgrade(stored, catalog, now).Some?
    ensures
      var g := Upgrade(stored, catalog, now).value;
      && g.receipts == stored.receipts
      && (g != stored ==> g.grants.Some? && g.revision == stored.revision + 1)
      && g.grants.Some?
  {}

  predicate Loads(step: Step) {
    step.FirstGlobal? || step.ReadGlobal? || step.WriteGlobal? || step.ReadContext? || step.WriteContext?
  }

  lemma LoadStep(s: Host, step: Step, catalog: Catalog)
    requires PhaseKept(s) && Enabled(s, step, catalog) && Loads(step)
    ensures PhaseKept(Apply(s, step, catalog))
  {
    if step.ReadGlobal? {
      UpgradeIs(s.stores.global.value, catalog, step.now);
    }
  }

  lemma WorkStep(s: Host, step: Step, catalog: Catalog)
    requires PhaseKept(s) && Enabled(s, step, catalog) && !Loads(step)
    ensures PhaseKept(Apply(s, step, catalog))
  {}

  lemma PhaseStep(s: Host, step: Step, catalog: Catalog)
    requires PhaseKept(s) && Enabled(s, step, catalog)
    ensures PhaseKept(Apply(s, step, catalog))
  {
    if Loads(step) {
      LoadStep(s, step, catalog);
    } else {
      WorkStep(s, step, catalog);
    }
  }

  /** Only the two global transactions write the global envelope and its projections. */
  lemma GlobalFrame(s: Host, step: Step, catalog: Catalog)
    requires Enabled(s, step, catalog)
    ensures
      var t := Apply(s, step, catalog);
      && (!step.Commit? ==> t.history == s.history && t.committers == s.committers)
      && (!step.Commit? && !step.WriteGlobal? ==>
            && t.written == s.written && t.stores.global == s.stores.global
            && t.stores.apps == s.stores.apps && t.stores.grants == s.stores.grants)
  {}

  lemma LastSteps(history: seq<Receipt>, receipt: Receipt)
    ensures Last(MAX_RECEIPTS, Last(MAX_RECEIPTS, history) + [receipt]) == Last(MAX_RECEIPTS, history + [receipt])
  {}

  /** An id without a receipt is none of the last 128 in the log. */
  lemma NoReceipt(history: seq<Receipt>, id: string)
    requires !HasReceipt(Last(MAX_RECEIPTS, history), id)
    ensures forall i :: 0 <= i < |history| && |history| - i <= MAX_RECEIPTS ==> history[i].id != id
  {
    var last := Last(MAX_RECEIPTS, history);
    forall i | 0 <= i < |history| && |history| - i <= MAX_RECEIPTS ensures history[i].id != id {
      assert history[i] == last[i - (|history| - |last|)];
    }
  }

  lemma CommitGlobal(s: Host, step: Step, catalog: Catalog)
    requires GlobalKept(s) && PhaseKept(s) && Enabled(s, step, catalog) && step.Commit?
    ensures GlobalKept(Apply(s, step, catalog))
  {
    var w, t := s.phase.work, Apply(s, step, catalog);
    var g := NextGlobal(w, step.now);
    var receipt := g.receipts[|g.receipts| - 1];
    LastSteps(s.history, receipt);
    NoReceipt(s.history, w.request.id);
    assert t.history == s.history + [receipt] && receipt.id == w.request.id;
  }

  lemma GlobalStep(s: Host, step: Step, catalog: Catalog)
    requires GlobalKept(s) && PhaseKept(s) && Enabled(s, step, catalog)
    ensures GlobalKept(Apply(s, step, catalog))
  {
    GlobalFrame(s, step, catalog);
    if step.Commit? {
      CommitGlobal(s, step, catalog);
    }
  }

  lemma AppendWritten(written: seq<Global>, g: Global)
    requires WrittenKept(written)
    requires written != [] ==>
      var last := written[|written| - 1];
      && last.revision <= g.revision
      && (last.revision == g.revision ==> last.installed == g.installed && GrantsOf(last) == GrantsOf(g))
    ensures WrittenKept(written + [g])
  {
    forall i | 0 <= i < |written|
      ensures written[i].revision <= g.revision
      ensures written[i].revision == g.revision ==>
        written[i].installed == g.installed && GrantsOf(written[i]) == GrantsOf(g)
    {
      if i < |written| - 1 {
        assert written[i].revision <= written[|written| - 1].revision;
      }
    }
  }

  lemma WrittenStep(s: Host, step: Step, catalog: Catalog)
    requires WrittenKept(s.written) && GlobalKept(s) && PhaseKept(s) && Enabled(s, step, catalog)
    ensures WrittenKept(Apply(s, step, catalog).written)
  {
    GlobalFrame(s, step, catalog);
    if step.Commit? {
      AppendWritten(s.written, NextGlobal(s.phase.work, step.now));
    } else if step.WriteGlobal? {
      AppendWritten(s.written, s.phase.global);
    }
  }

  lemma ProjectedStep(s: Host, step: Step, catalog: Catalog)
    requires Projected(s.stores) && Enabled(s, step, catalog)
    ensures Projected(Apply(s, step, catalog).stores)
  {
    GlobalFrame(s, step, catalog);
  }

  lemma ContextFrame(s: Host, step: Step, catalog: Catalog)
    requires Enabled(s, step, catalog)
    ensures
      var t := Apply(s, step, catalog);
      && t.base == s.base
      && (!step.Commit? && !step.WriteContext? ==> t.stores.contexts == s.stores.contexts)
  {}

  lemma CountAppend(clients: seq<string>, last: string, client: string)
    ensures Count(clients + [last], client) == Count(clients, client) + if last == client then 1 else 0
  {
    assert (clients + [last])[..|clients|] == clients;
  }

  lemma ContextsStep(s: Host, step: Step, catalog: Catalog)
    requires ContextsKept(s) && PhaseKept(s) && Enabled(s, step, catalog)
    ensures ContextsKept(Apply(s, step, catalog))
  {
    ContextFrame(s, step, catalog);
    GlobalFrame(s, step, catalog);
    if step.Commit? {
      var w, t := s.phase.work, Apply(s, step, catalog);
      assert t.committers == s.committers + [w.request.client];
      forall client ensures Count(s.committers + [w.request.client], client)
                         == Count(s.committers, client) + if w.request.client == client then 1 else 0 {
        CountAppend(s.committers, w.request.client, client);
      }
    }
  }

  lemma InitialDurable(s: Host)
    requires Initial(s)
    ensures Durable(s)
  {}

  lemma DurableStep(s: Host, step: Step, catalog: Catalog)
    requires Durable(s) && Enabled(s, step, catalog)
    ensures Durable(Apply(s, step, catalog))
  {
    PhaseStep(s, step, catalog);
    GlobalStep(s, step, catalog);
    WrittenStep(s, step, catalog);
    ProjectedStep(s, step, catalog);
    ContextsStep(s, step, catalog);
  }

  /** Every state of every run keeps the durable invariant. */
  lemma {:induction false} RunDurable(states: seq<Host>, steps: seq<Step>, catalog: Catalog, k: nat)
    requires IsRun(states, steps, catalog) && Initial(states[0]) && k < |states|
    ensures Durable(states[k])
  {
    if k == 0 {
      InitialDurable(states[0]);
    } else {
      RunDurable(states, steps, catalog, k - 1);
      DurableStep(states[k - 1], steps[k - 1], catalog);
    }
  }

  // ---------------------------------------------------------------- in terms of a run

  lemma {:induction false} InKeys<V>(values: seq<V>, idOf: V -> string)
    ensures forall id :: id in KeyList(values, idOf) <==> exists i :: 0 <= i < |values| && idOf(values[i]) == id
  {
    forall i | 0 <= i < |values| ensures KeyList(values, idOf)[i] == idOf(values[i]) {}
  }

  /** What the invariant says of the stores, in terms of a run: the apps and grants stores are the
      keyed projections of the envelope, the receipts are the last 128 of all ever written, in order
      and with distinct ids, and each context's revision has grown by one for each of its commits. */
  lemma StoresInRun(states: seq<Host>, steps: seq<Step>, catalog: Catalog, k: nat)
    requires IsRun(states, steps, catalog) && Initial(states[0]) && k < |states|
    requires states[k].stores.global.Some? && states[k].stores.global.value.grants.Some?
    ensures
      var s := states[k];
      var g := s.stores.global.value;
      && (forall id :: id in s.stores.apps <==> HasApp(g.installed, id))
      && (forall i :: 0 <= i < |g.installed| ==> s.stores.apps[g.installed[i].id] == g.installed[i])
      && (forall i :: 0 <= i < |GrantsOf(g)| ==>
            GrantsOf(g)[i].id in s.stores.grants && s.stores.grants[GrantsOf(g)[i].id] == GrantsOf(g)[i])
      && (forall id :: id in s.stores.grants ==> exists i :: 0 <= i < |GrantsOf(g)| && GrantsOf(g)[i].id == id)
      && g.receipts == Last(MAX_RECEIPTS, s.history) && DistinctReceipts(g.receipts)
      && (forall client :: client in s.stores.contexts ==>
            s.stores.contexts[client].revision == BaseOf(s.base, client) + Count(s.committers, client))
  {
    RunDurable(states, steps, catalog, k);
    var g := states[k].stores.global.value;
    ByKeyIs(g.installed, appId);
    ByKeyIs(GrantsOf(g), grantId);
    InKeys(g.installed, appId);
    InKeys(GrantsOf(g), grantId);
    forall i | 0 <= i < |g.installed| ensures states[k].stores.apps[g.installed[i].id] == g.installed[i] {
      assert HasApp(g.installed, g.installed[i].id);
    }
  }

  /** Along a run the stored envelope never goes back to an earlier revision, and two stored
      envelopes of the same revision list the same approvals and grants. */
  lemma {:induction false} RevisionsInRun(states: seq<Host>, steps: seq<Step>, catalog: Catalog, i: nat, j: nat)
    requires IsRun(states, steps, catalog) && Initial(states[0]) && i <= j < |states|
    requires states[i].stores.global.Some?
    ensures states[j].stores.global.Some?
    ensures
      var g, h := states[i].stores.global.value, states[j].stores.global.value;
      && g.revision <= h.revision
      && (g.revision == h.revision ==> g.installed == h.installed && GrantsOf(g) == GrantsOf(h))
  {
    RunDurable(states, steps, catalog, i);
    RunRemembers(states, steps, catalog, i, j);
    RunDurable(states, steps, catalog, j);
    var written := states[j].written;
    assert written[|states[i].written| - 1] == states[i].stores.global.value;
  }

  predicate Keeps<T(==)>(s: seq<T>, t: seq<T>) {
    |s| <= |t| && forall i :: 0 <= i < |s| ==> s[i] == t[i]
  }

  /** t has forgotten no envelope and no message that s has recorded. */
  predicate Remembers(s: Host, t: Host) {
    Keeps(s.written, t.written) && Keeps(s.sent, t.sent)
  }

  lemma {:induction false} RemembersChain(states: seq<Host>, i: nat, j: nat)
    requires i <= j < |states|
    requires forall k :: 0 <= k < |states| - 1 ==> Remembers(states[k], states[k + 1])
    ensures Remembers(states[i], states[j])
    decreases j
  {
    if i < j {
      RemembersChain(states, i, j - 1);
      assert Remembers(states[j - 1], states[j - 1 + 1]);
    }
  }

  lemma RunRemembers(states: seq<Host>, steps: seq<Step>, catalog: Catalog, i: nat, j: nat)
    requires IsRun(states, steps, catalog) && i <= j < |states|
    ensures Remembers(states[i], states[j])
  {
    forall k | 0 <= k < |states| - 1 ensures Remembers(states[k], states[k + 1]) {
      StepRemembers(states[k], steps[k], catalog);
    }
    RemembersChain(states, i, j);
  }

  lemma StepRemembers(s: Host, step: Step, catalog: Catalog)
    requires Enabled(s, step, catalog)
    ensures Remembers(s, Apply(s, step, catalog))
  {}
}
