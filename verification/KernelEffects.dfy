/** At-most-once external effects: how far a request id protects against a second tab or download. */
module KernelEffects {
  import opened Kernel
  import opened KernelInvariant

  // ---------------------------------------------------------------- one dispatch

  /** No two effects of the list are non-replayable, and none is once one has been attempted. */
  predicate OneShot(todo: seq<Effect>, attempted: bool) {
    && (forall i, j :: 0 <= i < j < |todo| ==> !(NonReplayable(todo[i]) && NonReplayable(todo[j])))
    && (attempted ==> forall i :: 0 <= i < |todo| ==> !NonReplayable(todo[i]))
  }

  /** What the effect policy authorizes for one method never holds two non-replayable effects. */
  lemma AllowedOneShot(m: Method, effects: seq<Effect>, installed: seq<App>, grants: seq<Grant>)
    requires EffectsAllowed(m, effects, installed, grants)
    ensures OneShot(effects, false)
  {
    forall i, j | 0 <= i < j < |effects| ensures !(NonReplayable(effects[i]) && NonReplayable(effects[j])) {
      assert EffectAllowed(m, effects[i], installed, grants) && EffectAllowed(m, effects[j], installed, grants);
    }
  }

  ghost predicate TodoKept(s: Host) {
    match s.phase
    case Preparing(_, todo) => OneShot(todo, false)
    case Running(_, todo, attempted) => OneShot(todo, attempted)
    case Attempting(_, todo, attempted) => OneShot(todo, attempted)
    case _ => true
  }

  lemma TodoStep(s: Host, step: Step, catalog: Catalog)
    requires TodoKept(s) && Enabled(s, step, catalog)
    ensures TodoKept(Apply(s, step, catalog))
  {
    match step
    case Admit(_, next, grants, effects) => AllowedOneShot(s.phase.op.request.command, effects, next.installed, grants);
    case _ =>
  }

  // ---------------------------------------------------------------- attempts so far

  /** A dispatch of this id committed at or after position `from` of the log, with at least `gap`
      other commits after it. */
  ghost predicate CommittedSince(history: seq<Receipt>, id: string, from: nat, gap: nat) {
    exists k :: from <= k && k + 1 + gap <= |history| && history[k].id == id
  }

  /** Every attempt is still covered by its prepared record, or its dispatch has committed. */
  ghost predicate Covered(s: Host) {
    forall i :: 0 <= i < |s.attempts| ==>
      s.attempts[i].id in s.stores.prepared || CommittedSince(s.history, s.attempts[i].id, s.attempts[i].at, 0)
  }

  /** Whatever was attempted under this id before has left the receipts. */
  ghost predicate Clear(s: Host, id: string) {
    forall i :: 0 <= i < |s.attempts| && s.attempts[i].id == id ==>
      CommittedSince(s.history, id, s.attempts[i].at, MAX_RECEIPTS)
  }

  ghost predicate WorkClear(s: Host) {
    match s.phase
    case Preparing(w, _) => Clear(s, w.request.id)
    case Running(w, _, attempted) => attempted || Clear(s, w.request.id)
    case Attempting(w, _, attempted) => attempted || Clear(s, w.request.id)
    case Recovering(w, attempted) => attempted || Clear(s, w.request.id)
    case _ => true
  }

  /** Between two attempts under one id, its dispatch committed and then 128 others did. */
  ghost predicate Spaced(attempts: seq<Attempt>, history: seq<Receipt>) {
    forall i, j :: 0 <= i < j < |attempts| && attempts[i].id == attempts[j].id ==>
      && attempts[j].at <= |history|
      && CommittedSince(history[..attempts[j].at], attempts[i].id, attempts[i].at, MAX_RECEIPTS)
  }

  predicate Dated(s: Host) {
    forall i :: 0 <= i < |s.attempts| ==> s.attempts[i].at <= |s.history|
  }

  ghost predicate Effectful(s: Host) {
    TodoKept(s) && Covered(s) && WorkClear(s) && Spaced(s.attempts, s.history) && Dated(s)
  }

  // ---------------------------------------------------------------- steps

  lemma CommittedLater(history: seq<Receipt>, id: string, from: nat, gap: nat, receipt: Receipt)
    requires CommittedSince(history, id, from, gap)
    ensures CommittedSince(history + [receipt], id, from, gap)
  {
    var k :| from <= k && k + 1 + gap <= |history| && history[k].id == id;
    assert (history + [receipt])[k].id == id;
  }

  lemma PreparedFrame(s: Host, step: Step, catalog: Catalog)
    requires Enabled(s, step, catalog)
    ensures
      var t := Apply(s, step, catalog);
      && (step.Prepare? ==> s.stores.prepared.Keys <= t.stores.prepared.Keys)
      && (step.Recover? && step.deleted ==> t.stores.prepared == s.stores.prepared - {s.phase.work.request.id})
      && (step.Commit? ==> t.stores.prepared == s.stores.prepared - {s.phase.work.request.id})
      && (!step.Prepare? && !step.Commit? && !(step.Recover? && step.deleted) ==>
            t.stores.prepared == s.stores.prepared)
      && (!step.StartEffect? ==> t.attempts == s.attempts)
      && (!step.Commit? ==> t.history == s.history)
      && (step.Commit? ==> exists r: Receipt :: r.id == s.phase.work.request.id && t.history == s.history + [r])
  {
    if step.Commit? {
      var g := NextGlobal(s.phase.work, step.now);
      assert Apply(s, step, catalog).history == s.history + [g.receipts[|g.receipts| - 1]];
    }
  }

  lemma AttemptFrame(s: Host, step: Step, catalog: Catalog)
    requires Enabled(s, step, catalog) && PhaseKept(s) && step.StartEffect?
    ensures
      var t := Apply(s, step, catalog);
      && s.phase.work.request.id in t.stores.prepared
      && (t.attempts == s.attempts
          || (NonReplayable(s.phase.todo[0])
              && t.attempts == s.attempts + [Attempt(s.phase.work.request.id, Key(s.phase.todo[0]), |s.history|)]))
  {}

  lemma CoveredStep(s: Host, step: Step, catalog: Catalog)
    requires Covered(s) && WorkClear(s) && Dated(s) && PhaseKept(s) && Enabled(s, step, catalog)
    ensures Covered(Apply(s, step, catalog))
  {
    var t := Apply(s, step, catalog);
    PreparedFrame(s, step, catalog);
    if step.StartEffect? {
      AttemptFrame(s, step, catalog);
    } else {
      forall i | 0 <= i < |t.attempts|
        ensures t.attempts[i].id in t.stores.prepared
            || CommittedSince(t.history, t.attempts[i].id, t.attempts[i].at, 0)
      {
        CoveredAttempt(s, step, catalog, i);
      }
    }
  }

  lemma CoveredAttempt(s: Host, step: Step, catalog: Catalog, i: nat)
    requires Covered(s) && WorkClear(s) && Dated(s) && PhaseKept(s) && Enabled(s, step, catalog)
    requires !step.StartEffect? && i < |s.attempts|
    ensures
      var t := Apply(s, step, catalog);
      s.attempts[i].id in t.stores.prepared || CommittedSince(t.history, s.attempts[i].id, s.attempts[i].at, 0)
  {
    var a, t := s.attempts[i], Apply(s, step, catalog);
    PreparedFrame(s, step, catalog);
    if step.Commit? {
      var r: Receipt :| r.id == s.phase.work.request.id && t.history == s.history + [r];
      if a.id == r.id {
        assert t.history[|s.history|].id == a.id;
      } else if a.id !in s.stores.prepared {
        CommittedLater(s.history, a.id, a.at, 0, r);
      }
    } else if step.Recover? && step.deleted && a.id == s.phase.work.request.id {
      var k :| a.at <= k && k + 1 + MAX_RECEIPTS <= |s.history| && s.history[k].id == a.id;
      assert t.history[k].id == a.id;
    }
  }

  lemma DatedStep(s: Host, step: Step, catalog: Catalog)
    requires Dated(s) && Enabled(s, step, catalog)
    ensures Dated(Apply(s, step, catalog))
  {
    PreparedFrame(s, step, catalog);
  }

  /** When a dispatch is admitted, its id is neither prepared nor among the last 128 receipts. */
  lemma AdmittedClear(s: Host, step: Step, catalog: Catalog)
    requires Covered(s) && PhaseKept(s) && GlobalKept(s) && Enabled(s, step, catalog) && step.Admit?
    ensures Clear(s, s.phase.op.request.id)
  {
    var id := s.phase.op.request.id;
    NoReceipt(s.history, id);
    forall i | 0 <= i < |s.attempts| && s.attempts[i].id == id
      ensures CommittedSince(s.history, id, s.attempts[i].at, MAX_RECEIPTS)
    {
      var k :| s.attempts[i].at <= k && k + 1 <= |s.history| && s.history[k].id == id;
      assert |s.history| - k > MAX_RECEIPTS;
    }
  }

  lemma WorkClearStep(s: Host, step: Step, catalog: Catalog)
    requires WorkClear(s) && Covered(s) && PhaseKept(s) && GlobalKept(s) && Enabled(s, step, catalog)
    ensures WorkClear(Apply(s, step, catalog))
  {
    PreparedFrame(s, step, catalog);
    if step.Admit? {
      AdmittedClear(s, step, catalog);
    }
  }

  lemma SpacedPrefix(attempts: seq<Attempt>, history: seq<Receipt>, receipt: Receipt)
    requires Spaced(attempts, history)
    ensures Spaced(attempts, history + [receipt])
  {
    forall j | 0 <= j < |attempts| && attempts[j].at <= |history|
      ensures (history + [receipt])[..attempts[j].at] == history[..attempts[j].at]
    {}
  }

  lemma SpacedAppend(attempts: seq<Attempt>, history: seq<Receipt>, a: Attempt)
    requires Spaced(attempts, history) && a.at == |history|
    requires forall i :: 0 <= i < |attempts| && attempts[i].id == a.id ==>
      CommittedSince(history, a.id, attempts[i].at, MAX_RECEIPTS)
    ensures Spaced(attempts + [a], history)
  {
    assert history[..a.at] == history;
  }

  lemma SpacedStep(s: Host, step: Step, catalog: Catalog)
    requires Spaced(s.attempts, s.history) && TodoKept(s) && WorkClear(s) && PhaseKept(s) && Enabled(s, step, catalog)
    ensures var t := Apply(s, step, catalog); Spaced(t.attempts, t.history)
  {
    PreparedFrame(s, step, catalog);
    if step.StartEffect? {
      AttemptFrame(s, step, catalog);
      if NonReplayable(s.phase.todo[0]) {
        SpacedAppend(s.attempts, s.history, Attempt(s.phase.work.request.id, Key(s.phase.todo[0]), |s.history|));
      }
    } else if step.Commit? {
      var t := Apply(s, step, catalog);
      var r: Receipt :| r.id == s.phase.work.request.id && t.history == s.history + [r];
      SpacedPrefix(s.attempts, s.history, r);
    }
  }

  lemma EffectfulStep(s: Host, step: Step, catalog: Catalog)
    requires Effectful(s) && Durable(s) && Enabled(s, step, catalog)
    ensures Effectful(Apply(s, step, catalog))
  {
    TodoStep(s, step, catalog);
    CoveredStep(s, step, catalog);
    WorkClearStep(s, step, catalog);
    SpacedStep(s, step, catalog);
    DatedStep(s, step, catalog);
  }

  lemma {:induction false} RunEffectful(states: seq<Host>, steps: seq<Step>, catalog: Catalog, k: nat)
    requires IsRun(states, steps, catalog) && Initial(states[0]) && k < |states|
    ensures Effectful(states[k])
  {
    if k > 0 {
      RunEffectful(states, steps, catalog, k - 1);
      RunDurable(states, steps, catalog, k - 1);
      EffectfulStep(states[k - 1], steps[k - 1], catalog);
    }
  }

  // ---------------------------------------------------------------- main results

  /** Over every run, with a crash possible at any await: a tab or download is attempted a second
      time under one request id only after that id's dispatch has committed and at least 128 other
      dispatches have committed after it. */
  lemma AtMostOnce(states: seq<Host>, steps: seq<Step>, catalog: Catalog, i: nat, j: nat)
    requires IsRun(states, steps, catalog) && Initial(states[0])
    requires i < j < |states[|steps|].attempts|
    requires states[|steps|].attempts[i].id == states[|steps|].attempts[j].id
    ensures
      var s := states[|steps|];
      var first, second := s.attempts[i], s.attempts[j];
      && second.at <= |s.history|
      && exists k :: first.at <= k && k + 1 + MAX_RECEIPTS <= second.at && s.history[k].id == first.id
  {
    RunEffectful(states, steps, catalog, |steps|);
    var s := states[|steps|];
    var first, second := s.attempts[i], s.attempts[j];
    var before := s.history[..second.at];
    var k :| first.at <= k && k + 1 + MAX_RECEIPTS <= |before| && before[k].id == first.id;
    assert s.history[k].id == first.id;
  }

  /** No operation is at work on this id. */
  predicate Unattended(s: Host, id: string) {
    match s.phase
    case Preparing(w, _) => w.request.id != id
    case Running(w, _, _) => w.request.id != id
    case Attempting(w, _, _) => w.request.id != id
    case Recovering(w, _) => w.request.id != id
    case _ => true
  }

  lemma BlockedStep(s: Host, step: Step, catalog: Catalog, id: string)
    requires Enabled(s, step, catalog) && id in s.stores.prepared && Unattended(s, id)
    ensures
      var t := Apply(s, step, catalog);
      && id in t.stores.prepared && Unattended(t, id)
      && (t.attempts == s.attempts || exists a: Attempt :: a.id != id && t.attempts == s.attempts + [a])
  {
    PreparedFrame(s, step, catalog);
    if step.StartEffect? && NonReplayable(s.phase.todo[0]) {
      var attempt := Attempt(s.phase.work.request.id, Key(s.phase.todo[0]), |s.history|);
      assert Apply(s, step, catalog).attempts == s.attempts + [attempt];
    }
  }

  function AttemptsOf(attempts: seq<Attempt>, id: string): seq<Attempt> {
    if attempts == [] then []
    else
      var last := attempts[|attempts| - 1];
      AttemptsOf(attempts[..|attempts| - 1], id) + if last.id == id then [last] else []
  }

  /** From s to t the id stays blocked, and nothing is attempted under it. */
  predicate StillBlocked(s: Host, t: Host, id: string) {
    id in s.stores.prepared && Unattended(s, id) ==>
      id in t.stores.prepared && Unattended(t, id) && AttemptsOf(t.attempts, id) == AttemptsOf(s.attempts, id)
  }

  lemma StepStillBlocked(s: Host, step: Step, catalog: Catalog, id: string)
    requires Enabled(s, step, catalog)
    ensures StillBlocked(s, Apply(s, step, catalog), id)
  {
    if id in s.stores.prepared && Unattended(s, id) {
      BlockedStep(s, step, catalog, id);
      var t := Apply(s, step, catalog);
      if t.attempts != s.attempts {
        var a: Attempt :| a.id != id && t.attempts == s.attempts + [a];
        assert t.attempts[..|t.attempts| - 1] == s.attempts;
      }
    }
  }

  lemma {:induction false} BlockedChain(states: seq<Host>, i: nat, j: nat, id: string)
    requires i <= j < |states| && id in states[i].stores.prepared && Unattended(states[i], id)
    requires forall k :: 0 <= k < |states| - 1 ==> StillBlocked(states[k], states[k + 1], id)
    ensures id in states[j].stores.prepared && Unattended(states[j], id)
    ensures AttemptsOf(states[j].attempts, id) == AttemptsOf(states[i].attempts, id)
    decreases j
  {
    if i < j {
      BlockedChain(states, i, j - 1, id);
      assert StillBlocked(states[j - 1], states[j - 1 + 1], id);
    }
  }

  /** A prepared record that is left behind, by a crash or a failed commit, blocks its id forever:
      it is never removed, and nothing more is attempted under that id. */
  lemma LeftBehindBlocks(states: seq<Host>, steps: seq<Step>, catalog: Catalog, i: nat, j: nat, id: string)
    requires IsRun(states, steps, catalog) && i <= j < |states|
    requires id in states[i].stores.prepared && Unattended(states[i], id)
    ensures id in states[j].stores.prepared && Unattended(states[j], id)
    ensures AttemptsOf(states[j].attempts, id) == AttemptsOf(states[i].attempts, id)
  {
    forall k | 0 <= k < |states| - 1 ensures StillBlocked(states[k], states[k + 1], id) {
      StepStillBlocked(states[k], steps[k], catalog, id);
    }
    BlockedChain(states, i, j, id);
  }

  /** A crash while an effect is under way, and a commit that fails after one was attempted, do
      leave the record behind. */
  lemma LeftBehind(s: Host, step: Step, catalog: Catalog)
    requires PhaseKept(s) && Enabled(s, step, catalog)
    requires
      || ((s.phase.Running? || s.phase.Attempting?) && step.Crash?)
      || (s.phase.Recovering? && s.phase.attempted && (step.Recover? || step.Crash?))
    ensures
      var t := Apply(s, step, catalog);
      s.phase.work.request.id in t.stores.prepared && Unattended(t, s.phase.work.request.id)
  {
    PreparedFrame(s, step, catalog);
  }
}
