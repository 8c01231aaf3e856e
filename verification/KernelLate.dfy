/** Loads of the global envelope that no operation in the queue waits for: those of refused operations,
    and of checks outside the queue. Each may write the upgrade of what it has read at any later time. */
module KernelLate {
  import opened Options
  import opened Lists
  import opened Kernel
  import opened KernelInvariant
  import opened KernelRuns

  /** A write that is under way, and how many receipts had been written when the envelope was read. */
  datatype Late = Late(global: Global, at: nat)

  datatype World = World(host: Host, late: seq<Late>)

  datatype LateStep =
    | HostStep(step: Step)
    | LoadGlobal(installed: seq<App>, now: int)
    | Land(i: nat)

  /** What such a load is about to write, if anything. */
  function Outstanding(d: Stores, catalog: Catalog, installed: seq<App>, now: int): Option<Global> {
    match d.global
    case None => Some(Global(0, installed, Some([]), [], now))
    case Some(stored) =>
      var g := Upgrade(stored, catalog, now);
      if g.Some? && g.value != stored then g else None
  }

  ghost predicate CanStep(w: World, step: LateStep, catalog: Catalog) {
    match step
    case HostStep(step) => Enabled(w.host, step, catalog)
    case LoadGlobal(_, _) => true
    case Land(i) => i < |w.late| && Projects(w.late[i].global)
  }

  /** The transaction of replaceGlobal, whatever the host does meanwhile. */
  function Landed(s: Host, g: Global): Host {
    s.(stores := ReplaceGlobal(s.stores, g), written := s.written + [g])
  }

  ghost function After(w: World, step: LateStep, catalog: Catalog): World
    requires CanStep(w, step, catalog)
  {
    match step
    case HostStep(step) => World(Apply(w.host, step, catalog), if step.Crash? then [] else w.late)
    case LoadGlobal(installed, now) =>
      var g := Outstanding(w.host.stores, catalog, installed, now);
      if g.None? then w else w.(late := w.late + [Late(g.value, |w.host.history|)])
    case Land(i) => World(Landed(w.host, w.late[i].global), w.late[..i] + w.late[i + 1..])
  }

  // ---------------------------------------------------------------- one write that lands

  /** What the operation under way holds is not overtaken. */
  ghost predicate Undisturbed(s: Host, g: Global) {
    match s.phase
    case Idle => true
    case LoadingGlobal(_) => true
    case ReplacingGlobal(_, h) => h.revision == g.revision + 1
    case _ => s.stores.global == Some(g)
  }

  /** The write carries the receipts of the stored envelope, and is later or says the same. */
  ghost predicate Supersedes(stored: Option<Global>, g: Global) {
    match stored
    case None => g.receipts == []
    case Some(h) =>
      && g.receipts == h.receipts && h.revision <= g.revision
      && (h.revision == g.revision ==> h.installed == g.installed && GrantsOf(h) == GrantsOf(g))
  }

  ghost predicate InOrder(s: Host, g: Global) {
    Undisturbed(s, g) && Supersedes(s.stores.global, g)
  }

  lemma LandedPhase(s: Host, g: Global)
    requires PhaseKept(s) && Supersedes(s.stores.global, g)
    ensures PhaseKept(Landed(s, g)) <==> Undisturbed(s, g)
  {}

  lemma LandedGlobal(s: Host, g: Global)
    requires GlobalKept(s)
    ensures GlobalKept(Landed(s, g)) <==>
      g.receipts == match s.stores.global case None => [] case Some(h) => h.receipts
  {}

  lemma LandedWritten(s: Host, g: Global)
    requires GlobalKept(s) && WrittenKept(s.written)
    ensures WrittenKept(s.written + [g]) <==>
      (s.stores.global.Some? ==>
         var h := s.stores.global.value;
         && h.revision <= g.revision
         && (h.revision == g.revision ==> h.installed == g.installed && GrantsOf(h) == GrantsOf(g)))
  {
    var n := |s.written|;
    if s.stores.global.Some? && WrittenKept(s.written + [g]) {
      assert (s.written + [g])[n - 1] == s.stores.global.value && (s.written + [g])[n] == g;
    } else if s.stores.global.None? || s.stores.global.value.revision <= g.revision {
      if s.stores.global.Some? ==> (s.stores.global.value.revision == g.revision ==>
           s.stores.global.value.installed == g.installed && GrantsOf(s.stores.global.value) == GrantsOf(g)) {
        AppendWritten(s.written, g);
      }
    }
  }

  /** A write that lands keeps the durable invariant exactly when it is in order. */
  lemma LandsExactly(s: Host, g: Global)
    requires Durable(s) && Projects(g) && g.grants.Some?
    ensures Durable(Landed(s, g)) <==> InOrder(s, g)
  {
    LandedGlobal(s, g);
    LandedWritten(s, g);
    if Supersedes(s.stores.global, g) {
      LandedPhase(s, g);
    }
  }

  // ---------------------------------------------------------------- where such writes come from

  /** Every write under way carries the receipts that were there when its load began. */
  ghost predicate LateKept(w: World) {
    forall i :: 0 <= i < |w.late| ==>
      && w.late[i].global.grants.Some? && w.late[i].at <= |w.host.history|
      && w.late[i].global.receipts == Last(MAX_RECEIPTS, w.host.history[..w.late[i].at])
  }

  ghost predicate Good(w: World) {
    Durable(w.host) && LateKept(w)
  }

  lemma OutstandingIs(d: Stores, catalog: Catalog, installed: seq<App>, now: int)
    ensures var g := Outstanding(d, catalog, installed, now); g.Some? ==>
      && g.value.grants.Some?
      && g.value.receipts == match d.global case None => [] case Some(h) => h.receipts
  {
    if d.global.Some? && Upgrade(d.global.value, catalog, now).Some? {
      UpgradeIs(d.global.value, catalog, now);
    }
  }

  lemma HistoryGrows(s: Host, step: Step, catalog: Catalog)
    requires Enabled(s, step, catalog)
    ensures |s.history| <= |Apply(s, step, catalog).history|
    ensures Apply(s, step, catalog).history[..|s.history|] == s.history
  {
    GlobalFrame(s, step, catalog);
  }

  lemma HostKeepsLate(w: World, step: Step, catalog: Catalog)
    requires LateKept(w) && Enabled(w.host, step, catalog)
    ensures LateKept(After(w, HostStep(step), catalog))
  {
    HistoryGrows(w.host, step, catalog);
    var t := After(w, HostStep(step), catalog);
    forall i | 0 <= i < |t.late| ensures t.host.history[..t.late[i].at] == w.host.history[..w.late[i].at] {}
  }

  lemma LoadKeepsLate(w: World, catalog: Catalog, installed: seq<App>, now: int)
    requires Good(w)
    ensures LateKept(After(w, LoadGlobal(installed, now), catalog))
  {
    OutstandingIs(w.host.stores, catalog, installed, now);
    assert w.host.history[..|w.host.history|] == w.host.history;
  }

  lemma LandKeepsLate(w: World, catalog: Catalog, i: nat)
    requires LateKept(w) && CanStep(w, Land(i), catalog)
    ensures LateKept(After(w, Land(i), catalog))
  {
    var rest := w.late[..i] + w.late[i + 1..];
    forall k | 0 <= k < |rest| ensures rest[k] == w.late[if k < i then k else k + 1] {}
  }

  /** A step is in order if it is no landing, or one in order. */
  ghost predicate StepInOrder(w: World, step: LateStep, catalog: Catalog)
    requires CanStep(w, step, catalog)
  {
    step.Land? ==> InOrder(w.host, w.late[step.i].global)
  }

  lemma LateStepKeeps(w: World, step: LateStep, catalog: Catalog)
    requires Good(w) && CanStep(w, step, catalog)
    ensures LateKept(After(w, step, catalog))
    ensures Durable(After(w, step, catalog).host) <==> StepInOrder(w, step, catalog)
  {
    match step
    case HostStep(step) =>
      HostKeepsLate(w, step, catalog);
      DurableStep(w.host, step, catalog);
    case LoadGlobal(installed, now) => LoadKeepsLate(w, catalog, installed, now);
    case Land(i) =>
      LandKeepsLate(w, catalog, i);
      LandsExactly(w.host, w.late[i].global);
  }

  // ---------------------------------------------------------------- runs

  ghost predicate IsLateRun(states: seq<World>, steps: seq<LateStep>, catalog: Catalog) {
    && |states| == |steps| + 1 && Initial(states[0].host) && states[0].late == []
    && forall k :: 0 <= k < |steps| ==> StepsAt(states, steps, catalog, k)
  }

  ghost predicate StepsAt(states: seq<World>, steps: seq<LateStep>, catalog: Catalog, k: nat)
    requires k < |steps| && k + 1 < |states|
  {
    CanStep(states[k], steps[k], catalog) && states[k + 1] == After(states[k], steps[k], catalog)
  }

  ghost predicate DurableUpTo(states: seq<World>, n: nat)
    requires n < |states|
  {
    forall k :: 0 <= k <= n ==> Durable(states[k].host)
  }

  ghost predicate OrderedUpTo(states: seq<World>, steps: seq<LateStep>, catalog: Catalog, n: nat)
    requires IsLateRun(states, steps, catalog) && n <= |steps|
  {
    forall k :: 0 <= k < n ==> OrderedAt(states, steps, catalog, k)
  }

  ghost predicate OrderedAt(states: seq<World>, steps: seq<LateStep>, catalog: Catalog, k: nat)
    requires IsLateRun(states, steps, catalog) && k < |steps|
  {
    assert StepsAt(states, steps, catalog, k);
    StepInOrder(states[k], steps[k], catalog)
  }

  lemma {:induction false} LateRunKeeps(states: seq<World>, steps: seq<LateStep>, catalog: Catalog, n: nat)
    requires IsLateRun(states, steps, catalog) && n <= |steps|
    ensures DurableUpTo(states, n) <==> OrderedUpTo(states, steps, catalog, n)
    ensures DurableUpTo(states, n) ==> LateKept(states[n])
  {
    if n == 0 {
      InitialDurable(states[0].host);
    } else {
      LateRunKeeps(states, steps, catalog, n - 1);
      assert StepsAt(states, steps, catalog, n - 1);
      if DurableUpTo(states, n - 1) {
        LateStepKeeps(states[n - 1], steps[n - 1], catalog);
        assert OrderedAt(states, steps, catalog, n - 1) <==> Durable(states[n].host);
      }
    }
  }

  /** The durable invariant holds throughout a run, with loads outside the queue, exactly when every
      write of such a load lands in order. */
  lemma RunDurableExactly(states: seq<World>, steps: seq<LateStep>, catalog: Catalog)
    requires IsLateRun(states, steps, catalog)
    ensures DurableUpTo(states, |steps|) <==> OrderedUpTo(states, steps, catalog, |steps|)
  {
    LateRunKeeps(states, steps, catalog, |steps|);
  }

  // ---------------------------------------------------------------- which writes are in order

  /** A write lands in order when the envelope that its load has read is still stored, and no operation
      has read it since. */
  lemma UnchangedInOrder(s: Host, catalog: Catalog, installed: seq<App>, now: int)
    requires Durable(s) && (s.phase.Idle? || s.phase.LoadingGlobal?)
    requires Outstanding(s.stores, catalog, installed, now).Some?
    ensures InOrder(s, Outstanding(s.stores, catalog, installed, now).value)
  {
    OutstandingIs(s.stores, catalog, installed, now);
    if s.stores.global.Some? {
      UpgradeIs(s.stores.global.value, catalog, now);
    }
  }

  /** It never does when up to 128 dispatches have committed since: their receipts are lost. */
  lemma CommittedOutOfOrder(w: World, i: nat)
    requires Good(w) && i < |w.late| && w.late[i].at < |w.host.history| <= w.late[i].at + MAX_RECEIPTS
    ensures !InOrder(w.host, w.late[i].global)
  {
    var history, at := w.host.history, w.late[i].at;
    var n := |history|;
    var kept, carried := Last(MAX_RECEIPTS, history), Last(MAX_RECEIPTS, history[..at]);
    assert kept[|kept| - 1] == history[n - 1];
    if at > 0 {
      assert carried[|carried| - 1] == history[at - 1] && history[at - 1].id != history[n - 1].id;
    }
  }

  // ---------------------------------------------------------------- a write that is not

  /** A run of the host without a crash, and one write under way all the time. */
  lemma {:induction false} Beside(states: seq<Host>, steps: seq<Step>, catalog: Catalog, installed: seq<App>, now: int)
      returns (worlds: seq<World>, taken: seq<LateStep>)
    requires IsRun(states, steps, catalog) && Initial(states[0]) && Uncrashed(steps) && states[0].stores.global.None?
    ensures IsLateRun(worlds, taken, catalog) && |taken| == |steps| + 1
    ensures worlds[|taken|] == World(states[|steps|], [Late(Global(0, installed, Some([]), [], now), 0)])
  {
    var late := [Late(Global(0, installed, Some([]), [], now), 0)];
    worlds := [World(states[0], [])] + seq(|states|, k requires 0 <= k < |states| => World(states[k], late));
    taken := [LoadGlobal(installed, now)] + seq(|steps|, k requires 0 <= k < |steps| => HostStep(steps[k]));
    assert states[0].history == [];
    forall k | 0 <= k < |taken| ensures StepsAt(worlds, taken, catalog, k) {
      if k > 0 {
        assert worlds[k] == World(states[k - 1], late) && taken[k] == HostStep(steps[k - 1]);
        assert worlds[k + 1] == World(states[k], late) && states[k] == states[k - 1 + 1];
      }
    }
  }

  /** On an empty profile a check outside the queue begins to write the first envelope. Before it does,
      a page attaches and another one installs an app; then it does. The app is no longer approved, and
      the receipt of its installation is gone. */
  lemma {:induction false} LateWriteLoses() returns (worlds: seq<World>, taken: seq<LateStep>)
    ensures IsLateRun(worlds, taken, noApps) && taken != []
    ensures var n := |taken|;
      && Durable(worlds[n - 1].host) && worlds[n - 1].host.stores.global == Some(second)
      && !Durable(worlds[n].host) && worlds[n].host.stores.global == Some(first)
      && HasApp(second.installed, "notes") && !HasApp(first.installed, "notes")
      && HasReceipt(second.receipts, "install") && !HasReceipt(first.receipts, "install")
  {
    var states, steps := InstallRuns();
    worlds, taken := Beside(states, steps, noApps, [], 0);
    RunDurable(states, steps, noApps, |steps|);
    var w := worlds[|taken|];
    FirstKept(0);
    LandsExactly(w.host, first);
    assert second.installed[0].id == "notes" && second.receipts[0].id == "install";
    worlds, taken := LateNext(worlds, taken, noApps, Land(0));
  }

  lemma {:induction false} LateNext(worlds: seq<World>, taken: seq<LateStep>, catalog: Catalog, step: LateStep)
      returns (more: seq<World>, longer: seq<LateStep>)
    requires IsLateRun(worlds, taken, catalog) && CanStep(worlds[|taken|], step, catalog)
    ensures IsLateRun(more, longer, catalog) && longer == taken + [step]
    ensures more == worlds + [After(worlds[|taken|], step, catalog)]
  {
    more, longer := worlds + [After(worlds[|taken|], step, catalog)], taken + [step];
    forall k | 0 <= k < |longer| ensures StepsAt(more, longer, catalog, k) {
      if k < |taken| { assert StepsAt(worlds, taken, catalog, k); }
    }
  }
}
