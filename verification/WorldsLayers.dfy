/** The limit on layers: which graphs keep it under every interleaving, and which do not. */
module WorldsLayers {
  import opened Options
  import opened Worlds
  import opened WorldsComplete

  // ---------------------------------------------------------------- the step past the limit

  lemma {:induction false} ImportsWait(g: Graph, v: Visit, k: nat)
    ensures forall n :: 0 <= n < |Imports(g, v, k)| ==> Imports(g, v, k)[n] == Resolving(v, k + n)
    ensures k <= |g.manifest(v.world).imports| ==> |Imports(g, v, k)| == |g.manifest(v.world).imports| - k
    decreases |g.manifest(v.world).imports| - k
  {
    if k < |g.manifest(v.world).imports| { ImportsWait(g, v, k + 1); }
  }

  /** A step goes past the limit exactly when it takes a layer that passed the check before its
      metadata was fetched, and there is no room by now. */
  lemma {:induction false} PastLimit(g: Graph, s: State, n: nat, fails: bool)
    requires n < |s.tasks| && Ranged(g, s.tasks)
    ensures var t := Step(g, s, n, fails);
      (|t.layers| > MAX_LAYERS && |t.layers| > |s.layers|) <==>
        s.tasks[n].Checking? && !fails && |s.layers| >= MAX_LAYERS
  {
    var e := Advance(g, s, s.tasks[n], fails);
    assert Step(g, s, n, fails).layers == s.layers + e.layers;
  }

  // ---------------------------------------------------------------- where runs lead

  ghost predicate Reachable(g: Graph, world: World, s: State, answered: bool) {
    exists run :: IsRun(g, world, run, answered) && run[|run| - 1] == s
  }

  lemma {:induction false} ReachableFirst(g: Graph, world: World, answered: bool)
    ensures Reachable(g, world, Initial(world), answered)
  {
    var run := [Initial(world)];
    assert IsRun(g, world, run, answered) && run[|run| - 1] == Initial(world);
  }

  lemma {:induction false} ReachableNext(g: Graph, world: World, s: State, n: nat, fails: bool, answered: bool)
    requires Reachable(g, world, s, answered) && n < |s.tasks| && Ranged(g, s.tasks) && (fails ==> !answered)
    ensures Reachable(g, world, Step(g, s, n, fails), answered)
  {
    var t := Step(g, s, n, fails);
    assert Steps(g, s, t, answered);
    var run :| IsRun(g, world, run, answered) && run[|run| - 1] == s;
    RunExtended(g, world, run, t, answered);
  }

  lemma {:induction false} RunExtended(g: Graph, world: World, run: seq<State>, t: State, answered: bool)
    requires IsRun(g, world, run, answered) && Steps(g, run[|run| - 1], t, answered)
    ensures Reachable(g, world, t, answered)
  {
    var more := run + [t];
    assert more[0] == run[0];
    forall k | 0 <= k < |more| - 1 ensures StepsAt(g, more, k, answered) {
      assert more[k] == run[k];
      if k < |run| - 1 { assert StepsAt(g, run, k, answered) && more[k + 1] == run[k + 1]; }
    }
    assert IsRun(g, world, more, answered) && more[|more| - 1] == t;
  }

  // ---------------------------------------------------------------- visits and the layers above them

  /** The visit that a route of imports leads to, if it is not refused on the way. */
  function VisitAt(g: Graph, v: Visit, route: seq<nat>): Option<Visit>
    decreases |route|
  {
    if Cut(v) then None
    else if route == [] then Some(v)
    else if route[0] >= |g.manifest(v.world).imports| then None
    else match g.target(g.manifest(v.world).imports[route[0]])
         case None => None
         case Some(world) => VisitAt(g, Child(g, v, route[0], world), route[1..])
  }

  lemma {:induction false} VisitEntered(g: Graph, v: Visit, route: seq<nat>)
    requires VisitAt(g, v, route).Some?
    ensures !Cut(VisitAt(g, v, route).value)
    decreases |route|
  {
    if route != [] {
      VisitEntered(g, Child(g, v, route[0], g.target(g.manifest(v.world).imports[route[0]]).value), route[1..]);
    }
  }

  lemma {:induction false} VisitNext(g: Graph, v: Visit, route: seq<nat>, k: nat)
    requires VisitAt(g, v, route).Some? && k < |g.manifest(VisitAt(g, v, route).value.world).imports|
    requires g.target(g.manifest(VisitAt(g, v, route).value.world).imports[k]).Some?
    ensures
      var u := VisitAt(g, v, route).value;
      var child := Child(g, u, k, g.target(g.manifest(u.world).imports[k]).value);
      VisitAt(g, v, route + [k]) == if Cut(child) then None else Some(child)
    decreases |route|
  {
    if route == [] {
      assert [k][1..] == [];
    } else {
      assert (route + [k])[1..] == route[1..] + [k];
      VisitNext(g, Child(g, v, route[0], g.target(g.manifest(v.world).imports[route[0]]).value), route[1..], k);
    }
  }

  /** How many of the first i layers of a world are certain to be taken while there is room: all of
      them if the network answers, otherwise those that are not streamed. */
  function Firm(g: Graph, w: World, i: nat, answered: bool): nat
    requires i <= |g.manifest(w).layers|
  {
    if i == 0 then 0
    else Firm(g, w, i - 1, answered) + if answered || !Streamed(g.manifest(w).layers[i - 1]) then 1 else 0
  }

  function FirmOf(g: Graph, answered: bool): World -> nat {
    (w: World) => Firm(g, w, |g.manifest(w).layers|, answered)
  }

  lemma {:induction false} FirmCounts(g: Graph, w: World, i: nat)
    requires i <= |g.manifest(w).layers|
    ensures Firm(g, w, i, true) == i
  {
    if i > 0 { FirmCounts(g, w, i - 1); }
  }

  lemma {:induction false} FirmGrows(g: Graph, w: World, i: nat, j: nat)
    requires i <= j <= |g.manifest(w).layers|
    ensures Firm(g, w, i, false) <= Firm(g, w, j, false) <= Firm(g, w, i, false) + (j - i)
    decreases j - i
  {
    if i < j { FirmGrows(g, w, i, j - 1); }
  }

  /** The layers of the ancestors of a visit, and its own first i. */
  function Above(g: Graph, v: Visit, i: nat, answered: bool): nat
    requires i <= |g.manifest(v.world).layers|
  {
    Total(v.ancestry, FirmOf(g, answered)) + Firm(g, v.world, i, answered)
  }

  /** The layers of the visits that are neither above a visit, nor it, nor below it. */
  function Beside(g: Graph, root: World, v: Visit): int {
    Amount(g, Root(root), true) - Above(g, v, 0, true) - Amount(g, v, true)
  }

  lemma {:induction false} AboveChild(g: Graph, v: Visit, k: nat, w: World, answered: bool)
    requires k < |g.manifest(v.world).imports|
    ensures Above(g, Child(g, v, k, w), 0, answered) == Above(g, v, |g.manifest(v.world).layers|, answered)
  {
    TotalJoin(v.ancestry, [v.world], FirmOf(g, answered));
    assert [v.world][1..] == [] && [v.world][0] == v.world;
  }

  /** A streamed layer that can pass the check while there is room, and be taken when there is none:
      those above it that must be taken leave room, those beside it can fill the room. If the network
      answers, that there is a layer beside it follows from the two other bounds. */
  ghost predicate Overruns(g: Graph, root: World, route: seq<nat>, i: nat, answered: bool) {
    var at := VisitAt(g, Root(root), route);
    && at.Some? && i < |g.manifest(at.value.world).layers| && Streamed(g.manifest(at.value.world).layers[i])
    && Above(g, at.value, i, answered) < MAX_LAYERS
    && Beside(g, root, at.value) >= 1 && Above(g, at.value, i, true) + Beside(g, root, at.value) >= MAX_LAYERS
  }

  // ---------------------------------------------------------------- what a run past the limit shows

  /** How many layers of its visit a task has behind it. */
  function Passed(g: Graph, t: Task): (p: nat)
    requires InRange(g, t)
    ensures p <= |g.manifest(t.v.world).layers|
  {
    match t
    case Loading(_) => 0
    case Layering(_, i) => i
    case Checking(_, i) => i
    case _ => |g.manifest(t.v.world).layers|
  }

  ghost predicate Reached(g: Graph, root: World, v: Visit) {
    exists route :: VisitAt(g, Root(root), route) == Some(v)
  }

  /** What holds of a task when count layers are taken and total are to come. */
  ghost predicate Fine(g: Graph, root: World, t: Task, count: nat, total: nat, answered: bool) {
    && InRange(g, t) && Reached(g, root, t.v)
    && total + Above(g, t.v, Passed(g, t), true) <= Amount(g, Root(root), true)
    && (count < MAX_LAYERS ==> Above(g, t.v, Passed(g, t), answered) <= count)
    && (t.Checking? ==> Checked(g, root, t.v, t.i, count, total, answered))
  }

  ghost predicate Checked(g: Graph, root: World, v: Visit, i: nat, count: nat, total: nat, answered: bool)
    requires InRange(g, Checking(v, i))
  {
    && Streamed(g.manifest(v.world).layers[i])
    && Above(g, v, i, answered) < MAX_LAYERS
    && count + total + Above(g, v, i, true) < MAX_LAYERS + Amount(g, Root(root), true)
  }

  ghost predicate AllFine(g: Graph, root: World, tasks: seq<Task>, count: nat, total: nat, answered: bool) {
    forall n :: 0 <= n < |tasks| ==> Fine(g, root, tasks[n], count, total, answered)
  }

  ghost predicate Tallied(g: Graph, root: World, s: State, answered: bool) {
    var total := Total(s.tasks, AmountIn(g, true));
    AllFine(g, root, s.tasks, |s.layers|, total, answered) && |s.layers| + total <= Amount(g, Root(root), true)
  }

  /** What a step does to the tally, and that the tasks which follow keep theirs. */
  ghost predicate Tallies(g: Graph, root: World, t: Task, e: Effect, count: nat, total: nat, answered: bool)
    requires InRange(g, t)
  {
    var next := Total(e.next, AmountIn(g, true));
    && |e.layers| + next <= TaskAmount(g, t, true) <= total
    && AllFine(g, root, e.next, count + |e.layers|, total - TaskAmount(g, t, true) + next, answered)
  }

  lemma {:induction false} NextTallies(g: Graph, root: World, t: Task, u: Task, e: Effect, count: nat, total: nat,
                                       answered: bool)
    requires InRange(g, t) && TaskAmount(g, t, true) <= total && e.next == [u]
    requires InRange(g, u) && |e.layers| + TaskAmount(g, u, true) <= TaskAmount(g, t, true)
    requires Fine(g, root, u, count + |e.layers|, total - TaskAmount(g, t, true) + TaskAmount(g, u, true), answered)
    ensures Tallies(g, root, t, e, count, total, answered)
  {
    OneAmount(g, u, true);
  }

  lemma {:induction false} ResolvingTallies(g: Graph, root: World, s: State, v: Visit, k: nat, fails: bool,
                                            total: nat, answered: bool)
    requires Fine(g, root, Resolving(v, k), |s.layers|, total, answered)
    requires TaskAmount(g, Resolving(v, k), true) <= total
    ensures Tallies(g, root, Resolving(v, k), Advance(g, s, Resolving(v, k), fails), |s.layers|, total, answered)
  {
    var e := Advance(g, s, Resolving(v, k), fails);
    if e.next != [] {
      var w := g.target(g.manifest(v.world).imports[k]).value;
      var child := Child(g, v, k, w);
      var route :| VisitAt(g, Root(root), route) == Some(v);
      VisitNext(g, Root(root), route, k);
      AboveChild(g, v, k, w, answered);
      AboveChild(g, v, k, w, true);
      assert TaskAmount(g, Loading(child), true) == TaskAmount(g, Resolving(v, k), true);
      NextTallies(g, root, Resolving(v, k), Loading(child), e, |s.layers|, total, answered);
    }
  }

  lemma {:induction false} TakenTallies(g: Graph, root: World, v: Visit, i: nat, e: Effect, count: nat, total: nat,
                                        answered: bool)
    requires Fine(g, root, Layering(v, i), count, total, answered) && TaskAmount(g, Layering(v, i), true) <= total
    requires i < |g.manifest(v.world).layers| && !Streamed(g.manifest(v.world).layers[i])
    requires e.next == [Layering(v, i + 1)] && |e.layers| == 1
    ensures Tallies(g, root, Layering(v, i), e, count, total, answered)
  {
    FirmCounts(g, v.world, i);
    FirmCounts(g, v.world, i + 1);
    NextTallies(g, root, Layering(v, i), Layering(v, i + 1), e, count, total, answered);
  }

  lemma {:induction false} WaitingTallies(g: Graph, root: World, v: Visit, i: nat, e: Effect, count: nat, total: nat,
                                          answered: bool)
    requires Fine(g, root, Layering(v, i), count, total, answered) && TaskAmount(g, Layering(v, i), true) <= total
    requires i < |g.manifest(v.world).layers| && Streamed(g.manifest(v.world).layers[i]) && count < MAX_LAYERS
    requires e.next == [Checking(v, i)] && e.layers == []
    ensures Tallies(g, root, Layering(v, i), e, count, total, answered)
  {
    FirmCounts(g, v.world, i);
    NextTallies(g, root, Layering(v, i), Checking(v, i), e, count, total, answered);
  }

  lemma {:induction false} DoneTallies(g: Graph, root: World, v: Visit, i: nat, e: Effect, count: nat, total: nat,
                                       answered: bool)
    requires Fine(g, root, Layering(v, i), count, total, answered) && TaskAmount(g, Layering(v, i), true) <= total
    requires i == |g.manifest(v.world).layers| || count >= MAX_LAYERS
    requires e.next == [Touching(v, 0)] && e.layers == []
    ensures Tallies(g, root, Layering(v, i), e, count, total, answered)
  {
    FirmCounts(g, v.world, i);
    FirmCounts(g, v.world, |g.manifest(v.world).layers|);
    NextTallies(g, root, Layering(v, i), Touching(v, 0), e, count, total, answered);
  }

  lemma {:induction false} LayeringTallies(g: Graph, root: World, s: State, v: Visit, i: nat, fails: bool, total: nat,
                                           answered: bool)
    requires Fine(g, root, Layering(v, i), |s.layers|, total, answered) && TaskAmount(g, Layering(v, i), true) <= total
    ensures Tallies(g, root, Layering(v, i), Advance(g, s, Layering(v, i), fails), |s.layers|, total, answered)
  {
    var e := Advance(g, s, Layering(v, i), fails);
    if i == |g.manifest(v.world).layers| || |s.layers| >= MAX_LAYERS {
      DoneTallies(g, root, v, i, e, |s.layers|, total, answered);
    } else if Streamed(g.manifest(v.world).layers[i]) {
      WaitingTallies(g, root, v, i, e, |s.layers|, total, answered);
    } else {
      TakenTallies(g, root, v, i, e, |s.layers|, total, answered);
    }
  }

  lemma {:induction false} CheckedTallies(g: Graph, root: World, v: Visit, i: nat, e: Effect, count: nat, total: nat,
                                          answered: bool)
    requires Fine(g, root, Checking(v, i), count, total, answered) && TaskAmount(g, Checking(v, i), true) <= total
    requires e.next == [Layering(v, i + 1)] && |e.layers| <= 1 && (e.layers == [] ==> !answered)
    ensures Tallies(g, root, Checking(v, i), e, count, total, answered)
  {
    FirmCounts(g, v.world, i);
    FirmCounts(g, v.world, i + 1);
    NextTallies(g, root, Checking(v, i), Layering(v, i + 1), e, count, total, answered);
  }

  lemma {:induction false} TouchedTallies(g: Graph, root: World, v: Visit, j: nat, e: Effect, count: nat, total: nat,
                                          answered: bool)
    requires Fine(g, root, Touching(v, j), count, total, answered) && TaskAmount(g, Touching(v, j), true) <= total
    requires j < |g.manifest(v.world).touchpoints| && e.next == [Touching(v, j + 1)] && e.layers == []
    ensures Tallies(g, root, Touching(v, j), e, count, total, answered)
  {
    NextTallies(g, root, Touching(v, j), Touching(v, j + 1), e, count, total, answered);
  }

  lemma {:induction false} ImportsTally(g: Graph, root: World, v: Visit, j: nat, e: Effect, count: nat, total: nat,
                                        answered: bool)
    requires Fine(g, root, Touching(v, j), count, total, answered) && TaskAmount(g, Touching(v, j), true) <= total
    requires e.next == Imports(g, v, 0) && e.layers == []
    ensures Tallies(g, root, Touching(v, j), e, count, total, answered)
  {
    ImportsAmount(g, v, 0, true);
    ImportsWait(g, v, 0);
    forall n | 0 <= n < |e.next| ensures Fine(g, root, e.next[n], count, total, answered) {
      assert e.next[n] == Resolving(v, n);
    }
  }

  lemma {:induction false} AdvanceTallies(g: Graph, root: World, s: State, t: Task, fails: bool, total: nat,
                                          answered: bool)
    requires Fine(g, root, t, |s.layers|, total, answered) && TaskAmount(g, t, true) <= total && (fails ==> !answered)
    ensures Tallies(g, root, t, Advance(g, s, t, fails), |s.layers|, total, answered)
  {
    match t
    case Resolving(v, k) => ResolvingTallies(g, root, s, v, k, fails, total, answered);
    case Loading(v) =>
      var route :| VisitAt(g, Root(root), route) == Some(v);
      VisitEntered(g, Root(root), route);
      var e := Advance(g, s, t, fails);
      if !fails { NextTallies(g, root, t, Layering(v, 0), e, |s.layers|, total, answered); }
    case Layering(v, i) => LayeringTallies(g, root, s, v, i, fails, total, answered);
    case Checking(v, i) => CheckedTallies(g, root, v, i, Advance(g, s, t, fails), |s.layers|, total, answered);
    case Touching(v, j) =>
      var e := Advance(g, s, t, fails);
      if e.next == Imports(g, v, 0) {
        ImportsTally(g, root, v, j, e, |s.layers|, total, answered);
      } else {
        TouchedTallies(g, root, v, j, e, |s.layers|, total, answered);
      }
  }

  /** A task that waits keeps what holds of it. */
  lemma {:induction false} StaysFine(g: Graph, root: World, t: Task, count: nat, total: nat, later: nat, left: nat,
                                     answered: bool)
    requires Fine(g, root, t, count, total, answered) && count <= later && left <= total
    requires later + left <= count + total
    ensures Fine(g, root, t, later, left, answered)
  {}

  lemma {:induction false} ApplyFine(g: Graph, root: World, s: State, n: nat, e: Effect,
                                     total: nat, later: nat, left: nat, answered: bool)
    requires n < |s.tasks| && AllFine(g, root, s.tasks, |s.layers|, total, answered)
    requires AllFine(g, root, e.next, later, left, answered)
    requires |s.layers| <= later && left <= total && later + left <= |s.layers| + total
    ensures AllFine(g, root, Apply(s, n, e).tasks, later, left, answered)
  {
    var all := Apply(s, n, e).tasks;
    forall m | 0 <= m < |all| ensures Fine(g, root, all[m], later, left, answered) {
      if n <= m < n + |e.next| {
        assert all[m] == e.next[m - n];
      } else {
        var before := if m < n then m else m - |e.next| + 1;
        assert all[m] == s.tasks[before];
        StaysFine(g, root, s.tasks[before], |s.layers|, total, later, left, answered);
      }
    }
  }

  lemma {:induction false} StepTallied(g: Graph, root: World, s: State, n: nat, fails: bool, answered: bool)
    requires Tallied(g, root, s, answered) && n < |s.tasks| && Ranged(g, s.tasks) && (fails ==> !answered)
    ensures Tallied(g, root, Step(g, s, n, fails), answered)
  {
    var t := s.tasks[n];
    var total := Total(s.tasks, AmountIn(g, true));
    assert Fine(g, root, t, |s.layers|, total, answered);
    SplitTotal(s.tasks, n, AmountIn(g, true));
    AdvanceTallies(g, root, s, t, fails, total, answered);
    var e := Advance(g, s, t, fails);
    ApplyTotal(s, n, e, AmountIn(g, true));
    var left := Total(Apply(s, n, e).tasks, AmountIn(g, true));
    assert left == total - TaskAmount(g, t, true) + Total(e.next, AmountIn(g, true));
    ApplyFine(g, root, s, n, e, total, |s.layers| + |e.layers|, left, answered);
  }

  lemma {:induction false} InitialTallied(g: Graph, root: World, answered: bool)
    ensures Tallied(g, root, Initial(root), answered)
  {
    OneAmount(g, Loading(Root(root)), true);
    assert VisitAt(g, Root(root), []) == Some(Root(root));
  }

  lemma {:induction false} RunTallied(g: Graph, world: World, run: seq<State>, k: nat, answered: bool)
    requires IsRun(g, world, run, answered) && k < |run|
    ensures Tallied(g, world, run[k], answered)
  {
    if k == 0 {
      InitialTallied(g, world, answered);
    } else {
      RunTallied(g, world, run, k - 1, answered);
      var n, fails := StepOf(g, world, run, k, answered);
      StepTallied(g, world, run[k - 1], n, fails, answered);
    }
  }

  /** A task that takes a layer past the limit shows a layer that can. */
  lemma {:induction false} TakenOverruns(g: Graph, root: World, s: State, n: nat, answered: bool)
      returns (route: seq<nat>, i: nat)
    requires Tallied(g, root, s, answered) && n < |s.tasks| && s.tasks[n].Checking? && |s.layers| >= MAX_LAYERS
    ensures Overruns(g, root, route, i, answered)
  {
    var t := s.tasks[n];
    var total := Total(s.tasks, AmountIn(g, true));
    assert Fine(g, root, t, |s.layers|, total, answered);
    i := t.i;
    route :| VisitAt(g, Root(root), route) == Some(t.v);
    VisitEntered(g, Root(root), route);
    SplitTotal(s.tasks, n, AmountIn(g, true));
    FirmCounts(g, t.v.world, i);
  }

  /** On any graph, a run past the limit shows such a layer. */
  lemma {:induction false} OverrunShows(g: Graph, world: World, run: seq<State>, k: nat, answered: bool)
      returns (route: seq<nat>, i: nat)
    requires IsRun(g, world, run, answered) && k < |run| && |run[k].layers| > MAX_LAYERS
    ensures Overruns(g, world, route, i, answered)
  {
    var n, fails := StepOf(g, world, run, k, answered);
    if |run[k - 1].layers| > MAX_LAYERS {
      route, i := OverrunShows(g, world, run, k - 1, answered);
    } else {
      PastLimit(g, run[k - 1], n, fails);
      RunTallied(g, world, run, k - 1, answered);
      route, i := TakenOverruns(g, world, run[k - 1], n, answered);
    }
  }
}
