/** Which graphs let the limit on layers be passed: a schedule that passes it is built from any layer
    that can. */
module WorldsOverrun {
  import opened Options
  import opened Worlds
  import opened WorldsComplete
  import opened WorldsLayers

  // ---------------------------------------------------------------- one step of the schedule

  /** A graph with the worlds that can be reached, whether the network always answers, and how many
      layers each task, and the root, has to come. */
  datatype Setting = Setting(
    g: Graph, root: World, worlds: set<World>, answered: bool, amount: Task -> nat, all: nat)

  ghost predicate Fair(x: Setting) {
    && Within(x.g, x.root, x.worlds)
    && forall t {:trigger TaskAmount(x.g, t, true)} :: InRange(x.g, t) ==> x.amount(t) == TaskAmount(x.g, t, true)
  }

  /** The situation of a task whose visit was let in. */
  predicate Entered(x: Setting, t: Task) {
    InRange(x.g, t) && t.v.world in x.worlds && (t.Loading? ==> !Cut(t.v))
  }

  predicate AllEntered(x: Setting, tasks: seq<Task>) {
    forall n {:trigger Entered(x, tasks[n])} :: 0 <= n < |tasks| ==> Entered(x, tasks[n])
  }

  ghost predicate Open(x: Setting, s: State) {
    AllEntered(x, s.tasks) && s.projects <= x.worlds && Reachable(x.g, x.root, s, x.answered)
  }

  /** A step that finds the layers it should, but for the one whose metadata fails. */
  ghost predicate Takes(x: Setting, t: Task, e: Effect, fails: bool) {
    && e.projects <= x.worlds && AllEntered(x, e.next)
    && |e.layers| + Total(e.next, x.amount) + (if fails then 1 else 0) == x.amount(t)
  }

  predicate Room(s: State, t: Task, fails: bool) {
    (t.Layering? ==> |s.layers| < MAX_LAYERS) && (fails ==> t.Checking?)
  }

  lemma {:induction false} NextTakes(x: Setting, t: Task, u: Task, e: Effect, fails: bool)
    requires Fair(x) && Entered(x, t) && e.next == [u] && e.projects <= x.worlds && Entered(x, u)
    requires |e.layers| + TaskAmount(x.g, u, true) + (if fails then 1 else 0) == TaskAmount(x.g, t, true)
    ensures Takes(x, t, e, fails)
  {
    assert [u][1..] == [] && [u][0] == u;
  }

  lemma {:induction false} ResolvingTakes(x: Setting, s: State, v: Visit, k: nat)
    requires Fair(x) && s.projects <= x.worlds && Entered(x, Resolving(v, k))
    ensures Takes(x, Resolving(v, k), Advance(x.g, s, Resolving(v, k), false), false)
  {
    var e := Advance(x.g, s, Resolving(v, k), false);
    var target := x.g.target(x.g.manifest(v.world).imports[k]);
    if target.None? {
      assert TaskAmount(x.g, Resolving(v, k), true) == 0;
    } else {
      var child := Child(x.g, v, k, target.value);
      assert TaskAmount(x.g, Resolving(v, k), true) == Amount(x.g, child, true);
      if !Cut(child) {
        if child.world !in s.projects { WithinLimit(s.projects, x.worlds, child.world); }
        NextTakes(x, Resolving(v, k), Loading(child), e, false);
      }
    }
  }

  lemma {:induction false} LayeringTakes(x: Setting, s: State, v: Visit, i: nat)
    requires Fair(x) && Entered(x, Layering(v, i)) && |s.layers| < MAX_LAYERS
    ensures Takes(x, Layering(v, i), Advance(x.g, s, Layering(v, i), false), false)
  {
    var e := Advance(x.g, s, Layering(v, i), false);
    NextTakes(x, Layering(v, i), e.next[0], e, false);
  }

  lemma {:induction false} ImportsTotal(x: Setting, v: Visit, k: nat)
    requires Fair(x) && v.depth <= MAX_DEPTH
    ensures Total(Imports(x.g, v, k), x.amount) == AmountFrom(x.g, v, k, true)
    decreases |x.g.manifest(v.world).imports| - k
  {
    if k < |x.g.manifest(v.world).imports| {
      ImportsTotal(x, v, k + 1);
      assert Imports(x.g, v, k)[1..] == Imports(x.g, v, k + 1);
      assert TaskAmount(x.g, Resolving(v, k), true) == AmountImport(x.g, v, k, true);
    }
  }

  lemma {:induction false} TouchingTakes(x: Setting, s: State, v: Visit, j: nat)
    requires Fair(x) && Entered(x, Touching(v, j))
    ensures Takes(x, Touching(v, j), Advance(x.g, s, Touching(v, j), false), false)
  {
    var e := Advance(x.g, s, Touching(v, j), false);
    if j == |x.g.manifest(v.world).touchpoints| || |s.touchpoints| >= MAX_TOUCHPOINTS {
      ImportsTotal(x, v, 0);
      ImportsWait(x.g, v, 0);
      forall n | 0 <= n < |e.next| ensures Entered(x, e.next[n]) {
        assert e.next[n] == Resolving(v, n);
      }
      assert TaskAmount(x.g, Touching(v, j), true) == AmountFrom(x.g, v, 0, true);
    } else {
      NextTakes(x, Touching(v, j), Touching(v, j + 1), e, false);
    }
  }

  lemma {:induction false} AdvanceTakes(x: Setting, s: State, t: Task, fails: bool)
    requires Fair(x) && s.projects <= x.worlds && Entered(x, t) && Room(s, t, fails)
    ensures Takes(x, t, Advance(x.g, s, t, fails), fails)
  {
    match t
    case Resolving(v, k) => ResolvingTakes(x, s, v, k);
    case Loading(v) => NextTakes(x, t, Layering(v, 0), Advance(x.g, s, t, fails), fails);
    case Layering(v, i) => LayeringTakes(x, s, v, i);
    case Checking(v, i) => NextTakes(x, t, Layering(v, i + 1), Advance(x.g, s, t, fails), fails);
    case Touching(v, j) => TouchingTakes(x, s, v, j);
  }

  lemma {:induction false} ApplyEntered(x: Setting, s: State, n: nat, e: Effect)
    requires n < |s.tasks| && AllEntered(x, s.tasks) && AllEntered(x, e.next)
    ensures AllEntered(x, Apply(s, n, e).tasks)
  {
    var all := Apply(s, n, e).tasks;
    forall i | 0 <= i < |all| ensures Entered(x, all[i]) {
      if n <= i < n + |e.next| {
        assert Entered(x, e.next[i - n]);
      } else {
        var before := if i < n then i else i - |e.next| + 1;
        assert all[i] == s.tasks[before] && Entered(x, s.tasks[before]);
      }
    }
  }

  lemma {:induction false} StepOpen(x: Setting, s: State, n: nat, fails: bool)
    requires Fair(x) && Open(x, s) && n < |s.tasks| && Ranged(x.g, s.tasks)
    requires Room(s, s.tasks[n], fails) && (fails ==> !x.answered)
    ensures var t := Step(x.g, s, n, fails);
      && Open(x, t) && Measure(x.g, t) < Measure(x.g, s)
      && |t.layers| + Total(t.tasks, x.amount) + (if fails then 1 else 0) == |s.layers| + Total(s.tasks, x.amount)
  {
    var e := Advance(x.g, s, s.tasks[n], fails);
    assert Entered(x, s.tasks[n]);
    AdvanceTakes(x, s, s.tasks[n], fails);
    ApplyEntered(x, s, n, e);
    ApplyTotal(s, n, e, x.amount);
    AdvanceMoves(x.g, s, s.tasks[n], fails);
    ApplyCosts(x.g, s, n, e);
    ReachableNext(x.g, x.root, s, n, fails, x.answered);
  }

  // ---------------------------------------------------------------- going down to a layer

  /** The task in question; all layers are taken or to come, but for those lost to failures. */
  ghost predicate At(x: Setting, s: State, n: nat, t: Task, lost: nat) {
    && Open(x, s) && n < |s.tasks| && s.tasks[n] == t && InRange(x.g, t)
    && |s.layers| + lost + Total(s.tasks, x.amount) == x.all && (lost > 0 ==> !x.answered)
  }

  lemma {:induction false} OpenRanged(x: Setting, s: State)
    requires Open(x, s)
    ensures Ranged(x.g, s.tasks)
  {
    forall n | 0 <= n < |s.tasks| ensures InRange(x.g, s.tasks[n]) { assert Entered(x, s.tasks[n]); }
  }

  lemma {:induction false} NextAt(s: State, n: nat, e: Effect, k: nat)
    requires n < |s.tasks| && k < |e.next|
    ensures n + k < |Apply(s, n, e).tasks| && Apply(s, n, e).tasks[n + k] == e.next[k]
  {}

  /** One step of that task, to the task that is at the same place now. */
  lemma {:induction false} Goes(x: Setting, s: State, n: nat, t: Task, e: Effect, k: nat, u: Task, lost: nat)
      returns (s': State)
    requires Fair(x) && At(x, s, n, t, lost) && Room(s, t, false)
    requires e == Advance(x.g, s, t, false) && k < |e.next| && e.next[k] == u && InRange(x.g, u)
    ensures At(x, s', n + k, u, lost)
    ensures s'.layers == s.layers + e.layers && s'.touchpoints == s.touchpoints + e.touchpoints
  {
    OpenRanged(x, s);
    s' := Step(x.g, s, n, false);
    StepOpen(x, s, n, false);
    NextAt(s, n, e, k);
  }

  /** The metadata of a layer fails. */
  lemma {:induction false} Loses(x: Setting, s: State, n: nat, v: Visit, p: nat, lost: nat) returns (s': State)
    requires Fair(x) && At(x, s, n, Checking(v, p), lost) && !x.answered
    ensures At(x, s', n, Layering(v, p + 1), lost + 1) && s'.layers == s.layers
  {
    OpenRanged(x, s);
    s' := Step(x.g, s, n, true);
    StepOpen(x, s, n, true);
    NextAt(s, n, Advance(x.g, s, Checking(v, p), true), 0);
  }

  /** What a layer does while there is room. */
  lemma {:induction false} LayerMet(g: Graph, s: State, v: Visit, p: nat)
    requires InRange(g, Layering(v, p)) && p < |g.manifest(v.world).layers| && |s.layers| < MAX_LAYERS
    ensures Advance(g, s, Layering(v, p), false) ==
            if Streamed(g.manifest(v.world).layers[p]) then Go([Checking(v, p)])
            else Effect([Layering(v, p + 1)], {}, [LayerOf(g, v, p)], [], [])
  {}

  /** What follows a layer. */
  function AfterLayer(g: Graph, v: Visit, p: nat): Task
    requires p < |g.manifest(v.world).layers|
  {
    if Streamed(g.manifest(v.world).layers[p]) then Checking(v, p) else Layering(v, p + 1)
  }

  lemma {:induction false} DownMet(x: Setting, s: State, n: nat, v: Visit, p: nat, lost: nat) returns (s': State)
    requires p < |x.g.manifest(v.world).layers| && Fair(x) && |s.layers| < MAX_LAYERS
    requires At(x, s, n, Layering(v, p), lost)
    ensures At(x, s', n, AfterLayer(x.g, v, p), lost)
    ensures |s'.layers| == |s.layers| + if Streamed(x.g.manifest(v.world).layers[p]) then 0 else 1
  {
    LayerMet(x.g, s, v, p);
    var e := Advance(x.g, s, Layering(v, p), false);
    s' := Goes(x, s, n, Layering(v, p), e, 0, AfterLayer(x.g, v, p), lost);
  }

  lemma {:induction false} DownChecked(x: Setting, s: State, n: nat, v: Visit, p: nat, lost: nat) returns (s': State)
    requires Fair(x) && At(x, s, n, Checking(v, p), lost)
    ensures At(x, s', n, Layering(v, p + 1), lost) && |s'.layers| == |s.layers| + 1
  {
    var e := Advance(x.g, s, Checking(v, p), false);
    s' := Goes(x, s, n, Checking(v, p), e, 0, Layering(v, p + 1), lost);
  }

  /** The first few of the streamed layers between p and q may fail. */
  ghost predicate Spared(g: Graph, w: World, p: nat, q: nat, b: nat) {
    p <= q <= |g.manifest(w).layers| && b + Firm(g, w, q, false) - Firm(g, w, p, false) <= q - p
  }

  lemma {:induction false} SparedNext(g: Graph, w: World, p: nat, q: nat, b: nat)
    requires Spared(g, w, p, q, b) && p < q
    ensures Spared(g, w, p + 1, q, if b > 0 && Streamed(g.manifest(w).layers[p]) then b - 1 else b) && b <= q - p
  {
    FirmGrows(g, w, p, q);
    FirmGrows(g, w, p + 1, q);
  }

  /** At layer p of a visit, on the way to layer q, with b failures and room for the others to come. */
  ghost predicate Midway(x: Setting, s: State, n: nat, v: Visit, p: nat, q: nat, b: nat, lost: nat) {
    && Spared(x.g, v.world, p, q, b) && |s.layers| + (q - p) - b < MAX_LAYERS
    && At(x, s, n, Layering(v, p), lost) && (b > 0 ==> !x.answered)
  }

  /** One layer of a visit; if it is streamed and one may fail, it does. */
  lemma {:induction false} DownLayer(x: Setting, s: State, n: nat, v: Visit, p: nat, q: nat, b: nat, lost: nat)
      returns (s': State, c: nat, gone: nat)
    requires Fair(x) && Midway(x, s, n, v, p, q, b, lost) && p < q
    ensures Midway(x, s', n, v, p + 1, q, c, gone)
    ensures |s'.layers| - c == |s.layers| + 1 - b && gone + c == lost + b
  {
    SparedNext(x.g, v.world, p, q, b);
    s' := DownMet(x, s, n, v, p, lost);
    c, gone := b, lost;
    if b > 0 && Streamed(x.g.manifest(v.world).layers[p]) {
      c, gone := b - 1, lost + 1;
      s' := Loses(x, s', n, v, p, lost);
    } else if Streamed(x.g.manifest(v.world).layers[p]) {
      s' := DownChecked(x, s', n, v, p, lost);
    }
  }

  /** The layers of one visit, the first few of the streamed ones failing. */
  lemma {:induction false} DownLayers(x: Setting, s: State, n: nat, v: Visit, p: nat, q: nat, b: nat, lost: nat)
      returns (s': State)
    requires Fair(x) && Midway(x, s, n, v, p, q, b, lost)
    ensures At(x, s', n, Layering(v, q), lost + b) && |s'.layers| == |s.layers| + (q - p) - b
    decreases q - p
  {
    if p == q {
      s' := s;
    } else {
      var next, c, gone := DownLayer(x, s, n, v, p, q, b, lost);
      s' := DownLayers(x, next, n, v, p + 1, q, c, gone);
    }
  }

  /** There are no more touchpoints to take. */
  predicate TouchpointsEnd(g: Graph, s: State, v: Visit, j: nat) {
    j == |g.manifest(v.world).touchpoints| || |s.touchpoints| >= MAX_TOUCHPOINTS
  }

  lemma {:induction false} TouchMet(g: Graph, s: State, v: Visit, j: nat)
    requires InRange(g, Touching(v, j))
    ensures var e := Advance(g, s, Touching(v, j), false);
      e.layers == [] && e.next == if TouchpointsEnd(g, s, v, j) then Imports(g, v, 0) else [Touching(v, j + 1)]
  {}

  lemma {:induction false} DownTouchpoint(x: Setting, s: State, n: nat, v: Visit, j: nat, lost: nat)
      returns (s': State)
    requires Fair(x) && At(x, s, n, Touching(v, j), lost) && !TouchpointsEnd(x.g, s, v, j)
    ensures At(x, s', n, Touching(v, j + 1), lost) && |s'.layers| == |s.layers|
  {
    TouchMet(x.g, s, v, j);
    var e := Advance(x.g, s, Touching(v, j), false);
    s' := Goes(x, s, n, Touching(v, j), e, 0, Touching(v, j + 1), lost);
  }

  lemma {:induction false} DownToImports(x: Setting, s: State, n: nat, v: Visit, j: nat, k: nat, lost: nat)
      returns (s': State)
    requires Fair(x) && At(x, s, n, Touching(v, j), lost) && TouchpointsEnd(x.g, s, v, j)
    requires k < |x.g.manifest(v.world).imports|
    ensures At(x, s', n + k, Resolving(v, k), lost) && |s'.layers| == |s.layers|
  {
    TouchMet(x.g, s, v, j);
    ImportsWait(x.g, v, 0);
    s' := Goes(x, s, n, Touching(v, j), Advance(x.g, s, Touching(v, j), false), k, Resolving(v, k), lost);
  }

  lemma {:induction false} DownTouchpoints(x: Setting, s: State, n: nat, v: Visit, j: nat, k: nat, lost: nat)
      returns (s': State)
    requires Fair(x) && k < |x.g.manifest(v.world).imports| && At(x, s, n, Touching(v, j), lost)
    ensures At(x, s', n + k, Resolving(v, k), lost) && |s'.layers| == |s.layers|
    decreases |x.g.manifest(v.world).touchpoints| - j
  {
    if TouchpointsEnd(x.g, s, v, j) {
      s' := DownToImports(x, s, n, v, j, k, lost);
    } else {
      s' := DownTouchpoint(x, s, n, v, j, lost);
      s' := DownTouchpoints(x, s', n, v, j + 1, k, lost);
    }
  }

  /** The visit that an import leads to is not refused. */
  predicate Leads(g: Graph, v: Visit, k: nat) {
    && k < |g.manifest(v.world).imports|
    && var target := g.target(g.manifest(v.world).imports[k]); target.Some? && !Cut(Child(g, v, k, target.value))
  }

  function ChildAt(g: Graph, v: Visit, k: nat): Visit
    requires Leads(g, v, k)
  {
    Child(g, v, k, g.target(g.manifest(v.world).imports[k]).value)
  }

  lemma {:induction false} ImportMet(x: Setting, s: State, v: Visit, k: nat)
    requires Fair(x) && s.projects <= x.worlds && Entered(x, Resolving(v, k)) && Leads(x.g, v, k)
    ensures var e := Advance(x.g, s, Resolving(v, k), false);
      e.next == [Loading(ChildAt(x.g, v, k))] && InRange(x.g, Loading(ChildAt(x.g, v, k))) && e.layers == []
  {
    var child := ChildAt(x.g, v, k);
    if child.world !in s.projects { WithinLimit(s.projects, x.worlds, child.world); }
  }

  lemma {:induction false} DownImport(x: Setting, s: State, n: nat, v: Visit, k: nat, lost: nat) returns (s': State)
    requires Fair(x) && At(x, s, n, Resolving(v, k), lost) && Leads(x.g, v, k)
    ensures At(x, s', n, Loading(ChildAt(x.g, v, k)), lost) && |s'.layers| == |s.layers|
  {
    assert Entered(x, s.tasks[n]);
    ImportMet(x, s, v, k);
    var e := Advance(x.g, s, Resolving(v, k), false);
    s' := Goes(x, s, n, Resolving(v, k), e, 0, Loading(ChildAt(x.g, v, k)), lost);
  }

  lemma {:induction false} DownManifest(x: Setting, s: State, n: nat, v: Visit, lost: nat) returns (s': State)
    requires Fair(x) && At(x, s, n, Loading(v), lost)
    ensures At(x, s', n, Layering(v, 0), lost) && s'.layers == s.layers
  {
    s' := Goes(x, s, n, Loading(v), Go([Layering(v, 0)]), 0, Layering(v, 0), lost);
  }

  lemma {:induction false} DownFromLayers(x: Setting, s: State, n: nat, v: Visit, i: nat, lost: nat)
      returns (s': State)
    requires Fair(x) && At(x, s, n, Layering(v, i), lost)
    requires i == |x.g.manifest(v.world).layers| && |s.layers| < MAX_LAYERS
    ensures At(x, s', n, Touching(v, 0), lost) && s'.layers == s.layers
  {
    s' := Goes(x, s, n, Layering(v, i), Go([Touching(v, 0)]), 0, Touching(v, 0), lost);
  }

  /** What is above a visit is above all the visits below it. */
  lemma {:induction false} AboveGrows(g: Graph, v: Visit, route: seq<nat>, i: nat)
    requires VisitAt(g, v, route).Some? && i <= |g.manifest(VisitAt(g, v, route).value.world).layers|
    ensures var u := VisitAt(g, v, route).value;
      && Above(g, v, 0, false) <= Above(g, u, i, false)
      && Above(g, u, i, false) - Above(g, v, 0, false) <= Above(g, u, i, true) - Above(g, v, 0, true)
    ensures route != [] ==> var u, all := VisitAt(g, v, route).value, |g.manifest(v.world).layers|;
      && Above(g, v, all, false) <= Above(g, u, i, false)
      && Above(g, u, i, false) - Above(g, v, all, false) <= Above(g, u, i, true) - Above(g, v, all, true)
    decreases |route|
  {
    if route == [] {
      FirmGrows(g, v.world, 0, i);
      FirmCounts(g, v.world, i);
    } else {
      var w := g.target(g.manifest(v.world).imports[route[0]]).value;
      AboveGrows(g, Child(g, v, route[0], w), route[1..], i);
      AboveChild(g, v, route[0], w, true);
      AboveChild(g, v, route[0], w, false);
      FirmGrows(g, v.world, 0, |g.manifest(v.world).layers|);
      FirmCounts(g, v.world, |g.manifest(v.world).layers|);
    }
  }

  /** Through a visit to the visit of one of its imports. */
  lemma {:induction false} DownVisit(x: Setting, s: State, n: nat, v: Visit, k: nat, b: nat, lost: nat)
      returns (s': State)
    requires Fair(x) && At(x, s, n, Loading(v), lost) && (b > 0 ==> !x.answered)
    requires Leads(x.g, v, k) && Spared(x.g, v.world, 0, |x.g.manifest(v.world).layers|, b)
    requires |s.layers| + |x.g.manifest(v.world).layers| - b < MAX_LAYERS
    ensures At(x, s', n + k, Loading(ChildAt(x.g, v, k)), lost + b)
    ensures |s'.layers| == |s.layers| + |x.g.manifest(v.world).layers| - b
  {
    var all := |x.g.manifest(v.world).layers|;
    s' := DownManifest(x, s, n, v, lost);
    s' := DownLayers(x, s', n, v, 0, all, b, lost);
    s' := DownFromLayers(x, s', n, v, all, lost + b);
    s' := DownTouchpoints(x, s', n, v, 0, k, lost + b);
    s' := DownImport(x, s', n + k, v, k, lost + b);
  }

  /** On the way from above a visit to one of its layers, b of the streamed layers may fail, and the
      others leave room. */
  ghost predicate Leaves(g: Graph, v: Visit, route: seq<nat>, i: nat, count: nat, b: nat) {
    var at := VisitAt(g, v, route);
    && at.Some? && i <= |g.manifest(at.value.world).layers|
    && b + Above(g, at.value, i, false) - Above(g, v, 0, false) <= Above(g, at.value, i, true) - Above(g, v, 0, true)
    && count + Above(g, at.value, i, true) - Above(g, v, 0, true) - b < MAX_LAYERS
  }

  /** How many of them fail in the first visit. */
  lemma {:induction false} LeavesNext(g: Graph, v: Visit, route: seq<nat>, i: nat, count: nat, b: nat) returns (c: nat)
    requires Leaves(g, v, route, i, count, b) && route != []
    ensures c <= b && Spared(g, v.world, 0, |g.manifest(v.world).layers|, c)
    ensures count + |g.manifest(v.world).layers| - c < MAX_LAYERS
    ensures Leads(g, v, route[0])
    ensures var child := ChildAt(g, v, route[0]);
      && Leaves(g, child, route[1..], i, count + |g.manifest(v.world).layers| - c, b - c)
      && Above(g, child, 0, true) == Above(g, v, 0, true) + |g.manifest(v.world).layers|
  {
    var all := |g.manifest(v.world).layers|;
    var w := g.target(g.manifest(v.world).imports[route[0]]).value;
    AboveGrows(g, v, route, i);
    FirmCounts(g, v.world, all);
    FirmGrows(g, v.world, 0, all);
    AboveChild(g, v, route[0], w, true);
    AboveChild(g, v, route[0], w, false);
    var streamed := all - Firm(g, v.world, all, false);
    c := if b <= streamed then b else streamed;
  }

  lemma {:induction false} LeavesLast(g: Graph, v: Visit, i: nat, count: nat, b: nat)
    requires Leaves(g, v, [], i, count, b)
    ensures Spared(g, v.world, 0, i, b) && Above(g, v, i, true) == Above(g, v, 0, true) + i
  {
    FirmCounts(g, v.world, i);
  }

  lemma {:induction false} DownLast(x: Setting, s: State, n: nat, v: Visit, i: nat, b: nat, lost: nat)
      returns (s': State)
    requires Fair(x) && At(x, s, n, Loading(v), lost) && (b > 0 ==> !x.answered)
    requires Leaves(x.g, v, [], i, |s.layers|, b)
    ensures At(x, s', n, Layering(v, i), lost + b)
    ensures |s'.layers| == |s.layers| + Above(x.g, v, i, true) - Above(x.g, v, 0, true) - b
  {
    LeavesLast(x.g, v, i, |s.layers|, b);
    s' := DownManifest(x, s, n, v, lost);
    s' := DownLayers(x, s', n, v, 0, i, b, lost);
  }

  /** Down a route to one of the layers of the visit at its end. */
  lemma {:induction false} Down(x: Setting, s: State, n: nat, v: Visit, route: seq<nat>, i: nat, b: nat, lost: nat)
      returns (s': State, m: nat)
    requires Fair(x) && At(x, s, n, Loading(v), lost) && (b > 0 ==> !x.answered)
    requires Leaves(x.g, v, route, i, |s.layers|, b)
    ensures At(x, s', m, Layering(VisitAt(x.g, v, route).value, i), lost + b)
    ensures |s'.layers| == |s.layers| + Above(x.g, VisitAt(x.g, v, route).value, i, true) - Above(x.g, v, 0, true) - b
    decreases |route|
  {
    if route == [] {
      s' := DownLast(x, s, n, v, i, b, lost);
      m := n;
    } else {
      var c := LeavesNext(x.g, v, route, i, |s.layers|, b);
      var next := DownVisit(x, s, n, v, route[0], c, lost);
      s', m := Down(x, next, n + route[0], ChildAt(x.g, v, route[0]), route[1..], i, b - c, lost + c);
    }
  }

  // ---------------------------------------------------------------- going past the limit

  /** Another task takes a step, and this one waits. */
  lemma {:induction false} Waits(x: Setting, s: State, n: nat, k: nat) returns (s': State, m: nat)
    requires Fair(x) && Open(x, s) && n < |s.tasks| && k < |s.tasks| && n != k && |s.layers| < MAX_LAYERS
    ensures Open(x, s') && m < |s'.tasks| && s'.tasks[m] == s.tasks[n]
    ensures Measure(x.g, s') < Measure(x.g, s) && |s.layers| <= |s'.layers| <= |s.layers| + 1
    ensures |s'.layers| + Total(s'.tasks, x.amount) == |s.layers| + Total(s.tasks, x.amount)
  {
    OpenRanged(x, s);
    s' := Step(x.g, s, k, false);
    StepOpen(x, s, k, false);
    m := OtherAt(s, k, Advance(x.g, s, s.tasks[k], false), n);
    GrowsByOne(x.g, s, s.tasks[k], false);
  }

  lemma {:induction false} GrowsByOne(g: Graph, s: State, t: Task, fails: bool)
    requires InRange(g, t)
    ensures |Advance(g, s, t, fails).layers| <= 1
  {}

  lemma {:induction false} OtherAt(s: State, k: nat, e: Effect, n: nat) returns (m: nat)
    requires n < |s.tasks| && k < |s.tasks| && n != k
    ensures m < |Apply(s, k, e).tasks| && Apply(s, k, e).tasks[m] == s.tasks[n]
  {
    m := if n < k then n else n - 1 + |e.next|;
  }

  /** The other tasks go on until there is no room. */
  lemma {:induction false} Fill(x: Setting, s: State, n: nat, t: Task) returns (s': State, m: nat)
    requires Fair(x) && Open(x, s) && n < |s.tasks| && s.tasks[n] == t
    requires |s.layers| <= MAX_LAYERS <= |s.layers| + Total(s.tasks, x.amount) - x.amount(t)
    ensures Open(x, s') && m < |s'.tasks| && s'.tasks[m] == t && |s'.layers| == MAX_LAYERS
    decreases Measure(x.g, s)
  {
    if |s.layers| == MAX_LAYERS {
      s', m := s, n;
    } else {
      SplitTotal(s.tasks, n, x.amount);
      var next;
      next, m := Waits(x, s, n, if n == 0 then 1 else 0);
      s', m := Fill(x, next, m, t);
    }
  }

  /** The waiting layer is taken although there is no room. */
  lemma {:induction false} Overfull(x: Setting, s: State, n: nat) returns (s': State)
    requires Open(x, s) && n < |s.tasks| && s.tasks[n].Checking? && |s.layers| == MAX_LAYERS
    ensures Reachable(x.g, x.root, s', x.answered) && |s'.layers| == MAX_LAYERS + 1
  {
    OpenRanged(x, s);
    s' := Step(x.g, s, n, false);
    ReachableNext(x.g, x.root, s, n, false, x.answered);
  }

  /** How many of the layers above fail, so that there is room. */
  lemma {:induction false} OverrunLeaves(g: Graph, root: World, u: Visit, route: seq<nat>, i: nat, answered: bool)
      returns (b: nat)
    requires Overruns(g, root, route, i, answered) && u == VisitAt(g, Root(root), route).value
    ensures Leaves(g, Root(root), route, i, 0, b) && (b > 0 ==> !answered)
    ensures Above(g, Root(root), 0, true) == 0 && (b > 0 ==> Above(g, u, i, true) - b == MAX_LAYERS - 1)
  {
    AboveGrows(g, Root(root), route, i);
    var all := Above(g, u, i, true);
    b := if all < MAX_LAYERS then 0 else all - (MAX_LAYERS - 1);
  }

  lemma {:induction false} InitialAt(x: Setting)
    requires Fair(x) && x.all == Amount(x.g, Root(x.root), true)
    ensures At(x, Initial(x.root), 0, Loading(Root(x.root)), 0)
  {
    var t := Loading(Root(x.root));
    ReachableFirst(x.g, x.root, x.answered);
    assert [t][1..] == [] && [t][0] == t;
    assert TaskAmount(x.g, t, true) == x.all;
  }

  /** A schedule that ends before the metadata of such a layer is fetched, while there is room. */
  lemma {:induction false} OverrunWaits(x: Setting, u: Visit, route: seq<nat>, i: nat)
      returns (s: State, n: nat, b: nat)
    requires Fair(x) && x.all == Amount(x.g, Root(x.root), true)
    requires Overruns(x.g, x.root, route, i, x.answered) && u == VisitAt(x.g, Root(x.root), route).value
    ensures At(x, s, n, Checking(u, i), b) && |s.layers| == Above(x.g, u, i, true) - b < MAX_LAYERS
    ensures b > 0 ==> |s.layers| == MAX_LAYERS - 1
  {
    b := OverrunLeaves(x.g, x.root, u, route, i, x.answered);
    InitialAt(x);
    s, n := Down(x, Initial(x.root), 0, Root(x.root), route, i, b, 0);
    s := DownMet(x, s, n, u, i, b);
  }

  /** What is then to come beside the layer fills the room. */
  lemma {:induction false} RoomFills(x: Setting, u: Visit, route: seq<nat>, i: nat, count: nat, total: nat, b: nat)
    requires Overruns(x.g, x.root, route, i, x.answered) && u == VisitAt(x.g, Root(x.root), route).value
    requires InRange(x.g, Checking(u, i)) && count + b + total == Amount(x.g, Root(x.root), true)
    requires count == Above(x.g, u, i, true) - b && (b > 0 ==> count == MAX_LAYERS - 1)
    ensures MAX_LAYERS <= count + total - TaskAmount(x.g, Checking(u, i), true)
  {
    VisitEntered(x.g, Root(x.root), route);
    FirmCounts(x.g, u.world, i);
  }

  /** From a layer that can, a run past the limit. */
  lemma {:induction false} OverrunHappens(g: Graph, root: World, worlds: set<World>, route: seq<nat>, i: nat,
                                          answered: bool)
      returns (s: State)
    requires Within(g, root, worlds) && Overruns(g, root, route, i, answered)
    ensures Reachable(g, root, s, answered) && |s.layers| == MAX_LAYERS + 1
  {
    var x := Setting(g, root, worlds, answered, AmountIn(g, true), Amount(g, Root(root), true));
    var u := VisitAt(g, Root(root), route).value;
    var n, b;
    s, n, b := OverrunWaits(x, u, route, i);
    RoomFills(x, u, route, i, |s.layers|, Total(s.tasks, x.amount), b);
    s, n := Fill(x, s, n, Checking(u, i));
    s := Overfull(x, s, n);
  }

  /** The limit on layers can be passed exactly when some streamed layer can be checked while there is
      room and the visits beside its own can then fill the room. */
  lemma {:induction false} PassedExactly(g: Graph, world: World, worlds: set<World>, answered: bool)
    requires Within(g, world, worlds)
    ensures
      (exists s :: Reachable(g, world, s, answered) && |s.layers| > MAX_LAYERS) <==>
      (exists route, i :: Overruns(g, world, route, i, answered))
  {
    if s :| Reachable(g, world, s, answered) && |s.layers| > MAX_LAYERS {
      var run :| IsRun(g, world, run, answered) && run[|run| - 1] == s;
      var route, i := OverrunShows(g, world, run, |run| - 1, answered);
    }
    if route, i :| Overruns(g, world, route, i, answered) {
      var s := OverrunHappens(g, world, worlds, route, i, answered);
    }
  }

  /** So the limit holds if no layer is streamed, on any graph. */
  lemma {:induction false} LayersLimited(g: Graph, world: World, s: State, answered: bool)
    requires forall w, i :: 0 <= i < |g.manifest(w).layers| ==> !Streamed(g.manifest(w).layers[i])
    requires Reachable(g, world, s, answered)
    ensures |s.layers| <= MAX_LAYERS
  {
    if |s.layers| > MAX_LAYERS {
      var run :| IsRun(g, world, run, answered) && run[|run| - 1] == s;
      var route, i := OverrunShows(g, world, run, |run| - 1, answered);
    }
  }

  // ---------------------------------------------------------------- a graph that does not keep the limit

  const unplaced := Transform([])
  const crowdedRoot := World("owner", "root", "commit")

  /** A world with 63 plain layers that imports two worlds with one streamed layer each. */
  function Crowded(): Graph {
    Graph((w: World) => if w == crowdedRoot
                        then Manifest(seq(63, i => Layer("plain", "scene.sog", unplaced)), [],
                                      [Import("left", "", "", unplaced), Import("right", "", "", unplaced)])
                        else Manifest([Layer("streamed", "lod-meta.json", unplaced)], [], []),
          (entry: Import) => Some(World("owner", entry.id, "commit")))
  }

  lemma {:induction false} CrowdedLeaf(v: Visit)
    requires v.depth == 1 && v.world != crowdedRoot && v.ancestry == [crowdedRoot]
    ensures Whole(Crowded(), v) && Amount(Crowded(), v, true) == 1
  {
    assert Crowded().manifest(v.world).imports == [];
  }

  lemma {:induction false} CrowdedRoot()
    ensures Whole(Crowded(), Root(crowdedRoot)) && Amount(Crowded(), Root(crowdedRoot), true) == 65
  {
    var g, v := Crowded(), Root(crowdedRoot);
    assert |g.manifest(v.world).imports| == 2;
    CrowdedLeaf(Child(g, v, 0, World("owner", "left", "commit")));
    CrowdedLeaf(Child(g, v, 1, World("owner", "right", "commit")));
    assert WholeImport(g, v, 0) && WholeImport(g, v, 1) && WholeFrom(g, v, 2) && WholeFrom(g, v, 1);
    assert AmountImport(g, v, 0, true) == 1 && AmountImport(g, v, 1, true) == 1 && AmountFrom(g, v, 2, true) == 0;
    assert AmountFrom(g, v, 1, true) == 1;
  }

  lemma {:induction false} CrowdedWithin()
    ensures Within(Crowded(), crowdedRoot,
                   {crowdedRoot, World("owner", "left", "commit"), World("owner", "right", "commit")})
  {
    CrowdedRoot();
  }

  lemma {:induction false} CrowdedAbove(child: Visit)
    requires child == Child(Crowded(), Root(crowdedRoot), 0, World("owner", "left", "commit"))
    ensures Above(Crowded(), child, 0, true) == 63
  {
    AboveChild(Crowded(), Root(crowdedRoot), 0, child.world, true);
    FirmCounts(Crowded(), crowdedRoot, 63);
  }

  lemma {:induction false} CrowdedOverruns()
    ensures Overruns(Crowded(), crowdedRoot, [0], 0, true)
  {
    var g, v := Crowded(), Root(crowdedRoot);
    var child := Child(g, v, 0, World("owner", "left", "commit"));
    CrowdedRoot();
    CrowdedLeaf(child);
    CrowdedAbove(child);
    assert VisitAt(g, v, [0]) == VisitAt(g, child, [0][1..]) == Some(child);
  }

  /** Both streamed layers are checked when there are 63, and both are taken, although the network
      always answers. */
  lemma {:induction false} CrowdedPasses()
    ensures exists s :: Reachable(Crowded(), crowdedRoot, s, true) && |s.layers| == 65
  {
    var worlds := {crowdedRoot, World("owner", "left", "commit"), World("owner", "right", "commit")};
    CrowdedWithin();
    CrowdedOverruns();
    var s := OverrunHappens(Crowded(), crowdedRoot, worlds, [0], 0, true);
  }
}
