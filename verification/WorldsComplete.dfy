/** When a world resolves completely: a graph that unfolds to its end within the limits is resolved
    without a diagnostic, if the network answers. */
module WorldsComplete {
  import opened Options
  import opened Worlds

  // ---------------------------------------------------------------- finite graphs have no cycle

  /** No path of imports from this world is longer than h. */
  predicate Bounded(g: Graph, w: World, h: nat)
    decreases h
  {
    forall k :: 0 <= k < |g.manifest(w).imports| ==>
      h > 0 && g.target(g.manifest(w).imports[k]).Some? && Bounded(g, g.target(g.manifest(w).imports[k]).value, h - 1)
  }

  lemma {:induction false} WholeBounded(g: Graph, v: Visit)
    requires Whole(g, v)
    ensures Bounded(g, v.world, MAX_DEPTH - v.depth)
    decreases Left(v), 1, 0
  {
    WholeFromBounded(g, v, 0);
    assert Bounded(g, v.world, MAX_DEPTH - v.depth) by {
      forall k | 0 <= k < |g.manifest(v.world).imports|
        ensures g.target(g.manifest(v.world).imports[k]).Some?
        ensures Bounded(g, g.target(g.manifest(v.world).imports[k]).value, MAX_DEPTH - v.depth - 1)
      {}
    }
  }

  lemma {:induction false} WholeFromBounded(g: Graph, v: Visit, k: nat)
    requires v.depth <= MAX_DEPTH && WholeFrom(g, v, k)
    ensures forall i :: k <= i < |g.manifest(v.world).imports| ==>
      && v.depth < MAX_DEPTH && g.target(g.manifest(v.world).imports[i]).Some?
      && Bounded(g, g.target(g.manifest(v.world).imports[i]).value, MAX_DEPTH - v.depth - 1)
    decreases Left(v), 0, |g.manifest(v.world).imports| - k
  {
    if k < |g.manifest(v.world).imports| {
      assert WholeImport(g, v, k);
      var child := Child(g, v, k, g.target(g.manifest(v.world).imports[k]).value);
      assert Whole(g, child);
      WholeBounded(g, child);
      WholeFromBounded(g, v, k + 1);
    }
  }

  predicate Imported(g: Graph, a: World, b: World) {
    exists k :: 0 <= k < |g.manifest(a).imports| && g.target(g.manifest(a).imports[k]) == Some(b)
  }

  predicate IsPath(g: Graph, path: seq<World>) {
    path != [] && forall i :: 0 <= i < |path| - 1 ==> Imported(g, path[i], path[i + 1])
  }

  /** Along a path the bound goes down. */
  lemma {:induction false} Descend(g: Graph, path: seq<World>, h: nat)
    requires IsPath(g, path) && Bounded(g, path[0], h)
    ensures |path| - 1 <= h && Bounded(g, path[|path| - 1], h - (|path| - 1))
    decreases |path|
  {
    if |path| > 1 {
      assert Imported(g, path[0], path[0 + 1]);
      var k :| 0 <= k < |g.manifest(path[0]).imports| && g.target(g.manifest(path[0]).imports[k]) == Some(path[1]);
      var rest := path[1..];
      forall i | 0 <= i < |rest| - 1 ensures Imported(g, rest[i], rest[i + 1]) {
        assert Imported(g, path[i + 1], path[i + 1 + 1]);
      }
      Descend(g, rest, h - 1);
    }
  }

  /** So no path returns to where it started. */
  lemma {:induction false} NoReturn(g: Graph, path: seq<World>, h: nat)
    requires IsPath(g, path) && |path| > 1 && path[0] == path[|path| - 1]
    ensures !Bounded(g, path[0], h)
    decreases h
  {
    if Bounded(g, path[0], h) {
      Descend(g, path, h);
      NoReturn(g, path, h - (|path| - 1));
    }
  }

  // ---------------------------------------------------------------- how much there is to find

  function Own(g: Graph, v: Visit, layers: bool): nat {
    if layers then |g.manifest(v.world).layers| else |g.manifest(v.world).touchpoints|
  }

  /** A visit that is refused whatever was found before: too deep, or a cycle. */
  predicate Cut(v: Visit) {
    v.depth > MAX_DEPTH || v.world in v.ancestry
  }

  /** The number of layers, or of touchpoints, in the unfolding without what is refused. */
  function Amount(g: Graph, v: Visit, layers: bool): nat
    decreases Left(v), 2, 0
  {
    if Cut(v) then 0 else Own(g, v, layers) + AmountFrom(g, v, 0, layers)
  }

  function AmountFrom(g: Graph, v: Visit, k: nat, layers: bool): nat
    requires v.depth <= MAX_DEPTH
    decreases Left(v), 1, |g.manifest(v.world).imports| - k
  {
    if k >= |g.manifest(v.world).imports| then 0 else AmountImport(g, v, k, layers) + AmountFrom(g, v, k + 1, layers)
  }

  function AmountImport(g: Graph, v: Visit, k: nat, layers: bool): nat
    requires v.depth <= MAX_DEPTH && k < |g.manifest(v.world).imports|
    decreases Left(v), 0, 0
  {
    match g.target(g.manifest(v.world).imports[k])
    case None => 0
    case Some(world) => Amount(g, Child(g, v, k, world), layers)
  }

  function TaskAmount(g: Graph, t: Task, layers: bool): nat
    requires InRange(g, t)
  {
    match t
    case Resolving(v, k) => AmountImport(g, v, k, layers)
    case Loading(v) => Amount(g, v, layers)
    case Layering(v, i) =>
      (if layers then |g.manifest(v.world).layers| - i else Own(g, v, false)) + AmountFrom(g, v, 0, layers)
    case Checking(v, i) =>
      (if layers then |g.manifest(v.world).layers| - i else Own(g, v, false)) + AmountFrom(g, v, 0, layers)
    case Touching(v, j) => (if layers then 0 else |g.manifest(v.world).touchpoints| - j) + AmountFrom(g, v, 0, layers)
  }

  function AmountIn(g: Graph, layers: bool): Task -> nat {
    (t: Task) => if InRange(g, t) then TaskAmount(g, t, layers) else 0
  }

  lemma {:induction false} OneAmount(g: Graph, t: Task, layers: bool)
    requires InRange(g, t)
    ensures Total([t], AmountIn(g, layers)) == TaskAmount(g, t, layers)
  {
    assert [t][1..] == [] && [t][0] == t;
  }

  lemma {:induction false} ImportsAmount(g: Graph, v: Visit, k: nat, layers: bool)
    requires v.depth <= MAX_DEPTH
    ensures Total(Imports(g, v, k), AmountIn(g, layers)) == AmountFrom(g, v, k, layers)
    decreases |g.manifest(v.world).imports| - k
  {
    if k < |g.manifest(v.world).imports| {
      ImportsAmount(g, v, k + 1, layers);
      assert Imports(g, v, k)[1..] == Imports(g, v, k + 1);
    }
  }

  // ---------------------------------------------------------------- steps that report nothing

  /** A set of worlds, within the limit, that no import leaves. */
  predicate ClosedWithin(g: Graph, worlds: set<World>) {
    && |worlds| <= MAX_PROJECTS
    && forall w, k :: w in worlds && 0 <= k < |g.manifest(w).imports| && g.target(g.manifest(w).imports[k]).Some? ==>
         g.target(g.manifest(w).imports[k]).value in worlds
  }

  /** The ancestors of a visit are a path of imports from the root. */
  predicate Traced(g: Graph, root: World, v: Visit) {
    IsPath(g, v.ancestry + [v.world]) && (v.ancestry + [v.world])[0] == root && |v.ancestry| == v.depth
  }

  lemma {:induction false} ChildTraced(g: Graph, root: World, v: Visit, k: nat, w: World)
    requires Traced(g, root, v) && k < |g.manifest(v.world).imports|
    requires g.target(g.manifest(v.world).imports[k]) == Some(w)
    ensures Traced(g, root, Child(g, v, k, w))
  {
    var path := v.ancestry + [v.world];
    var longer := path + [w];
    assert Imported(g, v.world, w);
    forall i | 0 <= i < |longer| - 1 ensures Imported(g, longer[i], longer[i + 1]) {
      if i < |path| - 1 { assert Imported(g, path[i], path[i + 1]); }
    }
  }

  lemma {:induction false} NoAncestor(g: Graph, root: World, v: Visit, h: nat)
    requires Traced(g, root, v) && Bounded(g, root, h)
    ensures v.world !in v.ancestry
  {
    if v.world in v.ancestry {
      var j :| 0 <= j < |v.ancestry| && v.ancestry[j] == v.world;
      var path := v.ancestry + [v.world];
      var upTo, from := path[..j + 1], path[j..];
      forall i | 0 <= i < |upTo| - 1
        ensures Imported(g, upTo[i], upTo[i + 1])
      {
        assert Imported(g, path[i], path[i + 1]);
      }
      forall i | 0 <= i < |from| - 1
        ensures Imported(g, from[i], from[i + 1])
      {
        assert Imported(g, path[j + i], path[j + i + 1]);
      }
      Descend(g, upTo, h);
      NoReturn(g, from, h - j);
    }
  }

  /** The situation of a task in a graph that unfolds to its end. */
  predicate Sound(g: Graph, root: World, worlds: set<World>, t: Task) {
    InRange(g, t) && WholeTask(g, t) && Traced(g, root, t.v) && t.v.world in worlds
  }

  predicate AllSound(g: Graph, root: World, worlds: set<World>, tasks: seq<Task>) {
    forall n {:trigger Sound(g, root, worlds, tasks[n])} :: 0 <= n < |tasks| ==> Sound(g, root, worlds, tasks[n])
  }

  ghost predicate Clean(g: Graph, root: World, worlds: set<World>, s: State) {
    && AllSound(g, root, worlds, s.tasks) && s.projects <= worlds && s.diagnostics == []
    && |s.layers| + Total(s.tasks, AmountIn(g, true)) == Amount(g, Root(root), true)
    && |s.touchpoints| + Total(s.tasks, AmountIn(g, false)) == Amount(g, Root(root), false)
  }

  /** The worlds that can be reached keep the limit on projects. */
  ghost predicate Within(g: Graph, root: World, worlds: set<World>) {
    root in worlds && ClosedWithin(g, worlds)
  }

  /** The graph unfolds to its end, within the limit on projects. */
  ghost predicate Closed(g: Graph, root: World, worlds: set<World>) {
    Whole(g, Root(root)) && Within(g, root, worlds)
  }

  /** The graph unfolds to its end, within the limits. */
  ghost predicate Fits(g: Graph, root: World, worlds: set<World>) {
    && Closed(g, root, worlds)
    && Amount(g, Root(root), true) <= MAX_LAYERS && Amount(g, Root(root), false) <= MAX_TOUCHPOINTS
  }

  /** A step without a report that finds what it should. */
  ghost predicate Finds(g: Graph, root: World, worlds: set<World>, t: Task, e: Effect)
    requires InRange(g, t)
  {
    && e.diagnostics == [] && e.projects <= worlds && AllSound(g, root, worlds, e.next)
    && |e.layers| + Total(e.next, AmountIn(g, true)) == TaskAmount(g, t, true)
    && |e.touchpoints| + Total(e.next, AmountIn(g, false)) == TaskAmount(g, t, false)
  }

  lemma {:induction false} WithinLimit(projects: set<World>, worlds: set<World>, w: World)
    requires projects <= worlds && |worlds| <= MAX_PROJECTS && w in worlds && w !in projects
    ensures |projects| < MAX_PROJECTS
  {
    assert worlds == projects + (worlds - projects) && w in worlds - projects;
  }

  lemma {:induction false} ResolvingFinds(g: Graph, root: World, worlds: set<World>, s: State, v: Visit, k: nat)
    requires Closed(g, root, worlds) && s.projects <= worlds && Sound(g, root, worlds, Resolving(v, k))
    ensures Finds(g, root, worlds, Resolving(v, k), Advance(g, s, Resolving(v, k), false))
  {
    assert WholeImport(g, v, k);
    var w := g.target(g.manifest(v.world).imports[k]).value;
    var child := Child(g, v, k, w);
    assert Whole(g, child);
    ChildTraced(g, root, v, k, w);
    WholeBounded(g, Root(root));
    NoAncestor(g, root, child, MAX_DEPTH);
    if w !in s.projects { WithinLimit(s.projects, worlds, w); }
    OneAmount(g, Loading(child), true);
    OneAmount(g, Loading(child), false);
  }

  lemma {:induction false} NextFinds(g: Graph, root: World, worlds: set<World>, t: Task, next: Task)
    requires Sound(g, root, worlds, t) && !t.Resolving? && !next.Resolving? && InRange(g, next) && next.v == t.v
    ensures AllSound(g, root, worlds, [next])
    ensures Total([next], AmountIn(g, true)) == TaskAmount(g, next, true)
    ensures Total([next], AmountIn(g, false)) == TaskAmount(g, next, false)
  {
    OneAmount(g, next, true);
    OneAmount(g, next, false);
  }

  lemma {:induction false} ImportsFind(g: Graph, root: World, worlds: set<World>, v: Visit, k: nat)
    requires v.depth <= MAX_DEPTH && WholeFrom(g, v, k) && Traced(g, root, v) && v.world in worlds
    ensures AllSound(g, root, worlds, Imports(g, v, k))
    ensures Total(Imports(g, v, k), AmountIn(g, true)) == AmountFrom(g, v, k, true)
    ensures Total(Imports(g, v, k), AmountIn(g, false)) == AmountFrom(g, v, k, false)
    decreases |g.manifest(v.world).imports| - k
  {
    ImportsAmount(g, v, k, true);
    ImportsAmount(g, v, k, false);
    if k < |g.manifest(v.world).imports| {
      ImportsFind(g, root, worlds, v, k + 1);
      var tasks := Imports(g, v, k);
      assert tasks[0] == Resolving(v, k) && forall n :: 0 < n < |tasks| ==> tasks[n] == Imports(g, v, k + 1)[n - 1];
    }
  }

  /** Before a layer or touchpoint is taken there is room for it. */
  lemma {:induction false} RoomLeft(g: Graph, root: World, worlds: set<World>, s: State, n: nat)
    requires Clean(g, root, worlds, s) && Fits(g, root, worlds) && n < |s.tasks|
    ensures Sound(g, root, worlds, s.tasks[n])
    ensures TaskAmount(g, s.tasks[n], true) > 0 ==> |s.layers| < MAX_LAYERS
    ensures TaskAmount(g, s.tasks[n], false) > 0 ==> |s.touchpoints| < MAX_TOUCHPOINTS
  {
    SplitTotal(s.tasks, n, AmountIn(g, true));
    SplitTotal(s.tasks, n, AmountIn(g, false));
    assert Sound(g, root, worlds, s.tasks[n]);
  }

  lemma {:induction false} SplitTotal<T>(s: seq<T>, n: nat, f: T -> nat)
    requires n < |s|
    ensures Total(s, f) == Total(s[..n], f) + f(s[n]) + Total(s[n + 1..], f)
  {
    assert s == s[..n] + ([s[n]] + s[n + 1..]);
    TotalJoin(s[..n], [s[n]] + s[n + 1..], f);
    assert ([s[n]] + s[n + 1..])[1..] == s[n + 1..];
  }

  lemma {:induction false} LayeringFinds(g: Graph, root: World, worlds: set<World>, s: State, v: Visit, i: nat)
    requires Sound(g, root, worlds, Layering(v, i)) && (i < |g.manifest(v.world).layers| ==> |s.layers| < MAX_LAYERS)
    ensures Finds(g, root, worlds, Layering(v, i), Advance(g, s, Layering(v, i), false))
  {
    if i == |g.manifest(v.world).layers| {
      NextFinds(g, root, worlds, Layering(v, i), Touching(v, 0));
    } else if Streamed(g.manifest(v.world).layers[i]) {
      NextFinds(g, root, worlds, Layering(v, i), Checking(v, i));
    } else {
      NextFinds(g, root, worlds, Layering(v, i), Layering(v, i + 1));
    }
  }

  lemma {:induction false} TouchingFinds(g: Graph, root: World, worlds: set<World>, s: State, v: Visit, j: nat)
    requires Sound(g, root, worlds, Touching(v, j))
    requires j < |g.manifest(v.world).touchpoints| ==> |s.touchpoints| < MAX_TOUCHPOINTS
    ensures Finds(g, root, worlds, Touching(v, j), Advance(g, s, Touching(v, j), false))
  {
    if j == |g.manifest(v.world).touchpoints| {
      ImportsFind(g, root, worlds, v, 0);
    } else {
      NextFinds(g, root, worlds, Touching(v, j), Touching(v, j + 1));
    }
  }

  lemma {:induction false} AdvanceFinds(g: Graph, root: World, worlds: set<World>, s: State, n: nat)
    requires Clean(g, root, worlds, s) && Fits(g, root, worlds) && n < |s.tasks|
    ensures Sound(g, root, worlds, s.tasks[n]) && Finds(g, root, worlds, s.tasks[n], Advance(g, s, s.tasks[n], false))
  {
    var t := s.tasks[n];
    assert Sound(g, root, worlds, t);
    RoomLeft(g, root, worlds, s, n);
    match t
    case Resolving(v, k) => ResolvingFinds(g, root, worlds, s, v, k);
    case Loading(v) =>
      WholeBounded(g, Root(root));
      NoAncestor(g, root, v, MAX_DEPTH);
      NextFinds(g, root, worlds, t, Layering(v, 0));
    case Layering(v, i) => LayeringFinds(g, root, worlds, s, v, i);
    case Checking(v, i) => NextFinds(g, root, worlds, t, Layering(v, i + 1));
    case Touching(v, j) => TouchingFinds(g, root, worlds, s, v, j);
  }

  lemma {:induction false} ApplyTotal(s: State, n: nat, e: Effect, f: Task -> nat)
    requires n < |s.tasks|
    ensures Total(Apply(s, n, e).tasks, f) + f(s.tasks[n]) == Total(s.tasks, f) + Total(e.next, f)
  {
    SplitTotal(s.tasks, n, f);
    TotalJoin(s.tasks[..n] + e.next, s.tasks[n + 1..], f);
    TotalJoin(s.tasks[..n], e.next, f);
  }

  lemma {:induction false} ApplySound(g: Graph, root: World, worlds: set<World>, s: State, n: nat, e: Effect)
    requires n < |s.tasks| && AllSound(g, root, worlds, s.tasks) && AllSound(g, root, worlds, e.next)
    ensures AllSound(g, root, worlds, Apply(s, n, e).tasks)
  {
    var all := Apply(s, n, e).tasks;
    forall i | 0 <= i < |all| ensures Sound(g, root, worlds, all[i]) {
      if i < n { assert all[i] == s.tasks[i]; }
      else if i < n + |e.next| { assert all[i] == e.next[i - n]; }
      else { assert all[i] == s.tasks[i - |e.next| + 1]; }
    }
  }

  lemma {:induction false} StepClean(g: Graph, root: World, worlds: set<World>, s: State, n: nat)
    requires Clean(g, root, worlds, s) && Fits(g, root, worlds) && n < |s.tasks|
    ensures Ranged(g, s.tasks) && Clean(g, root, worlds, Step(g, s, n, false))
  {
    assert forall i :: 0 <= i < |s.tasks| ==> Sound(g, root, worlds, s.tasks[i]);
    AdvanceFinds(g, root, worlds, s, n);
    var e := Advance(g, s, s.tasks[n], false);
    ApplySound(g, root, worlds, s, n, e);
    ApplyTotal(s, n, e, AmountIn(g, true));
    ApplyTotal(s, n, e, AmountIn(g, false));
  }

  lemma {:induction false} InitialClean(g: Graph, root: World, worlds: set<World>)
    requires Fits(g, root, worlds)
    ensures Clean(g, root, worlds, Initial(root))
  {
    OneAmount(g, Loading(Root(root)), true);
    OneAmount(g, Loading(Root(root)), false);
  }

  lemma {:induction false} RunClean(g: Graph, world: World, worlds: set<World>, run: seq<State>, k: nat)
    requires Fits(g, world, worlds) && IsRun(g, world, run, true) && k < |run|
    ensures Clean(g, world, worlds, run[k])
  {
    if k == 0 {
      InitialClean(g, world, worlds);
    } else {
      RunClean(g, world, worlds, run, k - 1);
      var n, _ := StepOf(g, world, run, k, true);
      StepClean(g, world, worlds, run[k - 1], n);
    }
  }

  /** A graph that unfolds to its end within the limits is resolved without a diagnostic, under every
      interleaving, when the network answers. So the cycle check and the limits refuse nothing that
      fits. */
  lemma {:induction false} SmallIsComplete(g: Graph, world: World, worlds: set<World>, run: seq<State>, k: nat)
    requires Fits(g, world, worlds) && IsRun(g, world, run, true) && k < |run|
    ensures run[k].diagnostics == []
  {
    RunClean(g, world, worlds, run, k);
  }
}
