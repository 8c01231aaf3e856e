/** Resolving the import graph of a world: github-worlds.js as a pool of visits that interleave at
    every await. */
module Worlds {
  import opened Options

  // ---------------------------------------------------------------- worlds and their manifests

  const MAX_DEPTH := 8
  const MAX_PROJECTS := 24
  const MAX_LAYERS := 64
  const MAX_TOUCHPOINTS := 128

  /** A project at a commit; this is what a visit calls its identity. */
  datatype World = World(owner: string, repo: string, commit: string)

  datatype Transform = Transform(entries: seq<real>)

  datatype Layer = Layer(id: string, asset: string, transform: Transform)
  datatype Touchpoint = Touchpoint(id: string, title: string, transform: Transform)
  datatype Import = Import(id: string, repository: string, ref: string, transform: Transform)
  datatype Manifest = Manifest(layers: seq<Layer>, touchpoints: seq<Touchpoint>, imports: seq<Import>)

  /** What GitHub answers when it answers: the manifest of each project, and the project that an
      import means, if its address is valid in the mode of the viewer. */
  datatype Graph = Graph(manifest: World -> Manifest, target: Import -> Option<World>)

  /** The metadata of a streamed asset is fetched and checked before its layer is taken. */
  predicate Streamed(layer: Layer) {
    var suffix := "lod-meta.json";
    |layer.asset| >= |suffix| && layer.asset[|layer.asset| - |suffix|..] == suffix
  }

  // ---------------------------------------------------------------- visits

  /** One arrival at a world: along which path, under which transforms, behind which ancestors. */
  datatype Visit = Visit(world: World, chain: seq<Transform>, ancestry: seq<World>, path: seq<string>, depth: nat)

  /** A layer or a touchpoint, placed by the visit that found it. */
  datatype Placed =
    | PlacedLayer(id: string, asset: string, source: World, chain: seq<Transform>)
    | PlacedTouchpoint(id: string, title: string, source: World, chain: seq<Transform>)

  function Join(parts: seq<string>): string {
    if parts == [] then "" else if |parts| == 1 then parts[0] else parts[0] + "/" + Join(parts[1..])
  }

  function LayerOf(g: Graph, v: Visit, i: nat): Placed
    requires i < |g.manifest(v.world).layers|
  {
    var layer := g.manifest(v.world).layers[i];
    PlacedLayer(Join(v.path + [layer.id]), layer.asset, v.world, v.chain + [layer.transform])
  }

  function TouchpointOf(g: Graph, v: Visit, j: nat): Placed
    requires j < |g.manifest(v.world).touchpoints|
  {
    var touchpoint := g.manifest(v.world).touchpoints[j];
    PlacedTouchpoint(Join(v.path + [touchpoint.id]), touchpoint.title, v.world, v.chain + [touchpoint.transform])
  }

  /** The visit that the k-th import leads to. */
  function Child(g: Graph, v: Visit, k: nat, world: World): Visit
    requires k < |g.manifest(v.world).imports|
  {
    var entry := g.manifest(v.world).imports[k];
    Visit(world, v.chain + [entry.transform], v.ancestry + [v.world], v.path + [entry.id], v.depth + 1)
  }

  // ---------------------------------------------------------------- the unfolding of the graph

  function Left(v: Visit): nat {
    if v.depth > MAX_DEPTH then 0 else MAX_DEPTH + 1 - v.depth
  }

  function LayersFrom(g: Graph, v: Visit, i: nat): multiset<Placed>
    decreases |g.manifest(v.world).layers| - i
  {
    if i >= |g.manifest(v.world).layers| then multiset{} else multiset{LayerOf(g, v, i)} + LayersFrom(g, v, i + 1)
  }

  function TouchpointsFrom(g: Graph, v: Visit, j: nat): multiset<Placed>
    decreases |g.manifest(v.world).touchpoints| - j
  {
    if j >= |g.manifest(v.world).touchpoints| then multiset{}
    else multiset{TouchpointOf(g, v, j)} + TouchpointsFrom(g, v, j + 1)
  }

  /** Everything that is found by following every import, down to the depth limit. */
  function Unfold(g: Graph, v: Visit): multiset<Placed>
    decreases Left(v), 2, 0
  {
    if v.depth > MAX_DEPTH then multiset{}
    else LayersFrom(g, v, 0) + TouchpointsFrom(g, v, 0) + UnfoldFrom(g, v, 0)
  }

  function UnfoldFrom(g: Graph, v: Visit, k: nat): multiset<Placed>
    requires v.depth <= MAX_DEPTH
    decreases Left(v), 1, |g.manifest(v.world).imports| - k
  {
    if k >= |g.manifest(v.world).imports| then multiset{} else UnfoldImport(g, v, k) + UnfoldFrom(g, v, k + 1)
  }

  function UnfoldImport(g: Graph, v: Visit, k: nat): multiset<Placed>
    requires v.depth <= MAX_DEPTH && k < |g.manifest(v.world).imports|
    decreases Left(v), 0, 0
  {
    match g.target(g.manifest(v.world).imports[k])
    case None => multiset{}
    case Some(world) => Unfold(g, Child(g, v, k, world))
  }

  /** The unfolding is not cut short: every import has a target, and no path of imports is longer
      than the depth limit. So it is the unfolding of the whole graph. */
  predicate Whole(g: Graph, v: Visit)
    decreases Left(v), 2, 0
  {
    v.depth <= MAX_DEPTH && WholeFrom(g, v, 0)
  }

  predicate WholeFrom(g: Graph, v: Visit, k: nat)
    requires v.depth <= MAX_DEPTH
    decreases Left(v), 1, |g.manifest(v.world).imports| - k
  {
    k >= |g.manifest(v.world).imports| || (WholeImport(g, v, k) && WholeFrom(g, v, k + 1))
  }

  predicate WholeImport(g: Graph, v: Visit, k: nat)
    requires v.depth <= MAX_DEPTH && k < |g.manifest(v.world).imports|
    decreases Left(v), 0, 0
  {
    match g.target(g.manifest(v.world).imports[k])
    case None => false
    case Some(world) => Whole(g, Child(g, v, k, world))
  }

  /** More steps than the visits below this one can take. */
  function Cost(g: Graph, v: Visit): nat
    decreases Left(v), 2, 0
  {
    if v.depth > MAX_DEPTH then 1
    else 4 + 2 * |g.manifest(v.world).layers| + |g.manifest(v.world).touchpoints| + CostFrom(g, v, 0)
  }

  function CostFrom(g: Graph, v: Visit, k: nat): nat
    requires v.depth <= MAX_DEPTH
    decreases Left(v), 1, |g.manifest(v.world).imports| - k
  {
    if k >= |g.manifest(v.world).imports| then 0 else CostImport(g, v, k) + CostFrom(g, v, k + 1)
  }

  function CostImport(g: Graph, v: Visit, k: nat): nat
    requires v.depth <= MAX_DEPTH && k < |g.manifest(v.world).imports|
    decreases Left(v), 0, 0
  {
    match g.target(g.manifest(v.world).imports[k])
    case None => 1
    case Some(world) => 1 + Cost(g, Child(g, v, k, world))
  }

  // ---------------------------------------------------------------- the pool of visits

  /** Where a visit stands: before the address of an import is resolved, before a manifest is
      fetched, at a layer, before the metadata of a layer is checked, or at a touchpoint. */
  datatype Task =
    | Resolving(v: Visit, k: nat)
    | Loading(v: Visit)
    | Layering(v: Visit, i: nat)
    | Checking(v: Visit, i: nat)
    | Touching(v: Visit, j: nat)

  datatype Cause = Unreachable | TooDeep | Cycle | TooManyProjects | TooManyLayers | TooManyTouchpoints | BadStream

  datatype Diagnostic = Diagnostic(path: seq<string>, cause: Cause)

  datatype State = State(
    tasks: seq<Task>, projects: set<World>, layers: seq<Placed>, touchpoints: seq<Placed>, diagnostics: seq<Diagnostic>)

  predicate InRange(g: Graph, t: Task) {
    && t.v.depth <= MAX_DEPTH
    && match t
       case Resolving(v, k) => k < |g.manifest(v.world).imports|
       case Loading(_) => true
       case Layering(v, i) => i <= |g.manifest(v.world).layers|
       case Checking(v, i) => i < |g.manifest(v.world).layers|
       case Touching(v, j) => j <= |g.manifest(v.world).touchpoints|
  }

  /** The tasks that follow one task, and what the step adds to the results. */
  datatype Effect = Effect(
    next: seq<Task>, projects: set<World>, layers: seq<Placed>, touchpoints: seq<Placed>, diagnostics: seq<Diagnostic>)

  function Go(next: seq<Task>): Effect {
    Effect(next, {}, [], [], [])
  }

  function Report(next: seq<Task>, path: seq<string>, cause: Cause): Effect {
    Effect(next, {}, [], [], [Diagnostic(path, cause)])
  }

  /** The checks at the start of a visit. */
  function Enter(projects: set<World>, v: Visit): Effect {
    if v.depth > MAX_DEPTH then Report([], v.path, TooDeep)
    else if v.world in v.ancestry then Report([], v.path, Cycle)
    else if v.world !in projects && |projects| >= MAX_PROJECTS then Report([], v.path, TooManyProjects)
    else Effect([Loading(v)], {v.world}, [], [], [])
  }

  /** One task for each import, from the k-th on. */
  function Imports(g: Graph, v: Visit, k: nat): seq<Task>
    decreases |g.manifest(v.world).imports| - k
  {
    if k >= |g.manifest(v.world).imports| then [] else [Resolving(v, k)] + Imports(g, v, k + 1)
  }

  /** What a task does until its next await. The network may fail every time it is asked. */
  function Advance(g: Graph, s: State, t: Task, fails: bool): Effect
    requires InRange(g, t)
  {
    var m := g.manifest(t.v.world);
    match t
    case Resolving(v, k) =>
      var target := g.target(m.imports[k]);
      if fails || target.None? then Report([], v.path + [m.imports[k].id], Unreachable)
      else Enter(s.projects, Child(g, v, k, target.value))
    case Loading(v) =>
      if fails then Report([], v.path, Unreachable) else Go([Layering(v, 0)])
    case Layering(v, i) =>
      if i == |m.layers| then Go([Touching(v, 0)])
      else if |s.layers| >= MAX_LAYERS then Report([Touching(v, 0)], v.path, TooManyLayers)
      else if Streamed(m.layers[i]) then Go([Checking(v, i)])
      else Effect([Layering(v, i + 1)], {}, [LayerOf(g, v, i)], [], [])
    case Checking(v, i) =>
      if fails then Report([Layering(v, i + 1)], v.path + [m.layers[i].id], BadStream)
      else Effect([Layering(v, i + 1)], {}, [LayerOf(g, v, i)], [], [])
    case Touching(v, j) =>
      if j == |m.touchpoints| then Go(Imports(g, v, 0))
      else if |s.touchpoints| >= MAX_TOUCHPOINTS then Report(Imports(g, v, 0), v.path, TooManyTouchpoints)
      else Effect([Touching(v, j + 1)], {}, [], [TouchpointOf(g, v, j)], [])
  }

  predicate Ranged(g: Graph, tasks: seq<Task>) {
    forall n :: 0 <= n < |tasks| ==> InRange(g, tasks[n])
  }

  function Apply(s: State, n: nat, e: Effect): State
    requires n < |s.tasks|
  {
    State(s.tasks[..n] + e.next + s.tasks[n + 1..], s.projects + e.projects, s.layers + e.layers,
          s.touchpoints + e.touchpoints, s.diagnostics + e.diagnostics)
  }

  function Step(g: Graph, s: State, n: nat, fails: bool): State
    requires n < |s.tasks| && Ranged(g, s.tasks)
  {
    Apply(s, n, Advance(g, s, s.tasks[n], fails))
  }

  function Root(world: World): Visit {
    Visit(world, [], [], [world.owner + "/" + world.repo], 0)
  }

  function Initial(world: World): State {
    State([Loading(Root(world))], {world}, [], [], [])
  }

  // ---------------------------------------------------------------- what is still to come

  function Rest(g: Graph, t: Task): multiset<Placed>
    requires InRange(g, t)
  {
    match t
    case Resolving(v, k) => UnfoldImport(g, v, k)
    case Loading(v) => Unfold(g, v)
    case Layering(v, i) => LayersFrom(g, v, i) + TouchpointsFrom(g, v, 0) + UnfoldFrom(g, v, 0)
    case Checking(v, i) => LayersFrom(g, v, i) + TouchpointsFrom(g, v, 0) + UnfoldFrom(g, v, 0)
    case Touching(v, j) => TouchpointsFrom(g, v, j) + UnfoldFrom(g, v, 0)
  }

  /** The sum of a measure over a list. */
  function Union<T>(s: seq<T>, f: T -> multiset<Placed>): multiset<Placed> {
    if s == [] then multiset{} else f(s[0]) + Union(s[1..], f)
  }

  function Total<T>(s: seq<T>, f: T -> nat): nat {
    if s == [] then 0 else f(s[0]) + Total(s[1..], f)
  }

  function RestIn(g: Graph): Task -> multiset<Placed> {
    (t: Task) => if InRange(g, t) then Rest(g, t) else multiset{}
  }

  function CostIn(g: Graph): Task -> nat {
    (t: Task) => if InRange(g, t) then TaskCost(g, t) else 0
  }

  predicate WholeTask(g: Graph, t: Task)
    requires InRange(g, t)
  {
    match t
    case Resolving(v, k) => WholeImport(g, v, k)
    case _ => WholeFrom(g, t.v, 0)
  }

  function TaskCost(g: Graph, t: Task): nat
    requires InRange(g, t)
  {
    var m := g.manifest(t.v.world);
    match t
    case Resolving(v, k) => CostImport(g, v, k)
    case Loading(v) => Cost(g, v)
    case Layering(v, i) => 2 * (|m.layers| - i) + |m.touchpoints| + 3 + CostFrom(g, v, 0)
    case Checking(v, i) => 2 * (|m.layers| - i) + |m.touchpoints| + 2 + CostFrom(g, v, 0)
    case Touching(v, j) => |m.touchpoints| - j + 1 + CostFrom(g, v, 0)
  }

  lemma {:induction false} UnionJoin<T>(a: seq<T>, b: seq<T>, f: T -> multiset<Placed>)
    ensures Union(a + b, f) == Union(a, f) + Union(b, f)
  {
    if a == [] {
      assert a + b == b;
    } else {
      UnionJoin(a[1..], b, f);
      assert (a + b)[1..] == a[1..] + b;
    }
  }

  lemma {:induction false} TotalJoin<T>(a: seq<T>, b: seq<T>, f: T -> nat)
    ensures Total(a + b, f) == Total(a, f) + Total(b, f)
  {
    if a == [] {
      assert a + b == b;
    } else {
      TotalJoin(a[1..], b, f);
      assert (a + b)[1..] == a[1..] + b;
    }
  }

  /** The tasks of the imports have to come what the imports unfold to. */
  lemma {:induction false} ImportsRest(g: Graph, v: Visit, k: nat)
    requires v.depth <= MAX_DEPTH
    ensures var tasks := Imports(g, v, k);
      && Ranged(g, tasks) && Union(tasks, RestIn(g)) == UnfoldFrom(g, v, k)
      && Total(tasks, CostIn(g)) == CostFrom(g, v, k)
      && (WholeFrom(g, v, k) <==> WholeTasks(g, tasks))
    decreases |g.manifest(v.world).imports| - k
  {
    if k < |g.manifest(v.world).imports| {
      ImportsRest(g, v, k + 1);
      var later := Imports(g, v, k + 1);
      var tasks := Imports(g, v, k);
      assert tasks == [Resolving(v, k)] + later && tasks[1..] == later;
      assert forall n :: 0 <= n < |later| ==> tasks[n + 1] == later[n];
    }
  }

  predicate WholeTasks(g: Graph, tasks: seq<Task>) {
    forall n :: 0 <= n < |tasks| ==> InRange(g, tasks[n]) && WholeTask(g, tasks[n])
  }

  lemma {:induction false} One(g: Graph, t: Task)
    requires InRange(g, t)
    ensures Union([t], RestIn(g)) == Rest(g, t) && Total([t], CostIn(g)) == TaskCost(g, t)
    ensures WholeTasks(g, [t]) <==> WholeTask(g, t)
  {
    assert [t][1..] == [];
    assert [t][0] == t;
  }

  // ---------------------------------------------------------------- one step

  /** A step moves what it finds from what is to come to the results. */
  ghost predicate Moves(g: Graph, t: Task, e: Effect)
    requires InRange(g, t)
  {
    Rest(g, t) == multiset(e.layers) + multiset(e.touchpoints) + Union(e.next, RestIn(g))
  }

  /** And it costs; unless it reports, the graph below it is whole when that of the next tasks is. */
  ghost predicate Costs(g: Graph, t: Task, e: Effect)
    requires InRange(g, t)
  {
    && Ranged(g, e.next) && Total(e.next, CostIn(g)) < TaskCost(g, t)
    && (e.diagnostics == [] ==> (WholeTask(g, t) <==> WholeTasks(g, e.next)))
  }

  lemma {:induction false} ResolvingMoves(g: Graph, s: State, t: Task, fails: bool)
    requires InRange(g, t) && t.Resolving?
    ensures var e := Advance(g, s, t, fails); Costs(g, t, e) && (e.diagnostics == [] ==> Moves(g, t, e))
  {
    var e := Advance(g, s, t, fails);
    if e.diagnostics == [] {
      var child := Child(g, t.v, t.k, g.target(g.manifest(t.v.world).imports[t.k]).value);
      assert e.next == [Loading(child)];
      One(g, Loading(child));
      assert WholeImport(g, t.v, t.k) == Whole(g, child) == WholeTask(g, Loading(child));
      assert UnfoldImport(g, t.v, t.k) == Unfold(g, child);
    } else {
      assert e.next == [];
    }
  }

  lemma {:induction false} LoadingMoves(g: Graph, s: State, t: Task, fails: bool)
    requires InRange(g, t) && t.Loading?
    ensures var e := Advance(g, s, t, fails); Costs(g, t, e) && (e.diagnostics == [] ==> Moves(g, t, e))
  {
    One(g, Layering(t.v, 0));
  }

  lemma {:induction false} NextCosts(g: Graph, t: Task, u: Task, e: Effect)
    requires InRange(g, t) && InRange(g, u) && e.next == [u] && TaskCost(g, u) < TaskCost(g, t)
    requires WholeTask(g, t) <==> WholeTask(g, u)
    ensures Costs(g, t, e)
  {
    One(g, u);
  }

  lemma {:induction false} LayeringCosts(g: Graph, s: State, v: Visit, i: nat, fails: bool)
    requires InRange(g, Layering(v, i))
    ensures Costs(g, Layering(v, i), Advance(g, s, Layering(v, i), fails))
  {
    var e := Advance(g, s, Layering(v, i), fails);
    NextCosts(g, Layering(v, i), e.next[0], e);
  }

  lemma {:induction false} CheckingCosts(g: Graph, s: State, v: Visit, i: nat, fails: bool)
    requires InRange(g, Checking(v, i))
    ensures Costs(g, Checking(v, i), Advance(g, s, Checking(v, i), fails))
  {
    NextCosts(g, Checking(v, i), Layering(v, i + 1), Advance(g, s, Checking(v, i), fails));
  }

  lemma {:induction false} LayerMoves(g: Graph, v: Visit, i: nat)
    requires v.depth <= MAX_DEPTH && i < |g.manifest(v.world).layers|
    ensures
      var e := Effect([Layering(v, i + 1)], {}, [LayerOf(g, v, i)], [], []);
      Moves(g, Layering(v, i), e) && Moves(g, Checking(v, i), e)
  {
    One(g, Layering(v, i + 1));
    var x, a, b, c := LayerOf(g, v, i), LayersFrom(g, v, i + 1), TouchpointsFrom(g, v, 0), UnfoldFrom(g, v, 0);
    assert multiset{x} + a + b + c == multiset([x]) + multiset([]) + (a + b + c);
  }

  lemma {:induction false} LayersDone(g: Graph, v: Visit)
    requires v.depth <= MAX_DEPTH
    ensures Moves(g, Layering(v, |g.manifest(v.world).layers|), Go([Touching(v, 0)]))
  {
    One(g, Touching(v, 0));
    var a := TouchpointsFrom(g, v, 0) + UnfoldFrom(g, v, 0);
    assert multiset{} + TouchpointsFrom(g, v, 0) + UnfoldFrom(g, v, 0) == multiset([]) + multiset([]) + a;
  }

  lemma {:induction false} LayerDeferred(g: Graph, v: Visit, i: nat)
    requires v.depth <= MAX_DEPTH && i < |g.manifest(v.world).layers|
    ensures Moves(g, Layering(v, i), Go([Checking(v, i)]))
  {
    One(g, Checking(v, i));
    var a := Rest(g, Layering(v, i));
    assert a == multiset([]) + multiset([]) + a;
  }

  lemma {:induction false} LayeringMoves(g: Graph, s: State, t: Task, fails: bool)
    requires InRange(g, t) && (t.Layering? || t.Checking?) && Advance(g, s, t, fails).diagnostics == []
    ensures Moves(g, t, Advance(g, s, t, fails))
  {
    if t.i == |g.manifest(t.v.world).layers| {
      LayersDone(g, t.v);
    } else if t.Layering? && Streamed(g.manifest(t.v.world).layers[t.i]) {
      LayerDeferred(g, t.v, t.i);
    } else {
      LayerMoves(g, t.v, t.i);
    }
  }

  lemma {:induction false} TouchpointMoves(g: Graph, v: Visit, j: nat)
    requires v.depth <= MAX_DEPTH && j < |g.manifest(v.world).touchpoints|
    ensures Moves(g, Touching(v, j), Effect([Touching(v, j + 1)], {}, [], [TouchpointOf(g, v, j)], []))
  {
    One(g, Touching(v, j + 1));
    var x, a, b := TouchpointOf(g, v, j), TouchpointsFrom(g, v, j + 1), UnfoldFrom(g, v, 0);
    assert multiset{x} + a + b == multiset([]) + multiset([x]) + (a + b);
  }

  lemma {:induction false} TouchpointCosts(g: Graph, v: Visit, j: nat, e: Effect)
    requires v.depth <= MAX_DEPTH && j < |g.manifest(v.world).touchpoints| && e.next == [Touching(v, j + 1)]
    ensures Costs(g, Touching(v, j), e)
  {
    One(g, Touching(v, j + 1));
  }

  lemma {:induction false} ImportsCost(g: Graph, v: Visit, j: nat, e: Effect)
    requires InRange(g, Touching(v, j)) && e.next == Imports(g, v, 0)
    ensures Costs(g, Touching(v, j), e)
  {
    ImportsRest(g, v, 0);
  }

  lemma {:induction false} TouchpointsDone(g: Graph, v: Visit)
    requires v.depth <= MAX_DEPTH
    ensures Moves(g, Touching(v, |g.manifest(v.world).touchpoints|), Go(Imports(g, v, 0)))
  {
    ImportsRest(g, v, 0);
    var a := UnfoldFrom(g, v, 0);
    assert multiset{} + a == multiset([]) + multiset([]) + a;
  }

  lemma {:induction false} TouchingMoves(g: Graph, s: State, v: Visit, j: nat, fails: bool)
    requires InRange(g, Touching(v, j))
    ensures
      var e := Advance(g, s, Touching(v, j), fails);
      Costs(g, Touching(v, j), e) && (e.diagnostics == [] ==> Moves(g, Touching(v, j), e))
  {
    var e := Advance(g, s, Touching(v, j), fails);
    if j == |g.manifest(v.world).touchpoints| {
      ImportsCost(g, v, j, e);
      TouchpointsDone(g, v);
    } else if e.diagnostics == [] {
      TouchpointCosts(g, v, j, e);
      TouchpointMoves(g, v, j);
    } else {
      ImportsCost(g, v, j, e);
    }
  }

  lemma {:induction false} AdvanceMoves(g: Graph, s: State, t: Task, fails: bool)
    requires InRange(g, t)
    ensures var e := Advance(g, s, t, fails); Costs(g, t, e) && (e.diagnostics == [] ==> Moves(g, t, e))
  {
    match t
    case Resolving(_, _) => ResolvingMoves(g, s, t, fails);
    case Loading(_) => LoadingMoves(g, s, t, fails);
    case Touching(v, j) => TouchingMoves(g, s, v, j, fails);
    case Layering(v, i) =>
      LayeringCosts(g, s, v, i, fails);
      if Advance(g, s, t, fails).diagnostics == [] { LayeringMoves(g, s, t, fails); }
    case Checking(v, i) =>
      CheckingCosts(g, s, v, i, fails);
      if Advance(g, s, t, fails).diagnostics == [] { LayeringMoves(g, s, t, fails); }
  }

  // ---------------------------------------------------------------- runs

  /** While nothing is reported, the results and what is to come make up the unfolding. */
  ghost predicate Inv(g: Graph, root: Visit, s: State) {
    && Ranged(g, s.tasks)
    && |s.projects| <= MAX_PROJECTS && |s.touchpoints| <= MAX_TOUCHPOINTS
    && (forall i :: 0 <= i < |s.layers| ==> s.layers[i].PlacedLayer?)
    && (forall j :: 0 <= j < |s.touchpoints| ==> s.touchpoints[j].PlacedTouchpoint?)
    && (s.diagnostics == [] ==> Balanced(g, root, s))
  }

  ghost predicate Balanced(g: Graph, root: Visit, s: State) {
    && multiset(s.layers) + multiset(s.touchpoints) + Union(s.tasks, RestIn(g)) == Unfold(g, root)
    && (WholeTasks(g, s.tasks) ==> Whole(g, root))
  }

  lemma {:induction false} Split(g: Graph, s: State, n: nat)
    requires n < |s.tasks| && Ranged(g, s.tasks)
    ensures Union(s.tasks, RestIn(g)) ==
      Union(s.tasks[..n], RestIn(g)) + Rest(g, s.tasks[n]) + Union(s.tasks[n + 1..], RestIn(g))
    ensures Total(s.tasks, CostIn(g)) ==
      Total(s.tasks[..n], CostIn(g)) + TaskCost(g, s.tasks[n]) + Total(s.tasks[n + 1..], CostIn(g))
  {
    var a, b, c := s.tasks[..n], [s.tasks[n]], s.tasks[n + 1..];
    assert s.tasks == a + b + c;
    One(g, s.tasks[n]);
    UnionJoin(a + b, c, RestIn(g));
    UnionJoin(a, b, RestIn(g));
    TotalJoin(a + b, c, CostIn(g));
    TotalJoin(a, b, CostIn(g));
  }

  lemma {:induction false} Joined(g: Graph, a: seq<Task>, b: seq<Task>, c: seq<Task>)
    ensures Union(a + b + c, RestIn(g)) == Union(a, RestIn(g)) + Union(b, RestIn(g)) + Union(c, RestIn(g))
    ensures Total(a + b + c, CostIn(g)) == Total(a, CostIn(g)) + Total(b, CostIn(g)) + Total(c, CostIn(g))
  {
    UnionJoin(a + b, c, RestIn(g));
    UnionJoin(a, b, RestIn(g));
    TotalJoin(a + b, c, CostIn(g));
    TotalJoin(a, b, CostIn(g));
  }

  lemma {:induction false} Rebalanced(l: multiset<Placed>, t: multiset<Placed>, a: multiset<Placed>,
          c: multiset<Placed>, rest: multiset<Placed>,
                                      moreL: multiset<Placed>, moreT: multiset<Placed>, next: multiset<Placed>)
    requires rest == moreL + moreT + next
    ensures l + t + (a + rest + c) == (l + moreL) + (t + moreT) + (a + next + c)
  {}

  lemma {:induction false} ApplyRanged(g: Graph, s: State, n: nat, e: Effect)
    requires n < |s.tasks| && Ranged(g, s.tasks) && Ranged(g, e.next)
    ensures Ranged(g, Apply(s, n, e).tasks)
    ensures WholeTasks(g, Apply(s, n, e).tasks) <==>
      WholeTasks(g, s.tasks[..n]) && WholeTasks(g, e.next) && WholeTasks(g, s.tasks[n + 1..])
  {
    var a, b, c := s.tasks[..n], e.next, s.tasks[n + 1..];
    var all := Apply(s, n, e).tasks;
    assert all == a + b + c;
    forall i | 0 <= i < |a| ensures all[i] == a[i] {}
    forall i | 0 <= i < |b| ensures all[|a| + i] == b[i] {}
    forall i | 0 <= i < |c| ensures all[|a| + |b| + i] == c[i] {}
  }

  lemma {:induction false} WholeParts(g: Graph, tasks: seq<Task>, n: nat)
    requires n < |tasks|
    requires WholeTasks(g, tasks[..n]) && InRange(g, tasks[n]) && WholeTask(g, tasks[n])
    requires WholeTasks(g, tasks[n + 1..])
    ensures WholeTasks(g, tasks)
  {
    forall i | 0 <= i < |tasks|
      ensures tasks[i] == if i < n then tasks[..n][i] else if i == n then tasks[n] else tasks[n + 1..][i - n - 1]
    {}
  }

  lemma {:induction false} ApplyBalanced(g: Graph, root: Visit, s: State, n: nat, e: Effect)
    requires n < |s.tasks| && Ranged(g, s.tasks) && Balanced(g, root, s)
    requires Costs(g, s.tasks[n], e) && Moves(g, s.tasks[n], e) && e.diagnostics == []
    ensures Balanced(g, root, Apply(s, n, e))
  {
    var a, c := s.tasks[..n], s.tasks[n + 1..];
    Split(g, s, n);
    Joined(g, a, e.next, c);
    Rebalanced(multiset(s.layers), multiset(s.touchpoints), Union(a, RestIn(g)), Union(c, RestIn(g)),
               Rest(g, s.tasks[n]),
               multiset(e.layers), multiset(e.touchpoints), Union(e.next, RestIn(g)));
    ApplyRanged(g, s, n, e);
    if WholeTasks(g, s.tasks[..n]) && WholeTask(g, s.tasks[n]) && WholeTasks(g, s.tasks[n + 1..]) {
      WholeParts(g, s.tasks, n);
    }
  }

  /** What a step adds respects the limits on projects and touchpoints. */
  lemma {:induction false} AdvanceBounds(g: Graph, s: State, t: Task, fails: bool)
    requires InRange(g, t) && |s.projects| <= MAX_PROJECTS && |s.touchpoints| <= MAX_TOUCHPOINTS
    ensures var e := Advance(g, s, t, fails);
      && |s.projects + e.projects| <= MAX_PROJECTS && |s.touchpoints + e.touchpoints| <= MAX_TOUCHPOINTS
      && (forall i :: 0 <= i < |e.layers| ==> e.layers[i].PlacedLayer?)
      && (forall j :: 0 <= j < |e.touchpoints| ==> e.touchpoints[j].PlacedTouchpoint?)
  {
    var e := Advance(g, s, t, fails);
    if e.projects == {} {
      assert s.projects + e.projects == s.projects;
    } else {
      var w :| w in e.projects;
      assert e.projects == {w};
      if w in s.projects { assert s.projects + {w} == s.projects; }
    }
  }

  function Measure(g: Graph, s: State): nat {
    Total(s.tasks, CostIn(g))
  }

  lemma {:induction false} ApplyCosts(g: Graph, s: State, n: nat, e: Effect)
    requires n < |s.tasks| && Ranged(g, s.tasks) && Costs(g, s.tasks[n], e)
    ensures Measure(g, Apply(s, n, e)) < Measure(g, s)
  {
    Split(g, s, n);
    Joined(g, s.tasks[..n], e.next, s.tasks[n + 1..]);
  }

  /** Every step keeps the invariant and uses up some of the measure. */
  lemma {:induction false} StepKeeps(g: Graph, root: Visit, s: State, n: nat, fails: bool)
    requires Inv(g, root, s) && n < |s.tasks|
    ensures Inv(g, root, Step(g, s, n, fails)) && Measure(g, Step(g, s, n, fails)) < Measure(g, s)
  {
    var t := s.tasks[n];
    var e := Advance(g, s, t, fails);
    AdvanceMoves(g, s, t, fails);
    AdvanceBounds(g, s, t, fails);
    ApplyRanged(g, s, n, e);
    ApplyCosts(g, s, n, e);
    if s.diagnostics == [] && e.diagnostics == [] {
      ApplyBalanced(g, root, s, n, e);
    }
  }

  lemma {:induction false} InitialKeeps(g: Graph, world: World)
    ensures Inv(g, Root(world), Initial(world)) && Measure(g, Initial(world)) == Cost(g, Root(world))
  {
    One(g, Loading(Root(world)));
  }

  /** Any task may be the next to go on, and the network may fail it, unless it always answers. */
  ghost predicate Steps(g: Graph, s: State, t: State, answered: bool) {
    exists n: nat, fails :: n < |s.tasks| && Ranged(g, s.tasks) && (fails ==> !answered) && t == Step(g, s, n, fails)
  }

  ghost predicate StepsAt(g: Graph, run: seq<State>, k: nat, answered: bool)
    requires k + 1 < |run|
  {
    Steps(g, run[k], run[k + 1], answered)
  }

  ghost predicate IsRun(g: Graph, world: World, run: seq<State>, answered: bool) {
    run != [] && run[0] == Initial(world) && forall k :: 0 <= k < |run| - 1 ==> StepsAt(g, run, k, answered)
  }

  /** The task that took the step to the k-th state of a run. */
  lemma {:induction false} StepOf(g: Graph, world: World, run: seq<State>, k: nat, answered: bool)
      returns (n: nat, fails: bool)
    requires IsRun(g, world, run, answered) && 0 < k < |run|
    ensures n < |run[k - 1].tasks| && Ranged(g, run[k - 1].tasks) && (fails ==> !answered)
    ensures run[k] == Step(g, run[k - 1], n, fails)
  {
    assert StepsAt(g, run, k - 1, answered);
    n, fails :| n < |run[k - 1].tasks| && Ranged(g, run[k - 1].tasks) && (fails ==> !answered)
        && run[k] == Step(g, run[k - 1], n, fails);
  }

  /** Under every interleaving the limits on projects and touchpoints hold, and the steps run out,
      also on a graph with cycles. */
  lemma {:induction false} RunKeeps(g: Graph, world: World, run: seq<State>, k: nat, answered: bool)
    requires IsRun(g, world, run, answered) && k < |run|
    ensures Inv(g, Root(world), run[k]) && Measure(g, run[k]) + k <= Cost(g, Root(world))
  {
    if k == 0 {
      InitialKeeps(g, world);
    } else {
      RunKeeps(g, world, run, k - 1, answered);
      var n, fails := StepOf(g, world, run, k, answered);
      StepKeeps(g, Root(world), run[k - 1], n, fails);
    }
  }

  lemma {:induction false} RunsAreBounded(g: Graph, world: World, run: seq<State>, answered: bool)
    requires IsRun(g, world, run, answered)
    ensures |run| <= Cost(g, Root(world)) + 1
    ensures forall k :: 0 <= k < |run| ==> |run[k].projects| <= MAX_PROJECTS && |run[k].touchpoints| <= MAX_TOUCHPOINTS
  {
    forall k | 0 <= k < |run| ensures Inv(g, Root(world), run[k]) && Measure(g, run[k]) + k <= Cost(g, Root(world)) {
      RunKeeps(g, world, run, k, answered);
    }
    assert Measure(g, run[|run| - 1]) + (|run| - 1) <= Cost(g, Root(world));
  }

  ghost predicate Exact(g: Graph, world: World, s: State) {
    && Whole(g, Root(world))
    && forall p :: multiset(s.layers)[p] == (if p.PlacedLayer? then Unfold(g, Root(world))[p] else 0)
                   && multiset(s.touchpoints)[p] == (if p.PlacedTouchpoint? then Unfold(g, Root(world))[p] else 0)
  }

  lemma {:induction false} SettledExact(g: Graph, world: World, s: State)
    requires Inv(g, Root(world), s) && s.tasks == [] && s.diagnostics == []
    ensures Exact(g, world, s)
  {
    var all := Unfold(g, Root(world));
    assert multiset(s.layers) + multiset(s.touchpoints) + multiset{} == all;
    forall p
      ensures multiset(s.layers)[p] == (if p.PlacedLayer? then all[p] else 0)
      ensures multiset(s.touchpoints)[p] == (if p.PlacedTouchpoint? then all[p] else 0)
    {
      if p.PlacedLayer? {
        assert p !in s.touchpoints;
        assert p !in multiset(s.touchpoints);
      } else {
        assert p !in s.layers;
        assert p !in multiset(s.layers);
      }
    }
  }

  /** A resolution that ends without a diagnostic has found exactly the unfolding of the whole import
      graph: every layer and touchpoint once for each path that leads to it, with the transforms on
      that path; whatever the interleaving was. */
  lemma {:induction false} CompleteIsExact(g: Graph, world: World, run: seq<State>, answered: bool)
    requires IsRun(g, world, run, answered) && run[|run| - 1].tasks == [] && run[|run| - 1].diagnostics == []
    ensures Exact(g, world, run[|run| - 1])
  {
    RunKeeps(g, world, run, |run| - 1, answered);
    SettledExact(g, world, run[|run| - 1]);
  }

  /** The resolver, driven by any schedule of its visits. */
  method ResolveWorldGraph(g: Graph, world: World, pick: nat -> nat, fails: nat -> bool) returns (s: State,
          complete: bool)
    ensures |s.projects| <= MAX_PROJECTS && |s.touchpoints| <= MAX_TOUCHPOINTS
    ensures complete ==> Exact(g, world, s)
  {
    s := Initial(world);
    InitialKeeps(g, world);
    var clock: nat := 0;
    while s.tasks != []
      invariant Inv(g, Root(world), s)
      decreases Measure(g, s)
    {
      var n := pick(clock) % |s.tasks|;
      StepKeeps(g, Root(world), s, n, fails(clock));
      s := Step(g, s, n, fails(clock));
      clock := clock + 1;
    }
    complete := s.diagnostics == [];
    if complete {
      SettledExact(g, world, s);
    }
  }
}
