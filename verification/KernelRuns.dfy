/** Runs of the kernel host, built step by step: a page attaches and dispatches a page effect, the host
    crashes while it is under way, and then another page installs an app. */
module KernelRuns {
  import opened Options
  import opened Lists
  import opened Kernel

  lemma {:induction false} RunNext(states: seq<Host>, steps: seq<Step>, catalog: Catalog, step: Step)
      returns (more: seq<Host>, taken: seq<Step>)
    requires IsRun(states, steps, catalog) && Enabled(states[|steps|], step, catalog)
    ensures IsRun(more, taken, catalog) && more[0] == states[0] && |taken| == |steps| + 1
    ensures more[|taken|] == Apply(states[|steps|], step, catalog) && taken == steps + [step]
  {
    more, taken := states + [Apply(states[|steps|], step, catalog)], steps + [step];
    forall i | 0 <= i < |taken|
      ensures Enabled(more[i], taken[i], catalog) && more[i + 1] == Apply(more[i], taken[i], catalog)
    {
      if i < |steps| { assert more[i] == states[i] && more[i + 1] == states[i + 1]; }
    }
  }

  predicate Uncrashed(steps: seq<Step>) {
    forall k :: 0 <= k < |steps| ==> !steps[k].Crash?
  }

  /** A run that ends in this state. */
  ghost predicate Leads(states: seq<Host>, steps: seq<Step>, catalog: Catalog, s: Host) {
    IsRun(states, steps, catalog) && Initial(states[0]) && states[|steps|] == s
  }

  lemma {:induction false} Goes(states: seq<Host>, steps: seq<Step>, catalog: Catalog, s: Host, step: Step, t: Host)
      returns (more: seq<Host>, taken: seq<Step>)
    requires Leads(states, steps, catalog, s) && Enabled(s, step, catalog) && t == Apply(s, step, catalog)
    ensures Leads(more, taken, catalog, t) && more[0] == states[0]
    ensures Uncrashed(steps) && !step.Crash? ==> Uncrashed(taken)
  {
    more, taken := RunNext(states, steps, catalog, step);
  }

  // ---------------------------------------------------------------- the records of the run

  const noApps := Catalog([], App("chats", ""))
  const held := Session([], None, None, "")
  const opening := Session([], None, None, "surface")
  const newer := Session([App("notes", "")], None, None, "")
  const first := Global(0, [], Some([]), [], 0)
  const opens := Request("open", "page", "page", AppsOpen, "", None, None)
  const installs := Request("install", "other", "page", AppsInstall, "", None, None)
  const blank := Context("page", 0, "")
  const receipt := Receipt("install", "", 1, 1)
  const second := Global(1, [App("notes", "")], Some([]), [receipt], 1)

  const fromPage: seq<Message> := [Reply(Snapshot("page", 0, 0, held), true), RunEffect("page", opening)]
  const announced := Snapshot("other", 1, 1, newer)

  function Empty(): Host {
    Host(Stores(None, map[], map[], map[], map[]), Idle, [], {}, [], [], map[], [], [], [])
  }

  /** The stores after the page has attached. */
  function Opened(): Stores {
    Stores(Some(first), map["page" := blank], map[], map[], map[])
  }

  function Prepared(): Stores {
    Opened().(prepared := map["open" := Pending("", "page")])
  }

  function Attached(): Host {
    Empty().(stores := Opened(), written := [first], sent := [fromPage[0]])
  }

  /** The host has crashed while the page ran its effect. */
  function Crashed(): Host {
    Attached().(stores := Prepared(), sent := fromPage)
  }

  function Working(): Work {
    Work(installs, first, blank, held, newer, [])
  }

  /** A host on which another page may install an app: the first page has attached, and may have run its
      effect. */
  predicate Ready(s: Host) {
    s == Attached() || s == Crashed()
  }

  function Committed(s: Host): Stores {
    Stores(Some(second), map["page" := blank, "other" := Context("page", 1, "")],
           s.stores.prepared, map["notes" := App("notes", "")], map[])
  }

  /** The other page's app is installed and announced. */
  function Installed(s: Host): Host {
    s.(stores := Committed(s), history := [receipt], committers := ["other"], written := [first, second],
       sent := s.sent + [Update(announced), Reply(announced, false)])
  }

  // ---------------------------------------------------------------- how the stores come about

  lemma {:induction false} NothingToProject<V>(idOf: V -> string)
    ensures ByKey([], idOf) == map[] && Keyable([], idOf)
  {}

  lemma {:induction false} FirstKept(now: int)
    ensures Projects(first) && Upgrade(first, noApps, now) == Some(first)
    ensures ReplaceGlobal(Empty().stores, first) == Empty().stores.(global := Some(first))
  {
    NothingToProject(appId);
    NothingToProject(grantId);
    assert RevokeRetired([], first.updatedAt) == [];
    assert !NeedsRetirement(first);
  }

  lemma {:induction false} SecondProjects()
    ensures Projects(second) && NextGlobal(Working(), 1) == second
    ensures ByKey(second.installed, appId) == map["notes" := App("notes", "")]
    ensures ByKey(GrantsOf(second), grantId) == map[]
  {
    NothingToProject(appId);
    NothingToProject(grantId);
    assert second.installed == [App("notes", "")];
    assert [App("notes", "")][..0] == [];
  }

  // ---------------------------------------------------------------- the run

  /** The host has written the first envelope for the page that attaches. */
  function Attaching(): Host {
    Empty().(phase := LoadingContext(Attach("page", "page"), first), written := [first],
             stores := Empty().stores.(global := Some(first)))
  }

  lemma {:induction false} AttachLoads() returns (states: seq<Host>, steps: seq<Step>)
    ensures Leads(states, steps, noApps, Attaching()) && states[0] == Empty() && Uncrashed(steps)
  {
    var op := Attach("page", "page");
    var s := Empty();
    states, steps := [s], [];
    FirstKept(0);
    var t := s.(queue := [op]);
    states, steps := Goes(states, steps, noApps, s, Submit(op), t);
    s, t := t, t.(phase := LoadingGlobal(op), queue := []);
    states, steps := Goes(states, steps, noApps, s, Begin, t);
    s, t := t, t.(phase := ReplacingGlobal(op, first));
    states, steps := Goes(states, steps, noApps, s, FirstGlobal([], 0), t);
    states, steps := Goes(states, steps, noApps, t, WriteGlobal, Attaching());
  }

  lemma {:induction false} AttachRuns() returns (states: seq<Host>, steps: seq<Step>)
    ensures Leads(states, steps, noApps, Attached()) && states[0] == Empty() && Uncrashed(steps)
  {
    var op := Attach("page", "page");
    states, steps := AttachLoads();
    var t := Attaching().(phase := CreatingContext(op, first, blank));
    states, steps := Goes(states, steps, noApps, Attaching(), ReadContext(""), t);
    var u := t.(phase := Loaded(op, first, blank), stores := Opened());
    states, steps := Goes(states, steps, noApps, t, WriteContext, u);
    states, steps := Goes(states, steps, noApps, u, Answer(held), Attached());
  }

  /** A dispatch is queued, begun, and finds the envelope as it is. */
  lemma {:induction false} DispatchLoads(states: seq<Host>, steps: seq<Step>, s: Host, r: Request)
      returns (more: seq<Host>, taken: seq<Step>)
    requires Leads(states, steps, noApps, s) && s.phase.Idle? && s.queue == [] && s.inflight == {}
    requires s.stores.global == Some(first)
    ensures Leads(more, taken, noApps, s.(phase := LoadingContext(Dispatch(r), first), inflight := {r.id}))
    ensures more[0] == states[0] && (Uncrashed(steps) ==> Uncrashed(taken))
  {
    var op := Dispatch(r);
    FirstKept(0);
    var queued := s.(queue := [op], inflight := {r.id});
    var begun := queued.(phase := LoadingGlobal(op), queue := []);
    more, taken := Goes(states, steps, noApps, s, Submit(op), queued);
    more, taken := Goes(more, taken, noApps, queued, Begin, begun);
    more, taken := Goes(more, taken, noApps, begun, ReadGlobal(0),
                        s.(phase := LoadingContext(op, first), inflight := {r.id}));
  }

  /** The dispatch of the page up to its effect. */
  function Opening(): Host {
    Attached().(phase := Running(Work(opens, first, blank, held, opening, []), [OpenSurface], false),
                stores := Prepared(), inflight := {"open"})
  }

  lemma {:induction false} OpeningRuns() returns (states: seq<Host>, steps: seq<Step>)
    ensures Leads(states, steps, noApps, Opening()) && states[0] == Empty()
  {
    states, steps := AttachRuns();
    states, steps := DispatchLoads(states, steps, Attached(), opens);
    var context := Attached().(phase := LoadingContext(Dispatch(opens), first), inflight := {"open"});
    var loaded := context.(phase := Loaded(Dispatch(opens), first, blank));
    states, steps := Goes(states, steps, noApps, context, ReadContext(""), loaded);
    var admitted := loaded.(phase := Preparing(Opening().phase.work, [OpenSurface]));
    states, steps := Goes(states, steps, noApps, loaded, Admit(held, opening, [], [OpenSurface]), admitted);
    states, steps := Goes(states, steps, noApps, admitted, Prepare, Opening());
  }

  /** Its page effect begins, and the host crashes. */
  lemma {:induction false} PageRuns() returns (states: seq<Host>, steps: seq<Step>)
    ensures Leads(states, steps, noApps, Crashed()) && states[0] == Empty()
  {
    var s := Opening();
    states, steps := OpeningRuns();
    assert [OpenSurface][1..] == [] && s.sent + [RunEffect("page", opening)] == fromPage;
    var t := s.(phase := Attempting(s.phase.work, [], false), sent := fromPage);
    assert Apply(s, StartEffect, noApps).attempts == [];
    states, steps := Goes(states, steps, noApps, s, StartEffect, t);
    states, steps := Goes(states, steps, noApps, t, Crash, Crashed());
  }

  function Shared(s: Host): Stores {
    s.stores.(contexts := map["page" := blank, "other" := blank])
  }

  lemma {:induction false} OtherLoads(states: seq<Host>, steps: seq<Step>, s: Host)
      returns (more: seq<Host>, taken: seq<Step>)
    requires Ready(s) && Leads(states, steps, noApps, s)
    ensures Leads(more, taken, noApps,
                  s.(phase := Preparing(Working(), []), inflight := {"install"}, stores := Shared(s)))
    ensures more[0] == states[0] && (Uncrashed(steps) ==> Uncrashed(taken))
  {
    var op := Dispatch(installs);
    more, taken := DispatchLoads(states, steps, s, installs);
    var context := s.(phase := LoadingContext(op, first), inflight := {"install"});
    var creating := context.(phase := CreatingContext(op, first, blank));
    more, taken := Goes(more, taken, noApps, context, ReadContext(""), creating);
    var loaded := creating.(phase := Loaded(op, first, blank), stores := Shared(s));
    more, taken := Goes(more, taken, noApps, creating, WriteContext, loaded);
    var t := loaded.(phase := Preparing(Working(), []));
    more, taken := Goes(more, taken, noApps, loaded, Admit(held, newer, [], []), t);
  }

  /** The other dispatch before its commit. */
  function Installing(s: Host): Host {
    s.(phase := Running(Working(), [], false), inflight := {"install"},
       stores := PrepareStores(Shared(s), "install", Pending("", "other")))
  }

  lemma {:induction false} CommitInstalls(s: Host, written: Context)
    requires Ready(s) && written == Context("page", 1, "")
    ensures CommitStores(Installing(s).stores, second, "other", written, "install") == Committed(s)
  {
    SecondProjects();
    assert "install" !in s.stores.prepared;
    assert s.stores.prepared["install" := Pending("", "other")] - {"install"} == s.stores.prepared;
  }

  lemma {:induction false} OtherPrepares(states: seq<Host>, steps: seq<Step>, s: Host)
      returns (more: seq<Host>, taken: seq<Step>)
    requires Ready(s) && Leads(states, steps, noApps, s)
    ensures Leads(more, taken, noApps, Installing(s))
    ensures more[0] == states[0] && (Uncrashed(steps) ==> Uncrashed(taken))
  {
    more, taken := OtherLoads(states, steps, s);
    var admitted := s.(phase := Preparing(Working(), []), inflight := {"install"}, stores := Shared(s));
    more, taken := Goes(more, taken, noApps, admitted, Prepare, Installing(s));
  }

  /** The commit, before it is announced. */
  function Announced(s: Host): Host {
    Installed(s).(phase := Announcing(Working(), second, Context("page", 1, "")), inflight := {"install"},
                  sent := s.sent)
  }

  lemma {:induction false} InstallCommits(s: Host)
    requires Ready(s)
    ensures Enabled(Installing(s), Commit("", 1), noApps)
    ensures Apply(Installing(s), Commit("", 1), noApps) == Announced(s)
  {
    SecondProjects();
    CommitInstalls(s, Context("page", 1, ""));
  }

  /** Another page installs an app. */
  lemma {:induction false} OtherInstalls(states: seq<Host>, steps: seq<Step>, s: Host)
      returns (more: seq<Host>, taken: seq<Step>)
    requires Ready(s) && Leads(states, steps, noApps, s)
    ensures Leads(more, taken, noApps, Installed(s))
    ensures more[0] == states[0] && (Uncrashed(steps) ==> Uncrashed(taken))
  {
    more, taken := OtherPrepares(states, steps, s);
    InstallCommits(s);
    more, taken := Goes(more, taken, noApps, Installing(s), Commit("", 1), Announced(s));
    more, taken := Goes(more, taken, noApps, Announced(s), Announce, Installed(s));
  }

  /** From an empty profile: two pages, one crash, two envelopes and four messages. */
  lemma {:induction false} OtherRuns() returns (states: seq<Host>, steps: seq<Step>)
    ensures Leads(states, steps, noApps, Installed(Crashed())) && states[0] == Empty()
  {
    states, steps := PageRuns();
    states, steps := OtherInstalls(states, steps, Crashed());
  }

  /** Without the effect and the crash. */
  lemma {:induction false} InstallRuns() returns (states: seq<Host>, steps: seq<Step>)
    ensures Leads(states, steps, noApps, Installed(Attached())) && states[0] == Empty() && Uncrashed(steps)
  {
    states, steps := AttachRuns();
    states, steps := OtherInstalls(states, steps, Attached());
  }
}
