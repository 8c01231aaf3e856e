/** The kernel host as a state machine. One step runs from one await of kernel-host.js to the next,
    so that a crash may come between any two steps. Operations run one at a time, in the order in
    which they were queued. */
module Kernel {
  import opened Options
  import opened Lists

  // ---------------------------------------------------------------- records

  /** An approved manifest; `body` stands for the canonical text of all but its id. */
  datatype App = App(id: string, body: string)

  datatype Grant = Grant(id: string, appId: string, issuedAt: int, revokedAt: Option<int>, body: string)

  datatype Receipt = Receipt(id: string, requestHash: string, globalRevision: nat, contextRevision: nat)

  /** The global envelope. Envelopes of an earlier format carry no grants. */
  datatype Global = Global(revision: nat, installed: seq<App>, grants: Option<seq<Grant>>, receipts: seq<Receipt>,
                           updatedAt: int)

  datatype Context = Context(kind: string, revision: nat, checkpoint: string)

  datatype Pending = Pending(requestHash: string, client: string)

  /** The durable stores: the kernel store by kind of record, and the two projections. */
  datatype Stores = Stores(
    global: Option<Global>,
    contexts: map<string, Context>,
    prepared: map<string, Pending>,
    apps: map<string, App>,
    grants: map<string, Grant>)

  /** A session state as far as host and pages look into it. */
  datatype Session = Session(installed: seq<App>, active: Option<string>, surfaceApp: Option<string>, rest: string)

  datatype Snapshot = Snapshot(contextId: string, globalRevision: nat, contextRevision: nat, state: Session)

  datatype Message =
    | Update(snapshot: Snapshot)
    | Rollback(snapshot: Snapshot)
    | Reply(snapshot: Snapshot, authoritative: bool)
    | RunEffect(contextId: string, tentative: Session)

  const MAX_RECEIPTS := 128
  const SYSTEM_APP_IDS: set<string> := { "greenways-worlds" }
  const RETIRED_APP_IDS: set<string> := { "greenways-home", "hestia-connector", "historia" }
  const CHATS_APP_ID := "chats"

  // ---------------------------------------------------------------- effects

  datatype Method =
    | AppsInstall | AppsUpdate | AppsOpen | AppsRemove
    | CapabilitiesGrant | CapabilitiesRevoke
    | WorldTouchpoint | SurfaceClose
    | StudioAddTrack | StudioRemoveTrack | StudioExportProject

  datatype Effect =
    | SaveApps(apps: seq<App>)
    | SaveGrants(grants: seq<Grant>)
    | OpenApp(appId: string)
    | OpenSurface
    | CloseSurface
    | ExportProject
    | Unknown(name: string)

  /** The name under which the effect policy lists an effect. */
  function Key(e: Effect): string {
    match e
    case SaveApps(_) => "storage/save-apps"
    case SaveGrants(_) => "storage/save-grants"
    case OpenApp(_) => "browser/open-app"
    case OpenSurface => "ui/open-surface"
    case CloseSurface => "ui/close-surface"
    case ExportProject => "export/studio-project"
    case Unknown(name) => "unknown/" + name
  }

  function EffectPolicy(m: Method): set<string> {
    match m
    case AppsInstall => { "storage/save-apps" }
    case AppsUpdate => { "storage/save-apps", "storage/save-grants" }
    case AppsOpen => { "browser/open-app", "ui/open-surface" }
    case AppsRemove => { "storage/save-apps", "storage/save-grants", "ui/close-surface" }
    case CapabilitiesGrant => { "storage/save-grants" }
    case CapabilitiesRevoke => { "storage/save-grants" }
    case WorldTouchpoint => { "ui/open-surface" }
    case SurfaceClose => { "ui/close-surface" }
    case StudioAddTrack => {}
    case StudioRemoveTrack => {}
    case StudioExportProject => { "export/studio-project" }
  }

  /** Effects that cannot be taken back: a tab and a download. */
  predicate NonReplayable(e: Effect) {
    e.OpenApp? || e.ExportProject?
  }

  /** An effect that the host hands to a page or to the browser. */
  predicate External(e: Effect) {
    !e.SaveApps? && !e.SaveGrants?
  }

  predicate EffectAllowed(m: Method, e: Effect, installed: seq<App>, grants: seq<Grant>) {
    && Key(e) in EffectPolicy(m)
    && (e.SaveApps? ==> e.apps == installed)
    && (e.SaveGrants? ==> e.grants == grants)
  }

  ghost predicate EffectsAllowed(m: Method, effects: seq<Effect>, installed: seq<App>, grants: seq<Grant>) {
    && (forall i :: 0 <= i < |effects| ==> EffectAllowed(m, effects[i], installed, grants))
    && (forall i, j :: 0 <= i < j < |effects| ==> Key(effects[i]) != Key(effects[j]))
  }

  /** The host's check of the effects that Hara returns: authorized, never twice, and saving just
      what the next state holds. */
  method ValidateEffects(m: Method, effects: seq<Effect>, installed: seq<App>, grants: seq<Grant>) returns (ok: bool)
    ensures ok <==> EffectsAllowed(m, effects, installed, grants)
  {
    var allowed := (i: int) => 0 <= i < |effects| && EffectAllowed(m, effects[i], installed, grants);
    var keys := seq(|effects|, i requires 0 <= i < |effects| => Key(effects[i]));
    ok := EachOnce(keys, allowed);
    assert forall i :: 0 <= i < |effects| ==> (allowed(i) <==> EffectAllowed(m, effects[i], installed, grants));
    assert forall i :: 0 <= i < |effects| ==> keys[i] == Key(effects[i]);
  }

  // ---------------------------------------------------------------- stored approvals

  const appId: App -> string := (a: App) => a.id
  const grantId: Grant -> string := (g: Grant) => g.id

  /** The built-in manifests, and the one that replaces a retired chat archive. */
  datatype Catalog = Catalog(builtins: seq<App>, chats: App)

  function Keep(apps: seq<App>, dropped: set<string>): seq<App> {
    if apps == [] then []
    else (if apps[0].id in dropped then [] else [apps[0]]) + Keep(apps[1..], dropped)
  }

  function Select(apps: seq<App>, kept: set<string>): seq<App> {
    if apps == [] then []
    else (if apps[0].id in kept then [apps[0]] else []) + Select(apps[1..], kept)
  }

  predicate HasApp(apps: seq<App>, id: string) {
    exists i :: 0 <= i < |apps| && apps[i].id == id
  }

  function MigrateInstalled(apps: seq<App>, catalog: Catalog): seq<App> {
    var kept := Keep(apps, RETIRED_APP_IDS);
    if HasApp(apps, "historia") && !HasApp(kept, CHATS_APP_ID) then kept + [catalog.chats] else kept
  }

  function RevokeRetired(grants: seq<Grant>, now: int): seq<Grant> {
    seq(|grants|, i requires 0 <= i < |grants| =>
      var g := grants[i];
      if g.appId in RETIRED_APP_IDS && g.revokedAt.None?
      then g.(revokedAt := Some(if g.issuedAt > now then g.issuedAt else now))
      else g)
  }

  function GrantsOf(g: Global): seq<Grant> {
    match g.grants case None => [] case Some(grants) => grants
  }

  predicate NeedsRetirement(stored: Global) {
    || (exists i :: 0 <= i < |stored.installed| && stored.installed[i].id in RETIRED_APP_IDS)
    || (exists i :: 0 <= i < |GrantsOf(stored)| &&
          GrantsOf(stored)[i].appId in RETIRED_APP_IDS && GrantsOf(stored)[i].revokedAt.None?)
  }

  /** What loading makes of a stored envelope: retired apps go, the built-in ones come first. Any
      change is a new revision. None: the stored approvals need recovery. */
  function Upgrade(stored: Global, catalog: Catalog, now: int): Option<Global> {
    var migrated := MigrateInstalled(stored.installed, catalog);
    var grants := RevokeRetired(GrantsOf(stored), if NeedsRetirement(stored) then now else stored.updatedAt);
    if !Distinct(KeyList(migrated, appId)) || !Distinct(KeyList(grants, grantId)) then None
    else
      var installed := Select(catalog.builtins, SYSTEM_APP_IDS) + Keep(migrated, SYSTEM_APP_IDS);
      if migrated != installed || stored.grants.None? || stored.installed != installed || GrantsOf(stored) != grants
      then Some(Global(stored.revision + 1, installed, Some(grants), stored.receipts, now))
      else Some(stored)
  }

  // ---------------------------------------------------------------- transactions

  /** A projection entry needs a non-empty id, and one of its own. */
  predicate Keyable<V>(values: seq<V>, idOf: V -> string) {
    Distinct(KeyList(values, idOf)) && forall i :: 0 <= i < |values| ==> idOf(values[i]) != ""
  }

  predicate Projects(g: Global) {
    Keyable(g.installed, appId) && Keyable(GrantsOf(g), grantId)
  }

  function ReplaceGlobal(d: Stores, g: Global): Stores {
    d.(global := Some(g), apps := ByKey(g.installed, appId), grants := ByKey(GrantsOf(g), grantId))
  }

  function PrepareStores(d: Stores, requestId: string, pending: Pending): Stores {
    d.(prepared := d.prepared[requestId := pending])
  }

  function AbortStores(d: Stores, requestId: string): Stores {
    d.(prepared := d.prepared - {requestId})
  }

  function CommitStores(d: Stores, g: Global, client: string, c: Context, requestId: string): Stores {
    ReplaceGlobal(d, g).(contexts := d.contexts[client := c], prepared := d.prepared - {requestId})
  }

  // ---------------------------------------------------------------- operations

  datatype Request = Request(
    id: string, client: string, kind: string, command: Method, hash: string,
    expectedGlobal: Option<nat>, expectedContext: Option<nat>)

  /** A call reads the composed state like an attach, and answers with a value alone. Calls that do
      not ask for state touch no store, and need no operation here. */
  datatype Operation =
    | Attach(client: string, kind: string)
    | Call(client: string, kind: string)
    | Dispatch(request: Request)

  function ClientOf(op: Operation): string {
    match op case Attach(client, _) => client case Call(client, _) => client case Dispatch(r) => r.client
  }

  function KindOf(op: Operation): string {
    match op case Attach(_, kind) => kind case Call(_, kind) => kind case Dispatch(r) => r.kind
  }

  /** A dispatch that passed all checks, with what it read and what Hara made of it. */
  datatype Work = Work(
    request: Request, global: Global, context: Context,
    previous: Session, next: Session, grants: seq<Grant>)

  datatype Phase =
    | Idle
    | LoadingGlobal(op: Operation)
    | ReplacingGlobal(op: Operation, global: Global)
    | LoadingContext(op: Operation, global: Global)
    | CreatingContext(op: Operation, global: Global, context: Context)
    | Loaded(op: Operation, global: Global, context: Context)
    | Preparing(work: Work, todo: seq<Effect>)
    | Running(work: Work, todo: seq<Effect>, attempted: bool)
    | Attempting(work: Work, todo: seq<Effect>, attempted: bool)
    | Recovering(work: Work, attempted: bool)
    | RollingBack(work: Work)
    | Announcing(work: Work, global: Global, context: Context)

  /** An attempt of a non-replayable effect, and how many receipts had been written by then. */
  datatype Attempt = Attempt(id: string, key: string, at: nat)

  /** Stores, the volatile host, and a record of what has happened: every receipt ever written, the
      client of every commit, each attempt, each global envelope and each message. `base` keeps the
      revisions that the contexts had at the start. */
  datatype Host = Host(
    stores: Stores,
    phase: Phase,
    queue: seq<Operation>,
    inflight: set<string>,
    history: seq<Receipt>,
    committers: seq<string>,
    base: map<string, nat>,
    attempts: seq<Attempt>,
    written: seq<Global>,
    sent: seq<Message>)

  datatype Step =
    | Submit(op: Operation)
    | Begin
    | FirstGlobal(installed: seq<App>, now: int)
    | ReadGlobal(now: int)
    | WriteGlobal
    | ReadContext(checkpoint: string)
    | WriteContext
    | Answer(state: Session)
    | Return
    | Replay(state: Session)
    | Admit(previous: Session, next: Session, grants: seq<Grant>, effects: seq<Effect>)
    | Prepare
    | StartEffect
    | FinishEffect
    | FailEffect
    | Commit(checkpoint: string, now: int)
    | FailCommit
    | Recover(deleted: bool)
    | RollBack
    | Announce
    | Refuse
    | Crash

  predicate HasReceipt(receipts: seq<Receipt>, id: string) {
    exists i :: 0 <= i < |receipts| && receipts[i].id == id
  }

  function SnapshotOf(g: Global, client: string, c: Context, state: Session): Snapshot {
    Snapshot(client, g.revision, c.revision, state)
  }

  function NextGlobal(w: Work, now: int): Global {
    var g := w.global;
    var changed := g.installed != w.next.installed || GrantsOf(g) != w.grants;
    var revision := g.revision + if changed then 1 else 0;
    var receipt := Receipt(w.request.id, w.request.hash, revision, w.context.revision + 1);
    Global(revision, w.next.installed, Some(w.grants), Last(MAX_RECEIPTS, g.receipts + [receipt]), now)
  }

  /** Which steps the host can take. Hara may return any state, grants and effects; but `app/restore`
      returns the approvals it was given. */
  ghost predicate Enabled(s: Host, step: Step, catalog: Catalog) {
    match step
    case Submit(_) => true
    case Crash => true
    case Begin => s.phase.Idle? && s.queue != []
    case FirstGlobal(_, _) => s.phase.LoadingGlobal? && s.stores.global.None?
    case ReadGlobal(now) =>
      s.phase.LoadingGlobal? && s.stores.global.Some? && Upgrade(s.stores.global.value, catalog, now).Some?
    case WriteGlobal => s.phase.ReplacingGlobal? && Projects(s.phase.global)
    case ReadContext(_) =>
      && s.phase.LoadingContext?
      && (ClientOf(s.phase.op) in s.stores.contexts ==>
            s.stores.contexts[ClientOf(s.phase.op)].kind == KindOf(s.phase.op))
    case WriteContext => s.phase.CreatingContext?
    case Answer(state) => s.phase.Loaded? && s.phase.op.Attach? && state.installed == s.phase.global.installed
    case Return => s.phase.Loaded? && s.phase.op.Call?
    case Replay(state) =>
      && s.phase.Loaded? && s.phase.op.Dispatch? && state.installed == s.phase.global.installed
      && exists i :: 0 <= i < |s.phase.global.receipts| && s.phase.global.receipts[i].id == s.phase.op.request.id
           && s.phase.global.receipts[i].requestHash == s.phase.op.request.hash
    case Admit(previous, next, grants, effects) =>
      && s.phase.Loaded? && s.phase.op.Dispatch?
      && var r := s.phase.op.request;
      && !HasReceipt(s.phase.global.receipts, r.id)
      && r.id !in s.stores.prepared
      && (r.expectedGlobal.Some? ==> r.expectedGlobal.value == s.phase.global.revision)
      && (r.expectedContext.Some? ==> r.expectedContext.value == s.phase.context.revision)
      && previous.installed == s.phase.global.installed
      && EffectsAllowed(r.command, effects, next.installed, grants)
    case Prepare => s.phase.Preparing?
    case StartEffect => s.phase.Running? && s.phase.todo != []
    case FinishEffect => s.phase.Attempting?
    case FailEffect => s.phase.Attempting?
    case Commit(_, now) => s.phase.Running? && s.phase.todo == [] && Projects(NextGlobal(s.phase.work, now))
    case FailCommit => s.phase.Running? && s.phase.todo == []
    case Recover(deleted) => s.phase.Recovering? && (s.phase.attempted ==> !deleted)
    case RollBack => s.phase.RollingBack?
    case Announce => s.phase.Announcing?
    case Refuse =>
      || s.phase.LoadingGlobal? || s.phase.ReplacingGlobal? || s.phase.LoadingContext? || s.phase.CreatingContext?
      || s.phase.Loaded? || s.phase.Preparing?
  }

  function Finished(s: Host, id: string): Host {
    s.(phase := Idle, inflight := s.inflight - {id})
  }

  function FinishedOperation(s: Host, op: Operation): Host {
    match op case Dispatch(r) => Finished(s, r.id) case _ => s.(phase := Idle)
  }

  ghost function Apply(s: Host, step: Step, catalog: Catalog): Host
    requires Enabled(s, step, catalog)
  {
    match step
    case Submit(op) =>
      if !op.Dispatch? then s.(queue := s.queue + [op])
      else if op.request.id in s.inflight then s
      else s.(queue := s.queue + [op], inflight := s.inflight + {op.request.id})
    case Begin => s.(phase := LoadingGlobal(s.queue[0]), queue := s.queue[1..])
    case FirstGlobal(installed, now) =>
      s.(phase := ReplacingGlobal(s.phase.op, Global(0, installed, Some([]), [], now)))
    case ReadGlobal(now) =>
      var stored := s.stores.global.value;
      var g := Upgrade(stored, catalog, now).value;
      if g == stored then s.(phase := LoadingContext(s.phase.op, g)) else s.(phase := ReplacingGlobal(s.phase.op, g))
    case WriteGlobal =>
      s.(stores := ReplaceGlobal(s.stores, s.phase.global), written := s.written + [s.phase.global],
         phase := LoadingContext(s.phase.op, s.phase.global))
    case ReadContext(checkpoint) =>
      var client := ClientOf(s.phase.op);
      if client in s.stores.contexts then s.(phase := Loaded(s.phase.op, s.phase.global, s.stores.contexts[client]))
      else s.(phase := CreatingContext(s.phase.op, s.phase.global, Context(KindOf(s.phase.op), 0, checkpoint)))
    case WriteContext =>
      s.(stores := s.stores.(contexts := s.stores.contexts[ClientOf(s.phase.op) := s.phase.context]),
         phase := Loaded(s.phase.op, s.phase.global, s.phase.context))
    case Answer(state) =>
      s.(sent := s.sent + [Reply(SnapshotOf(s.phase.global, s.phase.op.client, s.phase.context, state), true)],
         phase := Idle)
    case Return => s.(phase := Idle)
    case Replay(state) =>
      var r := s.phase.op.request;
      Finished(s.(sent := s.sent + [Reply(SnapshotOf(s.phase.global, r.client, s.phase.context, state), false)]), r.id)
    case Admit(previous, next, grants, effects) =>
      s.(phase := Preparing(Work(s.phase.op.request, s.phase.global, s.phase.context, previous, next, grants), effects))
    case Prepare =>
      var r := s.phase.work.request;
      s.(stores := PrepareStores(s.stores, r.id, Pending(r.hash, r.client)),
         phase := Running(s.phase.work, s.phase.todo, false))
    case StartEffect =>
      var e, rest, w := s.phase.todo[0], s.phase.todo[1..], s.phase.work;
      if !External(e) then s.(phase := Running(w, rest, s.phase.attempted))
      else
        s.(attempts := s.attempts + (if NonReplayable(e) then [Attempt(w.request.id, Key(e), |s.history|)] else []),
           sent := s.sent + (if e.OpenApp? then [] else [RunEffect(w.request.client, w.next)]),
           phase := Attempting(w, rest, s.phase.attempted || NonReplayable(e)))
    case FinishEffect => s.(phase := Running(s.phase.work, s.phase.todo, s.phase.attempted))
    case FailEffect => s.(phase := Recovering(s.phase.work, s.phase.attempted))
    case Commit(checkpoint, now) =>
      var w := s.phase.work;
      var g := NextGlobal(w, now);
      var c := w.context.(revision := w.context.revision + 1, checkpoint := checkpoint);
      s.(stores := CommitStores(s.stores, g, w.request.client, c, w.request.id),
         history := s.history + [g.receipts[|g.receipts| - 1]],
         committers := s.committers + [w.request.client],
         written := s.written + [g],
         phase := Announcing(w, g, c))
    case FailCommit => s.(phase := Recovering(s.phase.work, s.phase.attempted))
    case Recover(deleted) =>
      var id := s.phase.work.request.id;
      s.(stores := if deleted then AbortStores(s.stores, id) else s.stores,
         phase := RollingBack(s.phase.work))
    case RollBack =>
      var w := s.phase.work;
      Finished(s.(sent := s.sent + [Rollback(SnapshotOf(w.global, w.request.client, w.context, w.previous))]),
               w.request.id)
    case Announce =>
      var w := s.phase.work;
      var snapshot := SnapshotOf(s.phase.global, w.request.client, s.phase.context, w.next);
      Finished(s.(sent := s.sent + [Update(snapshot), Reply(snapshot, false)]), w.request.id)
    case Refuse =>
      FinishedOperation(s, if s.phase.Preparing? then Dispatch(s.phase.work.request) else s.phase.op)
    case Crash => s.(phase := Idle, queue := [], inflight := {})
  }

  // ---------------------------------------------------------------- runs

  predicate DistinctReceipts(receipts: seq<Receipt>) {
    forall i, j :: 0 <= i < j < |receipts| ==> receipts[i].id != receipts[j].id
  }

  /** The apps and grants stores hold just what the global envelope lists. Envelopes of the earlier
      format may still lack a grant projection. */
  predicate Projected(d: Stores) {
    d.global.Some? && d.global.value.grants.Some? ==>
      && Projects(d.global.value)
      && d.apps == ByKey(d.global.value.installed, appId)
      && d.grants == ByKey(GrantsOf(d.global.value), grantId)
  }

  /** A host that has just started, on a new profile or on what an earlier run left behind: any
      contexts and prepared requests, and an envelope of this format or the earlier one. */
  ghost predicate Initial(s: Host) {
    && s.phase.Idle? && s.queue == [] && s.inflight == {}
    && s.committers == [] && s.attempts == [] && s.sent == []
    && s.base == (map client | client in s.stores.contexts :: s.stores.contexts[client].revision)
    && Projected(s.stores)
    && match s.stores.global
       case None => s.history == [] && s.written == []
       case Some(g) =>
         && s.history == g.receipts && s.written == [g]
         && |g.receipts| <= MAX_RECEIPTS && DistinctReceipts(g.receipts)
  }

  /** The states of a run, one more than its steps. */
  ghost predicate IsRun(states: seq<Host>, steps: seq<Step>, catalog: Catalog) {
    && |states| == |steps| + 1
    && forall i :: 0 <= i < |steps| ==>
      Enabled(states[i], steps[i], catalog) && states[i + 1] == Apply(states[i], steps[i], catalog)
  }
}
