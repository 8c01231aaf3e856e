# Greenways extension: a model of its stateful core

This project models the parts of the Greenways browser extension whose correctness does not show in
any one function: protocols with crashes between their steps, a hash-linked record chain and its
migration, a source-to-source rewriter, an interleaved graph exploration, and summaries that are
trimmed as they grow. Each part is stated against an independent reading of what it is for, and
proved for every input, run or interleaving.

- **Kernel** (`Kernel`, `KernelStorage`, `KernelInvariant`, `KernelLate`, `KernelEffects`, `KernelClient`,
  `KernelTentative`, `KernelRuns`). The host
  is a state machine whose steps run from one await to the next; a crash may come between any two.
  Stores are durable, everything else is lost in a crash. Hara may return any state, grants and
  effects; only `app/restore` is known to return the approvals it was given. Messages to pages may be
  lost, repeated or reordered.
- **Signed personal chain** (`Json`, `JsonReading`, `Chain`, `Records`, `Sync`, `Outbox`, `Migration`,
  `MigrationRun`, `MigrationSettles`, `MigrationLife`, `Recording`, `Evidence`). Canonical JSON (strings escaped as
  in section 7 of RFC 8259, over UTF-16 code units), hash-linked inclusions, the migration from
  unsigned to signed chains, batches, the outbox, and evidence bundles. Hash, signature and key pairing
  are arbitrary functions: of signatures it is only taken that one made with a key verifies under the
  public key of the same pair. Results that need an injective hash say "or here are two different texts
  with the same hash" instead.
- **HAL modules** (`HalScanner`, `HalRewriter`, `HalIsolation`, `HalRegistry`). The scanner and the
  span-based renamer are proved against a reference lexer and a declarative grammar of pieces; the
  registry hands out the generations under which modules are moved.
- **Graphs** (`Worlds`, `WorldsComplete`, `WorldsLayers`, `WorldsOverrun`, `Chats`). World imports are explored by a pool of visits that
  may interleave at every await; message parents are walked depth first.
- **Summaries and sessions** (`Monitor`, `MonitorWindow`, `Retention`, `BackupService`, `Sessions`,
  `SessionCalls`, `SessionRuntime`).
- `Options`, `Lists` and `Sorting` hold the optional value, the loops and lookups over lists, and the
  stable sort that the other modules share.

Where the code updates things step by step, the model has methods, loops and classes that are proved
against a specification function or predicate; the properties are then proved of that specification.

Six statements that one might expect are false of the code. Each is given with an input on which it
fails and with the exact condition under which it holds.

- *Different app ids have disjoint namespaces.* Two can be given a common one, exactly when one reads
  like a namespace under a generation root of the other (`HalRegistry.CollideExactly`; the pair is in
  `HalRegistry.DottedCollision`).
- *A client without a tentative state holds the approvals of its revision.* A failed page effect puts
  the older state back but not the older revision, so the client is coherent at every moment exactly
  when each effect that fails does so at a revision with the approvals of the one at which it began
  (`KernelClient.FailedEffectExactly`, `KernelClient.CacheCoherent`). It is so when no snapshot was taken
  while the effect ran (`KernelTentative.QuietRestores`); a run of the host and the messages of a page for
  which it fails are in `KernelTentative.LateFailureStale`.
- *The stores keep the history of the profile.* They do while only the operations in the queue load the
  global envelope. A load of a refused operation or of a check outside the queue may write its upgrade late,
  over what was committed meanwhile. The invariant holds throughout a run exactly when every such write
  carries the receipts of the envelope that is stored when it lands, is later or says the same, and overtakes
  no operation that has read the other (`KernelLate.RunDurableExactly`). That is so when nothing was written
  since it was read, and never so with up to 128 commits in between; `KernelLate.LateWriteLoses` has a run in
  which an approved app and its receipt are lost.
- *There are never more than 64 layers.* The check comes before an await. On every graph whose reachable
  worlds keep the limit on projects, some run passes 64 exactly when some visit has a streamed layer such
  that the layers above it that cannot fail leave room when it is checked, and the visits beside its own
  can fill that room before its metadata arrives (`WorldsOverrun.PassedExactly`). When the network always
  answers, this reads: with a layers above it, the earlier ones of its own visit included, and b in the
  visits beside, a <= 63 and a + b >= 64. When metadata may fail, some of the streamed layers above can be
  lost first, so only the plain ones among them must stay below 64, and b must be at least 1. `WorldsOverrun.CrowdedPasses` has a graph of three
  worlds on which 65 layers are taken; `WorldsLayers.PastLimit` says which single step does it.
- *A terminal session keeps its phase.* A `dismissed` page event is accepted in every phase and cancels;
  along a run the phase is kept exactly when no page dismisses the session, unless it is cancelled
  already (`Sessions.TerminalExactly`, `SessionCalls.TerminalKept`, with a run in
  `SessionCalls.ReturnedThenCancelled`).
- *There is at most one active session for each tab.* Sessions are stored for longer than tab ids are
  valid; it holds throughout a run exactly when the browser never opens a tab whose id an active session
  has (`SessionCalls.TabsExactly`, with a run in `SessionCalls.TabShared`).

## Model

| member | source | states |
|---|---|---|
| JsonReading.ReadValue | extension/src/protocol.js:12-18 | prefix-freedom: if the canonical texts of two JSON values, each followed by text that cannot continue a value, are equal as wholes, then the values are equal up to key order and what follows is the same |
| JsonReading.ReadQuote | extension/src/protocol.js:12-18 | a quoted string, with its escapes and surrogate pairs, can be read back from the front of a text in one way only |
| JsonReading.SameText | extension/src/protocol.js:12-18 | values that differ at most in the order of object members have the same canonical text |
| JsonReading.UniquelyReadable | extension/src/protocol.js:12-18 | two JSON values have the same canonical text exactly when they are equal up to the order in which members were inserted |
| Chain.VerifyPersonalChain | extension/src/protocol.js:147-171 | the walk with the previous inclusion in hand accepts exactly the chains in which every inclusion is linked, owned, hashed and signed as required |
| Chain.BackFrom | extension/src/protocol.js:147-171 | equal event hashes in two accepted chains without a hash collision stand at the same place, with equal bodies there and everywhere before |
| Chain.HeadCommits | extension/src/protocol.js:147-171 | two accepted chains with the same head have the same length and the same body at every place, or two of their texts collide under the hash |
| Chain.NumeralsInjective | extension/src/protocol.js:12-18 | the printed sequence number determines the number |
| Records.SignedVerifies | extension/src/protocol.js:87-96 | an action signed with a key verifies under the public key that belongs to it |
| Records.IncludeAction | extension/src/protocol.js:120-145 | an inclusion is made exactly when the action is signed, the owner's key id is that of its key, the previous inclusion is of the same chain, and the new one's signature verifies under the owner's key |
| Records.PairedAttests | extension/src/protocol.js:120-145 | the last is so when the private key belongs to the owner |
| Records.IncludedExtends | extension/src/protocol.js:120-145 | including an action extends an accepted chain by one link that names it |
| Records.OwnChainValid | extension/src/protocol.js:147-171 | for inclusions of one owner, acceptance by the verifier is link by link a condition on sequence, previous hash, event hash and signature |
| Sync.OrderSyncEntries | extension/src/sync-protocol.js:38-64 | a batch is accepted exactly when its entries, in order of sequence, form one valid contiguous linked segment with distinct records, from the zero hash if it starts at 1; and that order is returned |
| Sync.OrderingReturns | extension/src/sync-protocol.js:38-64 | every permutation of a segment comes back as that segment |
| Sync.OrderingCanonical | extension/src/sync-protocol.js:38-64 | a batch is accepted exactly when some arrangement of it is a segment, in whatever order it is given |
| Outbox.StepKept | extension/src/launcher.js:393-404 | each record, batch read, arrival, confirmation, failure, deletion and crash keeps the outbox a suffix of the chain whose start never moves back, with all before it delivered and every batch ever sent a slice of the chain; a batch may arrive after its page has gone, and more than once |
| Outbox.NothingLost | extension/src/launcher.js:382-410 | after any interleaving of pages that record, read, send, delete and crash, with late and repeated arrivals, the outbox is a contiguous suffix of the chain and the server has everything outside it |
| Outbox.BatchAccepted | extension/src/hestia-client.js:66-83 | whatever order the store lists it in, the outbox is always accepted as a batch and sent as that stretch of the chain |
| Migration.ValidatedActions | extension/src/identity-migration.js:211-234 | stored actions are accepted exactly when each fits the owner's schema and verifies and no id or root repeats; they are returned indexed by root |
| Migration.IndexFinds | extension/src/identity-migration.js:213-233 | over distinct roots the index finds every action and has one entry for each |
| Lists.EachOnce | extension/src/identity-migration.js:320-338 | the loop over entries with a seen set accepts exactly when every entry fits and no name repeats |
| Migration.ValidateLegacyInclusions | extension/src/identity-migration.js:253-286 | the unsigned inclusions, in order, are accepted exactly when they link from the zero hash with valid hashes and name every stored action once |
| Migration.ValidateCurrentInclusions | extension/src/identity-migration.js:288-318 | the signed inclusions, in order, are accepted exactly when each fits the owner's schema, the chain verifies, and every stored action is named once |
| Migration.LegacyPendingRoots | extension/src/identity-migration.js:320-338 | the old outbox is accepted exactly when its entries are distinct stored, included and verified actions of the owner; their roots are returned in order |
| Migration.CurrentOutbox | extension/src/identity-migration.js:340-362 | the present outbox is accepted exactly when its entries are distinct valid sync entries that match a stored action and a stored inclusion |
| Migration.ValidateLinkage | extension/src/identity-migration.js:401-429 | a migration record is accepted exactly when its mappings follow the signed chain from its start, once each, and end at the recorded heads, with distinct mapped pending roots |
| Migration.ValidateMigrationHistoryLinkage | extension/src/identity-migration.js:401-429 | the history is accepted exactly when every record in it is linked |
| MigrationRun.RebuildInclusions | extension/src/identity-migration.js:364-378 | the loop includes each stored action anew, in the order of the unsigned chain, behind the inclusion before it |
| MigrationRun.PersonalDatabase.ReplacePersonalChain | extension/src/storage.js:133-161 | identity, inclusions and outbox are replaced together, or nothing is when hashes repeat or an entry is not valid |
| MigrationRun.PersonalDatabase.PutSignedRecord | extension/src/storage.js:121-131 | an action and its inclusion are put into all three stores under their keys, or nothing changes when they are no valid sync entry |
| MigrationRun.PersonalDatabase.MigrateCurrent | extension/src/identity-migration.js:485-507 | a signed store is left as it is, hardened, or refused, by the validity of inclusions, history and outbox together |
| MigrationRun.PersonalDatabase.MigrateEmpty | extension/src/identity-migration.js:509-528 | a store without inclusions is accepted exactly when it has no actions, outbox or history |
| MigrationRun.EmptyFits | extension/src/identity-migration.js:509-515 | a store without inclusions fits the signed format exactly when it holds no records |
| MigrationRun.PersonalDatabase.MigrateLegacy | extension/src/identity-migration.js:530-577 | an unsigned store is upgraded exactly when all its validators accept it and the rebuilt records can be stored |
| MigrationRun.PersonalDatabase.Migrate | extension/src/identity-migration.js:460-578 | every branch of the migration, as one function of the stores before it; a failure changes nothing |
| MigrationSettles.RebuiltChain | extension/src/identity-migration.js:364-378 | the rebuilt chain passes all checks that a stored signed chain must pass |
| MigrationSettles.BridgeLinked | extension/src/identity-migration.js:431-458 | the mappings of the new record follow the rebuilt chain and end at its head |
| MigrationSettles.RecordSchema | extension/src/identity-migration.js:431-458 | the new record passes the checks of the stored history, signature included |
| MigrationSettles.OutboxQueued | extension/src/identity-migration.js:562-570 | the rebuilt outbox passes its checks and can be stored, when no two event hashes are equal |
| MigrationSettles.DuplicateCollides | extension/src/storage.js:152-155 | equal event hashes in one chain are two different texts with the same hash |
| MigrationSettles.MigrationSettled | extension/src/identity-migration.js:530-577 | from every accepted unsigned store the migration writes a settled store whose chain has the length and the action roots, in order, of the unsigned one; or it fails, with a hash collision in hand |
| MigrationSettles.RecordBridges | extension/src/identity-migration.js:431-457 | the record maps every old event hash to the new one at the same place and names what was pending |
| MigrationSettles.HardeningSettles | extension/src/identity-migration.js:485-507 | replacing an extractable key settles a signed store and keeps its chain; or it fails, with a hash collision in hand |
| MigrationSettles.RunsOnce | extension/src/identity-migration.js:460-578 | a run changes nothing exactly on settled stores, and after a run that changed something any later run changes nothing |
| MigrationLife.Record | extension/src/app.js:82-99 | record() stores a signed action with its inclusion behind the last stored one, or changes nothing; over a settled store it is refused only when the sequence leaves the safe integers |
| MigrationLife.PuttingFresh | extension/src/storage.js:121-131 | under keys not in use, putting appends to all three stores |
| MigrationLife.RecordKeeps | extension/src/app.js:82-99 | recording with unused id, root and event hash keeps the store settled when workflow root, subject and payload are acceptable, and otherwise makes the next migration fail |
| Recording.TextNamesAction | extension/src/protocol.js:72-85 | the canonical text of an action determines its id |
| Recording.FreshUnlessClash | extension/src/app.js:82-99 | a record under an unused id has an unused root and event hash too, or its text or its inclusion's has the hash of another text of the store |
| Recording.RecordSettles | extension/src/app.js:82-99 | so under an unused id alone, putting appends and RecordKeeps applies, or there is such a clash |
| Recording.EntriesFromStart | extension/src/app.js:82-99 | the inclusions of a settled store with their actions are one segment from sequence 1, or two of them collide |
| Recording.RecordEnabled | extension/src/app.js:82-99 | recording in a settled store is a step that the outbox allows: it appends one entry to that segment and queues it |
| MigrationLife.SendKeeps | extension/src/launcher.js:400-403 | removing a sent entry keeps the store settled |
| MigrationLife.ShuffleKeeps | extension/src/identity-migration.js:462-467 | it does not matter in which order the database lists its records |
| Recording.SettledForGood | extension/src/identity-migration.js:460-578 | after any number of acceptable records under unused ids, sent entries, relistings and further runs, the migration still has nothing to do; or some step shows two different texts with the same hash |
| Evidence.VerifyPersonalChainMigration | extension/src/protocol.js:219-253 | a migration record verifies exactly when it is signed with a known key and its mappings bridge to a prefix of the chain |
| Evidence.HistoryBridges | extension/src/protocol.js:219-253 | a record that the migration accepts in its history also verifies on its own |
| Evidence.VerifyEvidenceBundle | extension/src/protocol.js:194-217 | the errors reported are exactly the flaws of the bundle: of its root, its chain, each action, each missing action and each migration record |
| Evidence.ExportVerifies | extension/src/app.js:541-554 | the bundle exported from every store in the signed format has no flaw |
| Evidence.MigratedExportVerifies | extension/src/app.js:541-554 | so has the bundle exported after a migration, which holds the record of that migration |
| HalScanner.LexSplits | extension/src/hal-module-runtime.js:72-121 | the reference lexer finds a list of pieces exactly when the list splits the source by the grammar: comments, literals, delimiters, whitespace and maximal symbols |
| HalScanner.ScanTokens | extension/src/hal-module-runtime.js:72-121 | the index loop terminates and returns the tokens of the reference lexer in their places, or an unterminated string; the unsupported-token branch is unreachable |
| HalRewriter.ApplyTokenReplacements | extension/src/hal-module-runtime.js:171-181 | the cursor loop yields the source with every token replaced and all text between tokens copied |
| HalRewriter.RewriteModule | extension/src/hal-module-runtime.js:204-226 | a module is rewritten exactly when its resources are acceptable, each one moved under the fresh generation root |
| HalIsolation.ScanCommutes | extension/src/hal-module-runtime.js:158-181 | scanning the rewritten source yields the original pieces with each token rewritten and every gap unchanged |
| HalIsolation.SourceRestored | extension/src/hal-module-runtime.js:158-181 | the inverse renaming recovers the exact text of every accepted source |
| HalIsolation.RewritingInjective | extension/src/hal-module-runtime.js:158-181 | distinct accepted sources have distinct rewritten texts |
| HalIsolation.ReferencesIsolated | extension/src/hal-module-runtime.js:129-168 | in a rewritten source every non-keyword token that starts with "app." lies under the module's root, and none reaches into the host namespaces |
| HalRegistry.RootIsRoot | extension/src/hal-module-runtime.js:210-210 | the root of an app's generation is a root in the sense of the isolation results, which so apply to every staged module |
| HalRegistry.GenerationsApart | extension/src/hal-module-runtime.js:204-226 | within one app a moved namespace determines its generation and its name |
| HalRegistry.CollideExactly | extension/src/hal-module-runtime.js:204-226 | two different app ids share a namespace exactly when one is nested under a generation root of the other |
| HalRegistry.DotFreeApart | extension/src/hal-module-runtime.js:204-226 | ids without dots never share a namespace |
| HalRegistry.DottedCollision | extension/src/hal-module-runtime.js:204-226 | the concrete pair of dotted ids that do |
| HalRegistry.ModuleRuntime.NextGeneration | extension/src/hal-module-runtime.js:284-288 | the number handed out is one more than the last, and was never handed out before |
| HalRegistry.ModuleRuntime.Stage | extension/src/hal-module-runtime.js:290-317 | staging spends one fresh number even if it then fails, and yields a descriptor under that number exactly when sources and host accept |
| HalRegistry.ModuleRuntime.PrepareInstall | extension/src/hal-module-runtime.js:319-327 | an install of a new app is prepared under a number never used before |
| HalRegistry.ModuleRuntime.PrepareReload | extension/src/hal-module-runtime.js:329-339 | a reload of an installed app is prepared under a fresh number, from the same sources if none are given |
| HalRegistry.ModuleRuntime.PrepareRemove | extension/src/hal-module-runtime.js:341-349 | a removal names what is installed and hands out no number |
| HalRegistry.ModuleRuntime.Commit | extension/src/hal-module-runtime.js:253-271 | a transaction takes effect at most once, and every installed module runs under a number handed out to it |
| HalRegistry.Transaction.Rollback | extension/src/hal-module-runtime.js:264-269 | only a prepared transaction can be rolled back |
| Kernel.ValidateEffects | extension/src/kernel-host.js:194-220 | the effects are accepted exactly when each is authorized for the method, none repeats, and saved apps and grants are those of the next state |
| KernelStorage.ProjectionEntries | extension/src/storage.js:163-203 | the projection of apps, modules or grants exists exactly when keys are distinct and not empty, and lists them in order |
| KernelStorage.KernelDatabase.ReplaceGlobalStores | extension/src/storage.js:244-261 | envelope and the projections that are given are replaced together, or nothing changes |
| KernelStorage.KernelDatabase.CommitTransition | extension/src/storage.js:215-242 | envelope, context and the projections that are given are written and the prepared record removed in one transaction, or nothing changes |
| KernelStorage.KernelDatabase.PutPrepared | extension/src/storage.js:205-209 | a prepared record is stored under its request id, as the host's prepare step has it |
| KernelStorage.KernelDatabase.AbortPrepared | extension/src/storage.js:211-213 | a prepared record is removed, as the host's abort step has it |
| KernelInvariant.PhaseStep | extension/src/kernel-host.js:810-960 | an operation that has read envelope and context still holds what is stored, at every await until it commits |
| KernelInvariant.DurableStep | extension/src/kernel-host.js:505-549 | every step, a crash included, keeps the durable invariant |
| KernelInvariant.RunDurable | extension/src/kernel-host.js:905-936 | every state of every run in which only queued operations load the envelope satisfies it |
| KernelLate.LandsExactly | extension/src/kernel-host.js:505-538 | a write of a load outside the queue keeps the durable invariant exactly when it carries the stored receipts, is later or says the same, and overtakes no operation |
| KernelLate.RunDurableExactly | extension/src/kernel-host.js:505-560 | the durable invariant holds throughout a run with such writes exactly when each of them lands so |
| KernelLate.UnchangedInOrder | extension/src/kernel-host.js:505-538 | it does when the envelope that was read is still stored and no operation has read it |
| KernelLate.CommittedOutOfOrder | extension/src/kernel-host.js:905-936 | it does not when up to 128 dispatches have committed since it was read |
| KernelLate.LateWriteLoses | extension/src/kernel-host.js:540-549 | on an empty profile, a first envelope written late takes back an approved app and its receipt |
| Lists.ByKeyIs | extension/src/storage.js:163-203 | a projection with distinct keys holds each listed record under its key and nothing else |
| KernelInvariant.StoresInRun | extension/src/kernel-host.js:905-936 | in every state of a run the apps and grants stores are the projections of the envelope, the receipts are the last at most 128 commits with distinct ids, and each context revision counts that context's commits |
| KernelInvariant.RevisionsInRun | extension/src/kernel-host.js:505-538 | along a run the global revision never decreases, and equal revisions mean equal approvals and grants |
| KernelEffects.AtMostOnce | extension/src/kernel-host.js:882-960 | over every run with crashes, a tab or download is attempted twice under one request id only if that id committed in between and at least 128 other dispatches committed after it |
| KernelEffects.LeftBehind | extension/src/kernel-host.js:944-960 | a crash while effects are under way, or a failure after a non-replayable one, leaves the prepared record behind |
| KernelEffects.LeftBehindBlocks | extension/src/kernel-host.js:840-849 | a prepared record left behind stays forever, and nothing more is attempted under its id |
| KernelClient.Client.AcceptSnapshot | extension/src/kernel-client.js:250-271 | a snapshot is taken exactly when it is for this context, not stale, and new or authoritative |
| KernelClient.Client.HandleUpdate | extension/src/kernel-client.js:282-339 | updates and rollbacks of this context, and newer approvals of other contexts, change the three fields as the specification says |
| KernelClient.Client.BeginEffect | extension/src/kernel-client.js:341-349 | a page effect of this context runs on its tentative state, and the state before is kept |
| KernelClient.Client.EndEffect | extension/src/kernel-client.js:350-368 | a failed effect puts that state back whatever came meanwhile; a successful one changes nothing |
| KernelClient.RunSent | extension/src/kernel-host.js:937-998 | what the host sends is known to the stores, never ahead of them, and in order of revisions |
| KernelClient.FailedEffectExactly | extension/src/kernel-client.js:341-368 | after a failed effect the client holds the approvals of the envelope of its revision exactly when those are the approvals of the revision at which the effect began |
| KernelTentative.QuietRestores | extension/src/kernel-client.js:341-368 | this is so when no snapshot was taken between the beginning and the failure of that effect, whatever other effects began or ended |
| KernelClient.CacheCoherent | extension/src/kernel-client.js:250-368 | under any loss, duplication or reordering, a client whose state is not tentative holds at every moment the approvals of the stored envelope of its revision, exactly when every failed effect meets that condition |
| KernelTentative.LateFailureStale | extension/src/kernel-client.js:341-355 | a run of the host sends in order the messages with which a page attaches, runs an effect, hears of another page's installed app and then sees its effect fail; it holds the older approvals at the newer revision, and refuses ordinary snapshots there |
| KernelClient.ApprovalsByRevision | extension/src/kernel-client.js:250-271 | the approvals that a coherent client holds are those of every stored envelope of its revision |
| KernelClient.FifoMonotone | extension/src/kernel-client.js:282-368 | under in-order delivery a client's revisions never decrease, rollbacks included |
| Worlds.AdvanceMoves | extension/src/github-worlds.js:190-271 | a step that reports nothing moves what it finds from what is still to come to the results; every step uses up some of the measure |
| Worlds.StepKeeps | extension/src/github-worlds.js:190-271 | every step of every visit keeps the limits on projects and touchpoints and the balance of results and what is to come |
| Worlds.RunsAreBounded | extension/src/github-worlds.js:190-271 | under every interleaving, on every graph, the steps run out and the limits on projects and touchpoints hold |
| Worlds.CompleteIsExact | extension/src/github-worlds.js:273-284 | a resolution that ends without a diagnostic has, as multisets, exactly the layers and touchpoints of the unfolding of the whole import graph, with path ids and transform chains |
| Worlds.ResolveWorldGraph | extension/src/github-worlds.js:178-285 | the resolver terminates under any schedule and any failures, keeps the limits, and is exact when complete |
| WorldsComplete.NoReturn | extension/src/github-worlds.js:196-199 | in a graph with bounded import paths no path returns to where it started |
| WorldsComplete.SmallIsComplete | extension/src/github-worlds.js:190-271 | a graph that unfolds to its end within the limits is resolved without a diagnostic under every interleaving, if the network answers |
| WorldsLayers.PastLimit | extension/src/github-worlds.js:214-235 | a step goes past 64 layers exactly when it takes a layer whose metadata was awaited while there are 64 or more |
| WorldsLayers.OverrunShows | extension/src/github-worlds.js:190-271 | on any graph, a run past 64 layers shows a streamed layer with room above it and enough layers beside it |
| WorldsOverrun.OverrunHappens | extension/src/github-worlds.js:190-271 | from such a layer, on every graph whose reachable worlds keep the limit on projects, a schedule from the start that takes 65 layers |
| WorldsOverrun.PassedExactly | extension/src/github-worlds.js:190-235 | so on every such graph, with cycles, broken imports and paths that are too deep, some run takes more than 64 exactly when there is such a layer, whether or not the network may fail |
| WorldsOverrun.LayersLimited | extension/src/github-worlds.js:214-235 | on any graph without streamed layers the limit on layers holds under every interleaving |
| WorldsOverrun.CrowdedPasses | extension/src/github-worlds.js:214-235 | a world with 63 layers that imports two with one streamed layer each can end with 65 |
| Chats.Walk.Visit | extension/src/chats-store.js:107-118 | the walk terminates, marks only rooted messages as seen, and fails only on a message that is its own ancestor |
| Chats.CycleUnrooted | extension/src/chats-store.js:110-118 | a message on a cycle has no root |
| Chats.CheckMessages | extension/src/chats-store.js:100-119 | the four verdicts: duplicate, dangling and cycle exactly when there is one, accepted exactly when every parent chain ends at a root |
| Monitor.FindLastOpen | extension/src/tahto-monitor.js:75-76 | the search from the end finds the last open incident |
| Monitor.ApplySample | extension/src/tahto-monitor.js:67-98 | one check, with its loops over samples and a copied list of incidents, as a function of the stored record |
| Monitor.MonitorRecords.Record | extension/src/tahto-monitor.js:124-147 | after any checks of any origins each stored record is the fold of that origin's samples |
| Monitor.RecordTells | extension/src/tahto-monitor.js:67-98 | at any times, the failure count is the length of the last run of failures; at most one incident is open, it is last and never trimmed; one is open exactly when two adjacent samples failed with no ready sample after the second, and it dates from the first such; every closed one lasted from the first sign of some trouble to the first ready sample after it |
| MonitorWindow.TrimTwice | extension/src/tahto-monitor.js:69-71 | trimming a trimmed list by a later cutoff is trimming the full list by it |
| MonitorWindow.SamplesExact | extension/src/tahto-monitor.js:67-71 | with a clock that does not go back, the stored samples are the last 2016 of the whole history within seven days |
| MonitorWindow.AllTell | extension/src/tahto-monitor.js:74-86 | the untrimmed list has a closed incident for each trouble that ended, with its opening and closing samples, and an open one exactly if the node is down |
| MonitorWindow.TouchTrimmed | extension/src/tahto-monitor.js:74-97 | opening or closing an incident before or after trimming comes to the same |
| MonitorWindow.IncidentsExact | extension/src/tahto-monitor.js:74-97 | and the stored incidents are the last 256 of all incidents ever that are open or young enough |
| BackupService.DailyRetention | extension/src/fabric-backup.js:84-93 | for any list the loop returns the first backup of each day in the order of the text, 30 days at most; when on this list text and instants agree and instants are distinct, this is the newest backup of each of the 30 newest days not after the reading, newest first |
| BackupService.TextOrders | extension/src/fabric-backup.js:84-93 | they agree for timestamps that toISOString has printed, under a comparator that looks at the text alone |
| Retention.RetentionUnique | extension/src/fabric-backup.js:84-93 | there is one such list |
| Retention.RetentionIdempotent | extension/src/fabric-backup.js:84-93 | retaining what was retained changes nothing |
| Retention.RetentionIncremental | extension/src/fabric-backup.js:84-93 | retaining a new backup with what was kept is retaining it with everything |
| BackupService.BackUp | extension/src/fabric-backup.js:118-134 | for any clock and ids, what a run returns and leaves; when the clock does not go back, the id is new and text and instants agree on the backups made so far, a backup is stored exactly when none of that day was ever stored, and what is left is what one pass over all of them would keep |
| BackupService.RunsKeep | extension/src/fabric-backup.js:118-134 | after any number of runs under a clock that does not go back, with ids of their own and the comparator on the text, the store holds exactly what one pass over all backups ever made would keep |
| BackupService.Transport.Retain | extension/src/fabric-backup.js:131-132 | only the backups with the listed ids are left |
| Sessions.HandledFollows | extension/src/chatgpt-provider-runtime.js:564-635 | a handled page event never lowers the rank, never reopens a terminal session, and writes the result only from the reviewed candidate |
| Sessions.EvolvesKeeps | extension/src/chatgpt-provider-runtime.js:367-372 | any change that lets each stored session go on as it may, and activates none, keeps one session per request and, where it holds, one active session per tab |
| Sessions.TerminalExactly | extension/src/chatgpt-provider-runtime.js:564-635 | of all events a terminal session accepts only a dismissed one, of its own page and storable, which cancels it and keeps its output |
| Sessions.RunReaches | extension/src/chatgpt-provider-runtime.js:324-338 | over a whole run no session disappears or loses rank, terminal stays terminal, and a result stays as it is |
| Sessions.WrittenOnce | extension/src/chatgpt-provider-runtime.js:607-633 | a result is written at most once in a run, from the candidate of a ready session, with its digest |
| Sessions.CreateKeeps | extension/src/chatgpt-provider-runtime.js:455-501 | a new session for a request not seen keeps one session per request, and one active session per tab exactly when its tab is not busy |
| SessionCalls.PerformsKeeps | extension/src/chatgpt-provider-runtime.js:455-636 | every call keeps the invariant and lets each session go on as it may, and keeps one active session per tab exactly unless it creates one on a newly opened tab whose id is busy |
| SessionCalls.RunEvolves | extension/src/chatgpt-provider-runtime.js:455-636 | so along every run of calls sessions evolve, and RunReaches and WrittenOnce apply |
| SessionCalls.TabsExactly | extension/src/chatgpt-provider-runtime.js:437-453 | along a run there is at most one active session per tab throughout exactly when no call takes a newly opened tab whose id is busy |
| SessionCalls.TabShared | extension/src/chatgpt-provider-runtime.js:437-453 | two calls after which two active sessions have one tab |
| SessionCalls.TerminalKept | extension/src/chatgpt-provider-runtime.js:548-636 | between two states of a run a terminal session keeps its phase exactly when no page dismisses it while it is not cancelled, and otherwise it is cancelled |
| SessionCalls.ReturnedThenCancelled | extension/src/chatgpt-provider-runtime.js:607-635 | five calls after which a returned session is cancelled |
| SessionRuntime.ProviderRuntime.Create | extension/src/chatgpt-provider-runtime.js:455-501 | a known request is replayed or refused; another gets a session on the first free tab or on a new one, whatever the new one's id; expiry comes first |
| SessionRuntime.ProviderRuntime.Expire | extension/src/chatgpt-provider-runtime.js:324-348 | reading with expiry expires exactly the active sessions that are due |
| SessionRuntime.ProviderRuntime.Read | extension/src/chatgpt-provider-runtime.js:508-511 | reading one session expires it if it is due, and no other |
| SessionRuntime.ProviderRuntime.Cancel | extension/src/chatgpt-provider-runtime.js:518-536 | cancelling ends an active session and leaves a terminal one as it is |
| SessionRuntime.ProviderRuntime.CancelRequest | extension/src/chatgpt-provider-runtime.js:538-541 | the same by request id, after expiry of all |
| SessionRuntime.ProviderRuntime.Disable | extension/src/chatgpt-provider-runtime.js:421-434 | disabling cancels every active session and no other |
| SessionRuntime.ProviderRuntime.Hello | extension/src/chatgpt-provider-runtime.js:543-564 | a page gets an active session of its tab, of several one that was updated last, which becomes attached if it was just created, or none |
| SessionRuntime.ProviderRuntime.HandleEvent | extension/src/chatgpt-provider-runtime.js:565-636 | an event changes one session as its state and binding allow, or nothing; the latest ready event is what an output must equal |
| Sorting.SortUnique | extension/src/identity-migration.js:254-254 | sorting any arrangement of a list with distinct keys gives the one ordered list |

## Left out

- Web Crypto and IndexedDB: hash, signing, verification and key pairing are function parameters, and transactions are all or nothing with a flag for failure.
- Hara, the HAL virtual machine, EDN, zip, fetch, Chrome permissions, tabs and messaging: their answers are parameters or arbitrary choices of a step.
- User interface code, request and manifest validators, network clients and inventory scripts: single-branch checks on which none of the properties depends.
- KernelInvariant.RunDurable: loads of refused operations and of checks outside the queue are in KernelLate; what is proved of effects and clients is for runs without their writes.
- KernelEffects.AtMostOnce: receipts are kept for 128 commits, so a second attempt after that window is possible and is not excluded.
- KernelClient.CacheCoherent: it speaks of approvals; the grants and the state of the session itself follow the same messages and are not claimed to be current.
- Json: numbers are carried by the numeral that is printed for them; undefined, NaN and negative zero are not values.
- HalScanner: sources are strings of Unicode scalar values, without lone surrogates; error messages and their order are not modelled.
- HalRegistry.ModuleRuntime.Commit: a transaction prepared before another commit may still be committed, as in the code; nothing is claimed of which module is then the newest.
- Migration: records with unknown or missing fields are not representable, so neither is an absent public key, which includeAction and the verifiers refuse.
- MigrationRun.PersonalDatabase.Migrate: the comparison of an exported key's coordinates and the signed challenge are both the one question whether the key belongs to the identity; that a key which passes the challenge does belong to it is assumed here and nowhere else.
- Migration: a payload of the shape of a migration record is represented as one.
- Recording.SettledForGood: ids of new records are taken to be unused; signed actions retained from elsewhere are not covered.
- Outbox: the server is a set of records that stores a whole batch or none of it; restoring a backup over the outbox is not modelled.
- Worlds.CompleteIsExact: identities are owner, repository and commit; the permitted forms of repository addresses and strict mode are in the parameter that maps an import to its target.
- WorldsOverrun.PassedExactly: graphs on which more than 24 worlds can be reached are not covered, since which visits are then refused depends on the schedule. Visits may interleave between any two layers here, and in the code only at an await; the schedule that is built stays with one visit between its awaits until the room is filled.
- Retention: what is said of newest backups and newest days is for distinct instants and timestamps that compare as text in the order of their instants, as canonical ones do.
- BackupService.BackUp: sealing, opening and restoring backups are left out; the transport adds what is put and keeps what is listed.
- Monitor.MonitorRecords.Record: the record of an origin is read and written back in one step; the code awaits in between, so two checks of one origin under way at once are not covered.
- Monitor: classification of inspections and the fields that a sample merely carries are left out.
- Sessions: every call is atomic, and normalization of requests and messages has been done.
- Chats: only ids and parents of messages are modelled; the active path and the text fields have checks of one branch.
