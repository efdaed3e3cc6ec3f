# GoalRouter verification model

GoalRouter runs a goal as a plan of work items. A planner's answer is validated
into a dependency graph, every item is routed to a model, items are dispatched
to a coding agent when their dependencies have SUCCEEDED and their approval is
in force, and every result is checkpointed in `state.json` before it is
announced in `events.jsonl`. Several processes may plan, run, approve, resume
and report on the same runs, each under a kernel lease, and any of them may
stop at any moment. This project models that engine, and the code around it
that decides ownership and evidence, in Dafny.

`dafny verify dfyconfig.toml` checks everything.

## How it is built

The run engine is there in two layers.

* **One process, step by step, as code.** `Storage`, `Scheduler`, `Application`
  and `Planner` are classes whose methods follow the Python methods statement
  by statement, over mutable state. The Codex client, the clock, the file
  system and the lease calls are oracles that may answer anything, or fail.
  Every method also returns the trace of actions it performed and is proved to
  be a legal trace of the machine in `Process`.
* **Any number of processes.** `Process` gives the actions of one process on
  one run, `Cluster` the interleavings of any number of processes over any
  number of runs, with a step in which a process vanishes enabled everywhere.
  `Safety` proves that each action keeps the invariant, `Approvals` that each
  keeps the audit trail sound, and `ClusterSafety` draws the conclusions for
  every reachable cluster. `OwnActionsAreLegal` and `LegalTracesHappen` tie the
  two layers together. `LateWrites` widens the cluster by file operations that
  outlive the command they belong to, `LateEvents` has those that do no harm, and
  `LateExample` runs one that does.

Pure facts about the data are in `Domain`, `Ordering`, `Graph`, `Rules` and
`Progress`; what a completed run means is in `Liveness`. Serialization is in
`FieldNames`, `Codec`, `Redaction` and `SecretPolicy`, the approval hash in
`Fingerprints`, the system calls behind a save in `AtomicWrite`. Leases are in
`Descriptors`, `Cancellation` and `Leases`; the evidence of the worktree in
`GitEvidence`, `Worktree` and `DirtyPaths`; policies in `Routing` and
`PolicyRuns`; report escaping in `Display`.

## What is taken as given

* `Platform` stands for what the engine does not decide itself: which keys and
  texts are secret, the fingerprint of a payload, what a time stamp is, which
  text is blank, the directory a project path resolves to. `ValidPlatform` and
  `CleanNames` collect the laws used; `SecretPolicy.PolicyValid` proves them of
  the store's real rule, for any case folding that agrees with ASCII.
* `Injective` says that different approval payloads have different
  fingerprints. `Fingerprints.FingerprintsInjective` reduces it to: printed
  JSON can be parsed again, and the hash has no collisions.
* Redaction also runs over identifiers. A plan whose item is called `secret`
  can be saved and never loaded (`SecretPolicy.SecretIdNeverLoads`), and an
  approval outlives a save exactly if nothing it is bound to is redacted
  (`Approvals.ApprovalLasts`). The engine's theorems therefore start from runs
  whose identifiers are not secret-shaped (`CleanRaw`, `IdentitiesClean`).
* A run identifier that a process creates is that of its lease, and two
  processes that name the same physical directory contend for the same lease.
* The store writes in threads that a cancelled command does not wait for
  (json_store.py:41-84), so a write can land after its run lease was given up.
  The moves of `Cluster` do not include that. With it results can be lost: a
  process loads a run and is cancelled as it saves it, another takes up the run
  and saves a result, and then the first save lands (`LateExample.ResultLost`).
  `LateWrites.HarmlessExactly` says when a late save does no harm to items and
  results, and `LateWrites.PromptWritesKeepOrder` that everything proved of the
  cluster stays true, approvals included, while such writes land before anybody
  takes up the run again. Late events and late first snapshots do no harm.
* A call ends with an error only if something around it failed: `troubles` in
  the store counts failed calls and leases held elsewhere, and every method
  states that it succeeds exactly if there were none, apart from the reasons
  that its own contract names (a plan that is refused, a change of configuration
  that is not acknowledged, an item without a route). Liveness follows for every
  call that meets no trouble and whose turns succeed.
* The fixed bound on rounds and on blocking: one call of `run_ready` advances
  blocking by one level of dependencies and stops when nothing is ready, so it
  may leave transitive dependents of a failure pending. What is true is proved:
  each call makes that set smaller, and as many calls as there are items empty
  it.

## Model

| member | source | states |
|---|---|---|
| ClusterSafety.OneWriterPerProject | src/goalrouter/scheduler.py:82-96 | over all processes and runs, two `workspace-write` turns in flight on the same physical project are the same turn of the same process |
| ClusterSafety.TurnsWithinLimits | src/goalrouter/scheduler.py:82-100 | within a run a writer in flight is alone, otherwise at most `max_read_concurrency` readers are, and all of them have only SUCCEEDED dependencies |
| ClusterSafety.SnapshotsKeepResults | src/goalrouter/scheduler.py:196-207 | whatever any process does after a snapshot was saved, or wherever one stops with no write under way, every later snapshot has its items and its terminal results unchanged |
| ClusterSafety.EventsFollowSnapshots | src/goalrouter/scheduler.py:196-207 | a terminal `work-item-finished` event is in the log at most once for each item, and tells a status that is already in `state.json` |
| ClusterSafety.StatusReadsAreSnapshots | src/goalrouter/application.py:262-265 | an unleased status read sees one whole saved snapshot, and later reads miss no terminal result of it |
| ClusterSafety.HistoryGrows | src/goalrouter/storage/json_store.py:126-140 | no move of any process takes back a saved snapshot, an event or an audit entry |
| ClusterSafety.ResultsHaveReasons | src/goalrouter/scheduler.py:108-133 | on disk, SUCCEEDED and FAILED items have all dependencies SUCCEEDED, BLOCKED items a FAILED or BLOCKED dependency; items on or below a cycle and below a failure are at most BLOCKED |
| ClusterSafety.StartsAreSafe | src/goalrouter/scheduler.py:119-133 | a turn starts only for an authorized item without a result anywhere, whose dependencies succeeded, neither on or below a cycle nor below a failure |
| ClusterSafety.DispatchesAreApproved | src/goalrouter/approvals.py:18-78 | in every history a dispatch that requires approval is preceded by an approval of exactly that item, route and configuration digest, with no adoption in between |
| ClusterSafety.CompletionAppendedOnce | src/goalrouter/application.py:276-283 | the completion item can be appended only to a run none of whose snapshots ever had it |
| ClusterSafety.LeasesAreExclusive | src/goalrouter/locking.py:53-80 | a run belongs to at most one process, and the kernel's project leases are those that living processes hold |
| ClusterSafety.OthersDoNotInterfere | src/goalrouter/locking.py:66-80 | no move of another process changes what a process under its run lease sees |
| ClusterSafety.OwnActionsAreLegal | src/goalrouter/application.py:262-287 | in any interleaving, what one process does is a legal trace of the one-process machine |
| ClusterSafety.LegalTracesHappen | src/goalrouter/application.py:262-287 | every legal trace of one process can happen in the cluster while nobody else holds the project lease it takes |
| Cluster.ReachableOk | src/goalrouter/locking.py:84-113 | every cluster that any moves, crashes included, lead to keeps the global invariant |
| LateWrites.PromptWritesKeepOrder | src/goalrouter/storage/json_store.py:41-84 | if writes that a cancelled command left behind land before the run is taken up again, the whole invariant of the cluster, approvals included, survives any interleaving |
| LateWrites.HarmlessExactly | src/goalrouter/storage/json_store.py:70-76 | a save that lands after its lease was given up costs no item and no result, whatever happens next, exactly if it has all that is on disk by now and the run's present owner has all that it brings |
| LateWrites.PromptIsCurrent | src/goalrouter/storage/json_store.py:70-76 | a save that lands before anybody takes up the run again meets that condition |
| LateExample.Overtaken | src/goalrouter/storage/json_store.py:70-76 | a late save that lands after another process took up the run and recorded a result removes that result |
| LateExample.ResultLost | src/goalrouter/storage/json_store.py:70-76 | such a history, move by move, for a run of one reader |
| LateEvents.LateEventsHarmless | src/goalrouter/storage/json_store.py:78-84 | an event of an abandoned step keeps the invariant whenever it lands: nobody else can announce the item |
| LateEvents.LateCreationHarmless | src/goalrouter/storage/json_store.py:41-47 | the first snapshot of an abandoned creation keeps the invariant whenever it lands: nobody can use the directory before |
| Safety.StepKeeps | src/goalrouter/scheduler.py:63-106 | every action of a process keeps memory ahead of disk, results explained, turns within limits and events behind snapshots |
| Safety.BatchReady | src/goalrouter/scheduler.py:82-100 | the next batch is one ready writer, or distinct ready readers within the limit and no writer is ready |
| Approvals.AuditKeeps | src/goalrouter/approvals.py:18-67 | every action keeps each recorded approval backed by an approval in the audit trail that no adoption has overtaken |
| Approvals.ApprovalSurvives | src/goalrouter/approvals.py:44-67 | an approval recorded on a loaded state still authorizes the item after the state is saved |
| Approvals.ApprovalLasts | src/goalrouter/application.py:220-231 | after any number of saves an approval authorizes its item exactly if the route needs none or nothing the approval is bound to was redacted |
| Approvals.SavedOnceOrOften | src/goalrouter/storage/json_store.py:126-130 | saving and loading any number of times is saving once |
| Fingerprints.PayloadsDiffer | src/goalrouter/approvals.py:70-78 | different configuration digests, routes or items have different canonical JSON values |
| Fingerprints.FingerprintsInjective | src/goalrouter/approvals.py:70-78 | the fingerprint determines its payload if printing is invertible and the hash has no collisions |
| Storage.RunStore.Save | src/goalrouter/storage/json_store.py:126-130 | a save replaces the snapshot by the redacted state or leaves all as it was, and fails exactly if the file system did |
| Storage.RunState.Approve | src/goalrouter/approvals.py:18-42 | an aware time, a nonblank identity and a known, routed item give exactly the bound record, which authorizes the item; anything else changes nothing |
| Storage.RunState.RequireDispatchable | src/goalrouter/approvals.py:44-67 | succeeds exactly if the item's route is automatic or its record matches run, digest and fingerprint |
| Progress.ExplainedItem | src/goalrouter/scheduler.py:108-133 | if results can be ordered so that each was justified when it came, each is justified by the final state as well |
| Progress.ResultExplained | src/goalrouter/scheduler.py:196-197 | recording a result of a dispatched or newly blocked item keeps all results explained |
| Progress.CyclicNeverRuns | src/goalrouter/scheduler.py:119-133 | on or downstream of a cycle dependencies never all succeed, so such an item is never dispatched even if the cycle check were bypassed |
| Progress.BelowFailureNeverRuns | src/goalrouter/scheduler.py:108-133 | a transitive dependent of a FAILED or BLOCKED item is never dispatched |
| Progress.PassShrinks | src/goalrouter/scheduler.py:66-80 | one call of `run_ready` strictly shrinks the set of unresolved transitive dependents of a failed item unless it is empty |
| Progress.EventuallyBlocked | src/goalrouter/scheduler.py:108-117 | after as many calls as there are items every transitive dependent of a failed item is BLOCKED |
| Progress.SomethingRunnable | src/goalrouter/scheduler.py:119-133 | in an acyclic run without failures, pending work includes an item whose dependencies all succeeded |
| Rules.CompletedExactly | src/goalrouter/scheduler.py:209-225 | comparing lengths is enough: COMPLETED means every item has a SUCCEEDED result |
| Rules.NothingReadyMeansDone | src/goalrouter/scheduler.py:209-225 | an acyclic, authorized run without failures in which nothing is dispatchable has succeeded altogether |
| Scheduler.PendingItems | src/goalrouter/scheduler.py:228-234 | exactly the items without a terminal result, in identifier order |
| Scheduler.NewlyBlockedItems | src/goalrouter/scheduler.py:108-117 | exactly the pending items with a FAILED or BLOCKED dependency, in identifier order |
| Scheduler.Dispatchable | src/goalrouter/scheduler.py:119-133 | exactly the pending, authorized items whose dependencies succeeded, in identifier order |
| Scheduler.WorkScheduler.PersistResult | src/goalrouter/scheduler.py:196-207 | a result is recorded, saved and announced in this order, and nothing else changes |
| Scheduler.WorkScheduler.RunOne | src/goalrouter/scheduler.py:135-143 | one turn is sent for the item as it stands, and its result carries the item's identifier whatever the client answered |
| Scheduler.WorkScheduler.RunReadBatch | src/goalrouter/scheduler.py:145-176 | every reader of a batch gets exactly one result, in batch order, however the turns end or are cancelled |
| Scheduler.WorkScheduler.RunWriter | src/goalrouter/scheduler.py:82-96 | one writer runs under the project lease, which is not held when the call ends, with or without an error; a terminal turn leaves fewer unfinished items |
| Scheduler.WorkScheduler.RunReady | src/goalrouter/scheduler.py:63-106 | a call that returns performed a legal trace, kept terminal results, blocked what had a failing dependency, set the final status, and, if every turn was terminal, left nothing dispatchable: as many rounds as items are enough for any graph; it returns unless the store failed or the project was busy |
| Liveness.LegalNeverFails | src/goalrouter/scheduler.py:63-106 | while every turn succeeds no item fails and none is blocked |
| Liveness.CompletionKeepsAcyclic | src/goalrouter/application.py:382-404 | the completion item, depending on everything, keeps the plan closed and acyclic |
| Liveness.CompletedMeansReviewed | src/goalrouter/application.py:274-287 | an objective run is COMPLETED after `_continue` only if every item and the completion review SUCCEEDED |
| Liveness.ContinueCompletes | src/goalrouter/application.py:274-287 | an acyclic plan with everything authorized in which nothing fails ends COMPLETED and reviewed, whether the review is still to be appended or is in the plan already, approved or interrupted |
| Application.Coordinator.Continue | src/goalrouter/application.py:274-287 | the call is a legal trace; its result is what one or two passes and the review make of the state; it returns normally if nothing around it failed and the review has a route, and if then every turn succeeds an authorized acyclic plan ends COMPLETED |
| Application.Coordinator.AppendReview | src/goalrouter/application.py:276-283 | the review joins the plan, saved and announced before it may run |
| Application.Coordinator.Approve | src/goalrouter/application.py:211-239 | without trouble an approval succeeds exactly for a known item under the current digest, by somebody, at an aware time; what is then on disk authorizes the item; a refused one changes no file |
| Application.Coordinator.AdoptCurrentConfiguration | src/goalrouter/application.py:346-356 | exactly the unfinished items are routed anew, the digest is replaced and every approval is dropped; it fails only if one of them has no route |
| Application.Coordinator.OpenRun | src/goalrouter/storage/json_store.py:49-68 | what is loaded is what is on disk, it is already redacted, and an unacknowledged change of configuration is refused |
| Application.Coordinator.Resume | src/goalrouter/application.py:241-260 | a changed configuration is adopted only when acknowledged; then as for `_continue`, for runs whose review is in the plan as well; without trouble it returns normally for every run that can be loaded and routed; a busy or unacknowledged call changes no file |
| Application.Coordinator.PlanObjective | src/goalrouter/application.py:100-147 | exactly the valid plans become a run: all items of the answer, routed, closed and acyclic; a rejected plan leaves no file; without trouble every valid plan with routes becomes a run |
| Application.Coordinator.RunObjective | src/goalrouter/application.py:193-209 | without trouble every valid plan with routes runs, and a nonempty one with automatic routes whose turns all succeed ends COMPLETED and reviewed |
| Application.Coordinator.RunTask | src/goalrouter/application.py:150-190 | one explicit item with the access its route's sandbox gives; COMPLETED exactly if it SUCCEEDED; it returns normally if nothing around it failed |
| Application.Coordinator.Report | src/goalrouter/application.py:267-272 | the report is rendered from the snapshot on disk, nothing else is written, and it fails only if something around it did |
| Planner.RejectCycles | src/goalrouter/planner.py:219-236 | terminates on every closed graph and accepts exactly the acyclic ones; the order of entering `visited` is topological; a rejected identifier is on a real cycle |
| Planner.CycleCheck.Visit | src/goalrouter/planner.py:224-233 | visiting an identifier puts it and all it depends on into `visited` in dependency order, or finds a cycle through the named identifier |
| Planner.ParseSemanticWorkItems | src/goalrouter/planner.py:163-216 | accepts exactly the plans with distinct identifiers, known tasks, sound paths, verification where it is due, known dependencies and no cycle; every reported error really occurs |
| Graph.TopologicalIsAcyclic | src/goalrouter/planner.py:219-236 | a graph with a topological order has no cycle |
| Plans.PlanCanRun | src/goalrouter/application.py:117-147 | the first snapshot of an accepted plan is closed and acyclic with nothing failed, and ready to run through if its routes are automatic |
| Codec.SaveThenLoad | src/goalrouter/domain.py:483-533 | loading what was saved gives the redacted state, exactly if no map key of the state names a secret; otherwise it cannot be loaded |
| Codec.CyclesAreOne | src/goalrouter/storage/json_store.py:107-130 | one cycle of saving and loading gives the redacted state and every later cycle is the identity |
| Codec.ItemLoads | src/goalrouter/domain.py:248-291 | a redacted work item is decoded as the item with its texts redacted |
| Codec.RouteLoads | src/goalrouter/domain.py:312-345 | the same for a route decision |
| Codec.ResultLoads | src/goalrouter/domain.py:368-411 | the same for a work result, with its SDK items |
| Codec.ApprovalLoads | src/goalrouter/domain.py:425-444 | the same for an approval record whose time stamp is aware |
| FieldNames.NamesDiffer | src/goalrouter/domain.py:248-262 | no two fields of the format have the same name |
| Redaction.RedactJsonIdempotent | src/goalrouter/storage/json_store.py:150-166 | redacting a redacted value changes nothing |
| Redaction.PersistedIdempotent | src/goalrouter/storage/json_store.py:126-130 | saving a loaded state writes what was loaded |
| Redaction.PersistedKeepsProgress | src/goalrouter/storage/json_store.py:150-166 | with clean identities a save keeps identifiers, dependencies and statuses |
| SecretPolicy.PolicyValid | src/goalrouter/storage/json_store.py:19-31 | the ten secret keys and two secret shapes hit no field name, enumeration value, hash, time stamp, placeholder or reserved identifier |
| SecretPolicy.SecretIdNeverLoads | src/goalrouter/storage/json_store.py:150-166 | a run with an item called `secret` cannot be loaded after it was saved |
| AtomicWrite.Directory.AtomicWriteText | src/goalrouter/storage/json_store.py:174-194 | at every instant the target holds all of its old or all of its synced new content and changes once; success means new and nothing else changed, failure means old |
| AtomicWrite.Directory.SaveState | src/goalrouter/storage/json_store.py:126-130 | wherever the process stops, a reader loads the previous state or all of the new one, and the new one once the call has succeeded |
| AtomicWrite.Directory.CreateRun | src/goalrouter/storage/json_store.py:100-105 | the first state appears whole, and only after the event log, whichever of the two writes fails |
| AtomicWrite.Directory.AppendLine | src/goalrouter/storage/json_store.py:132-140 | the log only ever grows by a prefix of the line, and by all of it, synced, on success |
| AtomicWrite.PrintedLoads | src/goalrouter/storage/json_store.py:107-124 | what a save prints loads as the redacted state, or as a corrupt one exactly if a key names a secret |
| Cancellation.WaitForOwnedTask | src/goalrouter/async_tools.py:10-36 | the counts in the recorded cancellations sum to the increase of the owner's counter; the operation is over unless a request was left undelivered before the wait and no other joined it |
| Cancellation.PrepareCancellation | src/goalrouter/async_tools.py:39-54 | the first cancellation with the message and the notes of all others, in order |
| Cancellation.NoRequestLost | src/goalrouter/async_tools.py:39-54 | the combined error stands for as many requests as all the recorded ones |
| Descriptors.Kernel.CloseAll | src/goalrouter/locking.py:306-316 | every descriptor is closed once, the last first, whatever fails, and a failure is reported exactly if there was one |
| Descriptors.ReversedOnce | src/goalrouter/locking.py:306-316 | closing in reverse attempts each distinct descriptor exactly once |
| Leases.OpenPrivateDirectory | src/goalrouter/locking.py:285-303 | leaves exactly the returned descriptor open, or none exactly if a call failed |
| Leases.OpenRunLock | src/goalrouter/locking.py:223-282 | leaves exactly the returned descriptor open on success and none otherwise, each of its own closed once; refused exactly if a call failed or the path is no regular file |
| Leases.AcquireDescriptor | src/goalrouter/locking.py:175-193 | the returned descriptor is open and locked and nothing else was left open; busy exactly if the lock was held elsewhere |
| Leases.ReleaseDescriptor | src/goalrouter/locking.py:196-210 | the descriptor is closed exactly once even if unlocking it fails, and every failure is reported |
| Leases.ReleaseCancellationSafe | src/goalrouter/locking.py:155-172 | the descriptor is closed before the call returns, and the raised cancellation stands for every request made meanwhile |
| Leases.AcquireCancellationSafe | src/goalrouter/locking.py:117-152 | a descriptor is returned exactly if nothing failed and nothing was requested; otherwise none stays open and the error stands for every request, those during cleanup included |
| Leases.ExclusiveLease | src/goalrouter/locking.py:84-113 | the body is entered only with a held descriptor and with no cancellation requested since the call began; its descriptor has been closed once when the context is left exactly if the wait for the release was not abandoned to a request left by the body; no other descriptor stays open |
| Leases.AbandonmentHappens | src/goalrouter/async_tools.py:19-27 | that wait can be abandoned, but only if a request was left undelivered |
| GitEvidence.RecordsInvert | src/goalrouter/repository.py:791-801 | splitting accepts exactly terminated lists of nonempty NUL-free records and undoes the terminating |
| GitEvidence.ParsedPath | src/goalrouter/repository.py:804-812 | an accepted path is normalised, relative, free of parent components, and accepted as itself |
| GitEvidence.PartsOfText | src/goalrouter/repository.py:804-812 | the text of a normalised path determines its components |
| GitEvidence.ParseIndexEntries | src/goalrouter/repository.py:726-754 | the loop computes the fold over the records, with the first error there is |
| GitEvidence.ParseTreeEntries | src/goalrouter/repository.py:757-778 | the same for HEAD, with its duplicate-path error |
| GitEvidence.IndexRoundTrip | src/goalrouter/repository.py:726-754 | parsing the canonical printing of any valid index gives it back, whatever tabs, spaces and newlines its paths hold |
| GitEvidence.AcceptedIndex | src/goalrouter/repository.py:726-754 | whatever is accepted is a valid index: consistent tags and stages, allowed modes, one object format, safe paths |
| GitEvidence.TreeRoundTrip | src/goalrouter/repository.py:757-778 | parsing the canonical printing of any valid tree gives it back |
| GitEvidence.AcceptedTree | src/goalrouter/repository.py:757-778 | whatever is accepted is a valid tree with distinct paths |
| GitEvidence.PathsRoundTrip | src/goalrouter/repository.py:781-788 | distinct safe paths are read back from their printing |
| GitEvidence.AcceptedPaths | src/goalrouter/repository.py:781-788 | whatever is accepted is a list of distinct safe paths |
| Worktree.OpenWorktreeEntry | src/goalrouter/repository.py:979-1101 | what stays open is what the returned entry owns, nothing on failure; on a frozen worktree the entry tells what is there, and only an unsafe path is refused |
| Worktree.ValidateOpened | src/goalrouter/repository.py:1125-1152 | true exactly if every recorded directory, the file and its name were looked at again, in order, and all are as recorded |
| Worktree.CompareWorktreeBatch | src/goalrouter/repository.py:881-961 | every opened descriptor is closed once for every pattern of failing calls; on a frozen worktree the result is exactly the entries that differ |
| DirtyPaths.CollectDirtyPaths | src/goalrouter/repository.py:828-878 | mixed object formats and conflicting stages are refused exactly when they are there; on a frozen worktree the result is the strictly sorted list of the paths that are dirty by the per-path definition; descriptors are conserved |
| DirtyPaths.ConflictFound | src/goalrouter/repository.py:849-852 | the comparison of one path's stages finds exactly the pairs of entries that clash |
| DirtyPaths.SortOut | src/goalrouter/repository.py:839-866 | grouping and staging give exactly what Git alone makes dirty and the entries whose files must be compared |
| DirtyPaths.OrderIrrelevant | src/goalrouter/repository.py:846-878 | the result does not depend on the order of the index, of HEAD or of the untracked paths |
| Routing.ValidateSemantics | src/goalrouter/config.py:87-134 | accepts exactly the policies with positive distinct ranks and no dangling reference; every reported problem is there |
| Routing.SoundIsAccepted | src/goalrouter/config.py:137-171 | the configuration built from an accepted policy has everything the router looks up |
| Routing.AcceptedIsSound | src/goalrouter/config.py:87-134 | validation asks for no more: a policy with distinct names whose configuration satisfies the router is accepted |
| Routing.SelectTask | src/goalrouter/routing.py:28-71 | explicit before planned before the first matching rule before the default; refused exactly for a task that is not configured |
| Routing.FirstGlobMatch | src/goalrouter/routing.py:158-168 | the first pattern of the first path that matches, or none exactly if nothing matches |
| Routing.Route | src/goalrouter/routing.py:73-130 | succeeds exactly if everything is configured, and then the alias's rank is the maximum of the rank of the item's task and all active floors |
| Routing.AcceptedRoutes | src/goalrouter/routing.py:73-130 | under an accepted policy every item naming a configured task is routed |
| Routing.RankIsHighest | src/goalrouter/routing.py:81-110 | the chosen alias is that of the routed task or of an active floor, and none of them ranks higher |
| Routing.RuleOrderIrrelevant | src/goalrouter/routing.py:90-100 | apart from the reason text the route does not depend on the order or repetition of rules |
| Routing.FlagsNeverRelax | src/goalrouter/routing.py:84-100 | more risk flags never lower the rank and never lift an approval |
| PolicyRuns.ReviewUnattended | src/goalrouter/application.py:276-283 | completion reviews need no approval exactly if neither the policy of the completion task nor a rule on its own flags demands one |
| PolicyRuns.PlanUnattended | src/goalrouter/application.py:128-134 | a plan needs no approval exactly if no item of it is under a demanding policy or rule |
| Display.DisplayText | src/goalrouter/reporting.py:149-169 | the loop appends the escape of every code point |
| Display.DecodedInverts | src/goalrouter/reporting.py:149-169 | a decoder recovers the text, whatever code points it has |
| Display.Injective | src/goalrouter/reporting.py:149-169 | different texts are displayed differently |
| Display.OutputHarmless | src/goalrouter/reporting.py:149-169 | no control character and no surrogate is displayed |
| Display.UnchangedExactly | src/goalrouter/reporting.py:149-169 | a text is displayed as it is exactly if it holds no backslash, control character or surrogate |

## Left out

- The Codex SDK adapter, authentication, session staging and model inventory: an oracle answers any result or fails.
- Git and hash subprocesses, their output limits and timeouts: Git's output is an input text, the blob hash a function.
- Command line, exit codes, prompts, report layout, YAML loading and JSON Schema validation: schema-valid policies and plans are inputs.
- The internals of `json.dumps`, SHA-256, `datetime`, `casefold`, `fnmatch` and `int()`: used through the laws named above.
- Symlink resolution of affected paths: a parameter of plan validation that contains a path or does not.
- Instruction files, language and Docker discovery, pinning of the repository root: file system walking with little beyond descriptor ownership.
- Python strings with lone surrogates: only `Display` models them; elsewhere text is made of Unicode scalar values.
- Texts and notes of error messages: errors are kinds; only notes about cancellations are kept, because requests are counted in them.
- LateWrites.HarmlessExactly: about items and results; which approvals a late save brings back is covered only for prompt ones.
- A creation abandoned before its directory was made: its later steps are those of a prompt or a refused creation.
- A torn last line of `events.jsonl`: shown in `AtomicWrite`, while the engine's log takes an append as all or nothing.
- Storage.RunStore: the engine's store keeps snapshots as values; `AtomicWrite` and `Codec` prove that files under it behave so.
- Loss of power: only the process stops; that the replaced file was synced before is proved, the order in which directories reach the device is not modelled.
- Leases.ExclusiveLease: when the body ends with a request still undelivered (it cancelled itself, or an interrupt handler cancelled the running command in the body's last synchronous part), the release may not be waited for; that its thread then closes the descriptor later is not followed.
- Leases.AcquireCancellationSafe: with a request left undelivered from before the call the wait may be abandoned, which is reported; what the abandoned thread then opens is not followed.
- Worktree.CompareWorktreeBatch: cancellation is not delivered, because the repository's wrapper drops the result of a cancelled operation.
- Worktree.OpenWorktreeEntry: on a worktree that changes meanwhile only descriptor ownership is claimed.
- DirtyPaths.CollectDirtyPaths: HEAD entries have distinct paths, which the parser of HEAD entries guarantees to its only caller.
- Routing.Route: the reason text of a matching rule is not characterised beyond the phrase and path that were found.
- Routing.SelectTask: a matching rule's task is known to be configured only under an accepted policy.
- Codec.ApprovalLoads: a time stamp without a zone can be written by no operation and is not loaded.
