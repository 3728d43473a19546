# Publication, revocation and graph contracts of knote, verified

knote publishes a knowledge base through a journal that survives crashes, and
gates what may be read from it by an epoch-based revocation protocol. This Dafny
project models those mechanisms and proves what the rest of the system relies on.
`dafny verify dfyconfig.toml` checks all of it.

**Planning and replay** (`Catalog`, `CatalogGuarantees`, `Planner`, `Replay`,
`PlanReplay`, `PlanContents`, `ReplayOutcomes`, `Revocation`, `RevocationReasons`,
`RevocationTotality`). A planner turns a published base and the
desired resources into a canonical list of operations; replay reduces their
results into the next immutable projection. Every plan replays, for every outcome;
success serves exactly what was desired and failure serves nothing. Revocation
selects the least closed superset of the request, selects nothing without a reason,
never strands what it spares, and is plannable under a condition that is stated exactly.

**The journal** (`Journal*`, `ProjectionStore`). The durable state is a record of
maps: plans, runs, receipts, run projections, serving projections and the pointer.
`Journal` gives every store operation as the sequence of atomic actions it performs
and the result it returns; the class `Store.ProjectionStore` performs those actions
one at a time and is proved to perform exactly that sequence. A crash leaves any
prefix. A store is valid while its whole log is guarded: every public operation keeps
it valid and its serving pointer safe, and so is what any prefix of the log leaves.
`JournalSafety` states an inductive invariant together with a guard for every action, `JournalGuards` and `JournalPublication` show that no operation ever
performs an unguarded action, and crash safety and the executor discipline follow
for every history of cut operations. `JournalRecovery`, `JournalCases` and
`JournalCounterexample` say exactly when executing a plan again finishes it, and
`JournalReports` what a reported success means on disk, and `JournalReceipts` what
every receipt stands for.

**Revisions and revocation** (`Revisions`, `RevisionProtocol`, `Reconciler`,
`Canonical`, `GatedRewrites`, `AbandonedRewrites`, `PublishedAccess`). The publication point and the
per-resource epoch gates are classes; the protocol is an interleaved transition system over the same steps, with
arbitrarily many reconcilers, scope refreshers and readers, any of which may give
up at any step. `GatedRewrites` runs it together with the tuple store, written batch
by batch.

**Tuples and caching** (`Tuples`, `ClaimTuples`, `TupleRewrite`, `TupleStore`,
`QueryCache`). The claim tuples of a published catalog, and when it has any; the
delta between two such projections, its greedy batching, what the store holds when
writing stops between batches, and the cache of authorized results with its
tombstones.

**The authorizer** (`AuthorizationModel`, `LocalAuthorizer`, `AuthorizationBounds`).
The relational model in closed form, stratum by stratum, the mutually recursive
evaluator with its incrementally kept claim index, proved equal to it, and what its
answers come to in terms of the tuples.

**Graph contracts** (`ProvenanceCycles`, `GraphContract`, `GraphUpgrade`,
`GraphProjection`, `GraphListing`, `GraphContents`, `Ordering`, `GraphQuery`,
`GraphQueryCompiler`, `QueryMeaning`, `Expansion`, `ExpansionFields`,
`ExpansionPhase`). Cycle detection, the upgrade of graph bindings, the
graph of a published catalog, query compilation and one hop of expansion, each against a
specification of its result and against the validator that follows it.

Most operations are proved equal to a specification function. What such a function
means is stated a second time without it, over the fields of its inputs, in the modules
named `...Contents`, `...Fields`, `...Outcomes`, `...Reasons`, `...Receipts`, `...Bounds`,
`...Meaning` and `...Guarantees`.

## What the proofs found

- Executing a plan again after a crash does not always finish its run, although
  every crash happened inside `Execute`. A run that went stale, and was cut after
  its run projection was written, finds that projection in its way once its base
  does become the serving version: its success then conflicts with the stored
  verdict. `JournalCounterexample.RecoveryFails` is such a history, with two
  interrupted calls, and one more execution leaves a pointer whose owner can
  never be finished short of a rollback. A version already taken by another
  persisted projection blocks a run in the same way.
  `JournalRecovery.RecoveryExact` states exactly when execution finishes, and
  `RecoveryAssured` when it does whatever the executor answers.
- A revocation can be refused although the run continues the base: a chunk with
  dependencies of its own is spared when only its document is revoked, and is then
  left without a parent; and a retired artifact that depends on a resource the base
  had already retired no longer resolves.
  `RevocationTotality.RevocationPlansExactly` shows that nothing else can block it;
  `RevocationMayBeRefused` and `RetiredMayNotResolve` are concrete bases.
- A tuple delta does not always exist: it fails exactly when a retained tuple
  changed its catalog resource ID (`TupleRewrite.ProjectionDelta`).
- An abandoned reconciliation can be followed by a different one that grants the same
  resource. Its delta is computed from the published projection, not from what the
  abandoned writer left, and can leave a claim with two subjects
  (`GatedRewrites.ReplacingAbandonedWrites`); `AbandonedRewrites.OpenGateTwoSubjects`
  is a whole run that ends with such a claim behind an open gate. `WholeExactly` says
  when it does not, a retry of the same delta never does (`RetryFits`), and
  `ReadersSeeDesired` is what readers then see.
- A valid published catalog need not have claim tuples: two serving resources may share
  an authorization object, and an object may not read as a reference of its type.
  Nothing else stands in the way (`ClaimTuples.ProjectCatalogClaimTuples`).
- Expansion also fails on a selected claim that is not properly bound when the
  frontier does not reach it, before it looks at the number of targets
  (`ExpansionPhase.ExpandPhase`).
- A failing invalidator leaves the gates of its transition closed
  (`Revisions.EpochRevocationLifecycle.Prepare`), so a resource can stay denied
  until a later transition grants it.

## Model

| member | source | states |
|---|---|---|
| `CatalogGuarantees.ResourcesBelong` | internal/catalog/planner.go:200-250 | Every resource of a valid projection has its scope, versions and domain, and depends on resources that are there. |
| `CatalogGuarantees.StatesAllowed` | internal/catalog/planner.go:235-245 | A published projection lists only serving, terminal or quarantined resources, another one nothing that serves. |
| `CatalogGuarantees.DocumentsCounted` | internal/catalog/planner.go:246-255 | The serving and revoked documents of a published projection are as many as its snapshot counts. |
| `CatalogGuarantees.ChunksInherit` | internal/catalog/planner.go:282-293 | A serving chunk has a serving document with its authorization object and versions. |
| `CatalogGuarantees.DependenciesServe` | internal/catalog/planner.go:268-281 | A serving resource other than a document or chunk has dependencies, and unless it is an artifact all of them serve. |
| `CatalogGuarantees.ClaimsResolve` | internal/catalog/planner.go:357-402 | The source, evidence, subject and object a serving claim record names all serve, at the named versions and of the right kinds, and the claim depends on exactly them. |
| `CatalogGuarantees.ArtifactsSupported` | internal/catalog/planner.go:312-355 | A serving artifact has a complete serving group, or all of its groups, exactly as its record identifies their members, and depends on exactly those. |
| `Planner.StageTargets` | internal/catalog/planner.go:646-680 | The desired list is accepted exactly when every resource is acceptable to the run and no ID repeats; the index then holds every resource in staged form under the run's version. |
| `Planner.PlanTarget` | internal/catalog/planner.go:694-710 | One target yields exactly its seven stage-to-publish operations, plus one supersede operation when the base holds another definition, with no repetition. |
| `Planner.CollectOperations` | internal/catalog/planner.go:693-726 | The operation list holds exactly the planned set: all target operations, and one retirement for every live base resource that is not desired; no operation twice. |
| `Planner.PlanResources` | internal/catalog/planner.go:621-737 | Planning succeeds exactly when run, base, desired resources, chunk boundaries and the replacement projection are valid, and then returns a valid canonical plan with exactly the planned operations: once assembled, the final plan check never rejects. |
| `Planner.PlannedValid` | internal/catalog/planner.go:98-131 | Every planned operation, whether staging, superseding or retiring, passes operation validation for the run. |
| `Replaying.IndexResults` | internal/catalog/replay.go:110-122 | Results are indexed exactly when no operation is reported twice, and the index is their outcome map with one entry a result. |
| `Replaying.ReduceOperations` | internal/catalog/replay.go:124-162 | The loop over the operations ends with the recursive reduction of the plan, one receipt an operation, and the run failed exactly when some outcome is not a success; it stops exactly when a result is missing. |
| `Replaying.ReplayResults` | internal/catalog/replay.go:79-204 | The imperative replay equals the replay function on every input, errors included. |
| `PlanReplay.PlannedReplayable` | internal/catalog/replay.go:211-303 | Every plan the planner makes for a base passes the replay plan validation against it. |
| `PlanReplay.ShadowValid` | internal/catalog/planner.go:200-305 | A projection that keeps every definition of a valid one but serves nothing is valid: the reason a failed replay is never rejected. |
| `PlanReplay.ReplayTotal` | internal/catalog/replay.go:79-204 | If a plan replays with all successes it replays with any complete results: published and succeeded when all succeed, otherwise failed with nothing serving, under the run's scope, version and snapshot and with exactly this plan added. |
| `PlanReplay.PlanServes` | internal/catalog/planner.go:621-737 | With all results successful the serving set is exactly the desired IDs, each published as its target, and the terminal set exactly the live base resources that are not desired. |
| `PlanReplay.PlanReplayAgreement` | internal/catalog/planner.go:621-776 | Every plan from a valid base passes replay validation and replays without error whatever the outcomes; all successes serve exactly the desired set, one failure yields a failed projection that serves nothing. |
| `PlanReplay.ReplayIdempotent` | internal/catalog/replay.go:358-378 | Replaying a plan on the projection it produced, with any results at all, is a no-op that reports the run state of the first replay. |
| `PlanContents.DefinitionFields` | internal/catalog/planner.go:861-869 | A resource is redefined exactly when a field other than its state, status, security record or projection version differs. |
| `PlanContents.PlannedByFields` | internal/catalog/planner.go:682-726 | A plan holds exactly seven operations for each desired resource, a supersession for each redefined one and a retirement for each other live one, each resource given field by field. |
| `PlanContents.PlanInOrder` | internal/catalog/planner.go:935-970 | Operations go by resource, and those of one resource in the fixed order from supersession through staging and projection to publication and retirement. |
| `PlanContents.PublishedByFields` | internal/catalog/planner.go:621-737 | After all successes the replayed projection holds every desired resource as it was desired, published and ready at the new versions, every other live one retired without its records, and nothing else. |
| `PlanContents.PreflightGuarantees` | internal/catalog/replay.go:211-303 | Any plan the replay preflight accepts accounts for every live resource of its base and either stages a resource completely and consistently or retires it once, as it was defined. |
| `ReplayOutcomes.ReplayedResources` | internal/catalog/replay.go:124-192 | Replaying any plan: the projection holds exactly the resources of its operations; a staged one is Published, or in a failed run Failed if one of its own operations failed and Staged otherwise; each component followed its own operation; a retired one is Failed exactly if its own operation failed and otherwise as planned. |
| `ReplayOutcomes.ReceiptsKept` | internal/catalog/replay.go:155-196 | Every operation of the plan has its receipt in the replayed projection, and every other receipt of the base is there unchanged. |
| `Revocation.InvalidationMonotone` | internal/catalog/planner.go:563-601 | Selecting more never un-invalidates a resource. |
| `Revocation.InvalidationLocal` | internal/catalog/planner.go:563-601 | Over a valid projection selecting one more resource can only invalidate resources it is an edge of, which is what lets the worklist look at dependents alone. |
| `Revocation.ClosureUnique` | internal/catalog/planner.go:513-533 | Two least closed selections above one request are equal: the outcome cannot depend on queue order. |
| `Revocation.Propagate` | internal/catalog/planner.go:518-532 | One worklist step keeps every unexamined consequence queued and never leaves the intersection of all closed supersets of the request. |
| `Revocation.SelectRevocations` | internal/catalog/planner.go:474-533 | The worklist terminates; it succeeds exactly for distinct, present IDs, with the least superset of the request that is closed under support-aware invalidation along edges. |
| `Revocation.CarriedSupport` | internal/catalog/planner.go:563-619 | Over a valid published base every derived artifact the closure spares still has an available complete group (any_support) or all members available (all_required). |
| `Revocation.CarryForwardTotal` | internal/catalog/planner.go:778-832 | Rebinding a spared resource to the new run always succeeds; "no serving support groups" is never reported. |
| `Revocation.PlanRevocations` | internal/catalog/planner.go:474-561 | The whole planner: repeated and unknown IDs are rejected first; the selection is the least closure, what is carried is exactly the live, unselected, unquarantined resources rebound to the run, and a plan for them is returned exactly when they are plannable. |
| `Revocation.RevocationServes` | internal/catalog/planner.go:474-561 | Replaying a revocation plan with all successes serves exactly the live resources outside the closure that were not quarantined. |
| `RevocationReasons.SelectedHasReason` | internal/catalog/planner.go:563-619 | Nothing unrequested is selected without a reason in the rest of the selection: an any-support artifact has lost a member of every complete group, an all-required one a member of some group, any other resource a dependency or, for a chunk without dependencies, its document. |
| `RevocationReasons.SelectedExactly` | internal/catalog/planner.go:513-619 | Over a valid base an unrequested resource is selected if and only if it has such a reason (for artifacts with a record: serving ones). |
| `RevocationReasons.AlternativeKeepsServing` | internal/catalog/planner.go:582-588 | An any-support artifact with one complete serving group outside the selection is still serving once the revocation plan is replayed. |
| `RevocationReasons.CarriedRecord` | internal/catalog/planner.go:798-832 | A carried artifact keeps exactly the groups its mode still counts, with their members at the new projection, and depends on exactly those members. |
| `RevocationReasons.CarriedClaim` | internal/catalog/planner.go:778-796 | A carried claim keeps its statement, its supports and all of its evidence at the new snapshot and projection; any other resource keeps everything. |
| `RevocationTotality.DependencyCarried` | internal/catalog/planner.go:563-601 | No spared resource other than a derived artifact loses a dependency: each one is carried forward and serving. |
| `RevocationTotality.MemberCarried` | internal/catalog/planner.go:798-832 | Every member of a support group a rebound record keeps is itself carried forward, serving and still the identity the record names. |
| `RevocationTotality.ReplacementValid` | internal/catalog/planner.go:739-776 | Under the stated conditions the projection the revocation leads to passes projection validation in full. |
| `RevocationTotality.RevocationPlansExactly` | internal/catalog/planner.go:474-561 | Over a valid published base a revocation is plannable if and only if the run continues the base (scope, version, domain, count of live documents, same source version if anything is carried), no carried chunk has its document selected, and every retired resource depends on live resources only. |
| `RevocationTotality.RevocationMayBeRefused` | internal/catalog/planner.go:834-852 | A concrete base on which revoking a document is refused: its chunk names another document as its only dependency, is spared by the closure and then has no parent. |
| `RevocationTotality.RetiredMayNotResolve` | internal/catalog/planner.go:739-776 | A concrete base on which revoking an artifact is refused: it still depends on a document revoked before, which the new projection no longer records. |
| `JournalSafety.StepKeeps` | internal/catalog/projection_store.go:994-1008 | Every guarded atomic write keeps the journal invariant: plans, runs, receipts and projections well formed, the serving pointer naming a persisted Published projection whose ancestors are all persisted, an owner backed by its plan and only Succeeded receipts. |
| `JournalGuards.StageSound` | internal/catalog/projection_store.go:394-436 | Each write of staging is guarded; on success plan and run record are in place; pointer, projections, receipts and verdicts stay. |
| `JournalGuards.RecordSound` | internal/catalog/projection_store.go:438-457 | Recording a result performs only guarded writes, so a durable receipt is never replaced. |
| `JournalGuards.ConcludeSound` | internal/catalog/projection_store.go:774-779 | Writing the run projection and then the terminal record is guarded at both steps. |
| `JournalGuards.ReconcileSound` | internal/catalog/projection_store.go:599-682 | Finishing the pointer's owner performs only guarded writes, changes nothing but the owner's run and run projection, and leaves the owner settled when it succeeds. |
| `JournalGuards.StaleReceiptsSound` | internal/catalog/projection_store.go:689-703 | Failing a stale run writes a receipt only where none exists and leaves one for every operation. |
| `JournalGuards.AttemptsSound` | internal/catalog/projection_store.go:342-384 | The execution loop invokes and records under guards only, touches nothing but receipts of this run and leaves one for every operation. |
| `JournalGuards.StaleFailureSound` | internal/catalog/projection_store.go:684-735 | Failing a stale run is guarded write by write. |
| `JournalPublication.NotApplied` | internal/catalog/projection_store.go:540-549 | Under the invariant a verified base never lists the plan based on it, so the already-applied branch of replay is not taken while finalizing. |
| `JournalPublication.PublishSound` | internal/catalog/projection_store.go:556-593 | Candidate, pointer, run projection and run record are written in that order, each under its guard, whichever prefix survives. |
| `JournalPublication.OwnPointerUnreachable` | internal/catalog/projection_store.go:507-532 | After reconciling the owner, no unfinished run finds the pointer already its own: that branch is unreachable. |
| `JournalPublication.FinalizeSound` | internal/catalog/projection_store.go:473-593 | Every write of finalizing, in every branch, is guarded. |
| `JournalPublication.ExecuteSound` | internal/catalog/projection_store.go:276-392 | Every write and every executor call of executing, in every branch, is guarded. |
| `JournalPublication.InitializeSound` | internal/catalog/projection_store.go:120-167 | Initializing with a projection that applied no plan performs only guarded writes. |
| `JournalPublication.RollbackSound` | internal/catalog/projection_store.go:198-236 | Rolling back performs only guarded writes: the pointer returns to the verified base before the candidate is removed. |
| `JournalPublication.HistoryKeeps` | internal/catalog/projection_store.go:120-593 | Any history of store operations, each cut after any number of actions, is a guarded log and ends in the journal invariant. |
| `JournalPublication.CrashSafety` | internal/catalog/projection_store.go:473-682 | After any such history, rollbacks included, the serving pointer once set names a valid persisted Published projection, and an owning run has its matching plan persisted, only Succeeded receipts, its base still persisted and a run record that is not Failed. |
| `JournalPublication.ExecutorDiscipline` | internal/catalog/projection_store.go:296-457 | Over any log: no operation is invoked once its receipt is durable nor after any Failed receipt of its run; plans, receipts and run projections are written once; a terminal run record is never replaced and nothing of that run is invoked again. |
| `JournalPublication.PointerAdvance` | internal/catalog/projection_store.go:504-582 | The pointer advances only from exactly the plan's base, to the plan's version, with every receipt Succeeded, onto the projection those receipts replay to. |
| `JournalReceipts.StagesExactly` | internal/catalog/projection_store.go:394-436 | Staging succeeds exactly for a valid plan that contradicts neither the plan nor the run identity on disk, and then changes nothing but adds what was missing. |
| `JournalReceipts.AttemptsSay` | internal/catalog/projection_store.go:355-384 | Each operation without a receipt gets the one its reply calls for: success only if the reply answers this operation, well formed, with success, and otherwise the code for a blocked, cancelled, failed or mismatched execution, by condition; blocked exactly after an operation went without success. |
| `JournalReceipts.LoopAttempts` | internal/catalog/projection_store.go:342-384 | So the whole loop gives every missing receipt exactly that way, keeps the others and writes none for other operations. |
| `JournalReceipts.StaleSays` | internal/catalog/projection_store.go:689-703 | A stale run gets stale_base_projection for exactly the operations without a receipt. |
| `JournalReceipts.StaleVerdictResources` | internal/catalog/projection_store.go:704-728 | The verdict on a stale run serves nothing: a resource is Failed if one of its own operations failed and Staged if it was ready, with its components as they were reached. |
| `JournalReceipts.ExecuteDelivers` | internal/catalog/projection_store.go:276-392 | Every success an execution adds, on any branch, was delivered by the executor for that very operation. |
| `JournalReceipts.NoSuccessInvented` | internal/catalog/projection_store.go:276-457 | Over any history of cut calls: a success in the log was reported by some call for that operation. |
| `JournalReceipts.PublishedWasReported` | internal/catalog/projection_store.go:556-582 | The pointer never advances to a plan unless some call had reported the success of each of its operations. |
| `JournalFlags.ExecuteFlags` | internal/catalog/projection_store.go:276-392 | A successful execution says that it advanced the pointer exactly if it wrote it, and that nothing was left to do exactly if the run was over or its success already served when the call began. |
| `JournalRecovery.HistoryKeepsVerdicts` | internal/catalog/projection_store.go:684-735 | Without rollbacks, the run projection of an unfinished run that does not own the pointer is always its stale verdict. |
| `JournalRecovery.ReconcileOutcome` | internal/catalog/projection_store.go:599-682 | Reconciling the owner succeeds exactly when the pointer is not wedged, and is a no-op when the owner is settled. |
| `JournalRecovery.StaleFinishes` | internal/catalog/projection_store.go:684-735 | Failing a stale replayable run always ends in a terminal record, also when an earlier attempt was cut anywhere. |
| `JournalRecovery.FinalizeServingOutcome` | internal/catalog/projection_store.go:540-593 | With complete receipts, finalizing against the serving base finishes the run exactly unless all receipts succeeded and the version is taken by another projection or a run projection is already written. |
| `JournalRecovery.AttemptsOutcome` | internal/catalog/projection_store.go:342-384 | After the loop all receipts are successes exactly when every durable receipt was one and every executed operation answers with one. |
| `JournalRecovery.RecoveryExact` | internal/catalog/projection_store.go:276-392 | After any history without rollbacks, executing a replayable plan on its persisted base ends with a terminal run if and only if the run already was terminal, or the pointer is not wedged and the success is not blocked (serving base, all receipts to succeed, version taken or stale verdict already written). |
| `JournalRecovery.RecoveryAssured` | internal/catalog/projection_store.go:276-392 | What the disk alone tells: every execution finishes the run, whatever the executor answers, if and only if the run is finished, or the pointer is not wedged and it is not the case that the base is served, no receipt failed, and the version is taken or a run projection is already written. |
| `JournalCases.OwnedRecovery` | internal/catalog/projection_store.go:595-682 | If the pointer already moved to the plan, executing it again invokes and publishes nothing and, exactly unless wedged, reports Succeeded with the identical serving projection. |
| `JournalCases.WedgeIsPermanent` | internal/catalog/projection_store.go:599-682 | A wedged pointer stays wedged through every further history without a rollback. |
| `JournalCounterexample.RecoveryFails` | internal/catalog/projection_store.go:276-392 | For every source snapshot without documents, a concrete history of four calls, two of them interrupted inside Execute, after which executing a staged plan on its base does not finish its run, whatever the executor answers. |
| `JournalCounterexample.ExecutionWedges` | internal/catalog/projection_store.go:556-593 | Continuing that history, one more interrupted execution wedges the pointer for good. |
| `Store.ProjectionStore.constructor` | internal/catalog/projection_store.go:88-116 | A fresh store is valid and empty. |
| `Store.ProjectionStore.Reopen` | internal/catalog/projection_store.go:84-116 | Opening what any prefix of a guarded log left behind gives a valid store with a safe serving pointer. |
| `Store.ProjectionStore.EveryPrefixIsSafe` | internal/catalog/projection_store.go:473-682 | At every moment of a valid store's life a crash, which leaves a prefix of its log, leaves a safe serving pointer. |
| `Store.ProjectionStore.StageLocked` | internal/catalog/projection_store.go:394-436 | Performs exactly the writes of the staging specification on the current records, in order, and returns its result. |
| `Store.ProjectionStore.Stage` | internal/catalog/projection_store.go:253-255 | Keeps the store valid and its pointer safe; on success plan and run record are in place; performs exactly the staging writes. |
| `Store.ProjectionStore.RecordResult` | internal/catalog/projection_store.go:257-264 | Keeps the store valid and its pointer safe; on success the canonical receipt is on disk; a different durable receipt is a conflict. |
| `Store.ProjectionStore.RecordLocked` | internal/catalog/projection_store.go:438-457 | Writes the receipt of a planned operation if there is none and rejects a different one. |
| `Store.ProjectionStore.CompleteResults` | internal/catalog/projection_store.go:737-756 | Returns the durable results in plan order, and fails exactly when one is missing. |
| `JournalReports.FinishedReadsBack` | internal/catalog/projection_store.go:758-772 | Under the journal invariant a finished run with a serving pointer is always read back: no write, no error, and the report is its terminal state, its stored run projection and the pointer. |
| `JournalReports.ExecuteReports` | internal/catalog/projection_store.go:276-392 | Whatever branch an execution took and whatever it reconciled first, a success it reports is on disk: the run is terminal in the reported state, its run projection is the reported one, the pointer is the reported one and names that projection if it was advanced. |
| `JournalReports.FinalizeReports` | internal/catalog/projection_store.go:473-593 | The same for finalizing. |
| `JournalReports.RecordStands` | internal/catalog/projection_store.go:438-457 | A recorded result is on disk afterwards, with its canonical error code. |
| `JournalReports.InitializeServes` | internal/catalog/projection_store.go:120-167 | Initializing selects exactly the given projection, or changes nothing. |
| `JournalReports.RollbackServes` | internal/catalog/projection_store.go:198-236 | Rolling back selects the base again and drops the projection of the plan, or changes nothing. |
| `Store.ProjectionStore.ConcludeLocked` | internal/catalog/projection_store.go:774-779 | Writes the run projection once and then the run record; a different run projection is a conflict. |
| `Store.ProjectionStore.ReconcileOwner` | internal/catalog/projection_store.go:599-682 | Performs exactly the writes of the owner reconciliation specification. |
| `Store.ProjectionStore.RecordStaleReceipts` | internal/catalog/projection_store.go:689-703 | The loop writes one stale-base receipt for exactly the operations that had none, in plan order. |
| `Store.ProjectionStore.PersistStaleFailure` | internal/catalog/projection_store.go:684-735 | Performs exactly the stale failure specification: receipts, verdict, Failed record. |
| `Store.ProjectionStore.Publish` | internal/catalog/projection_store.go:556-593 | Performs exactly the publication sequence. |
| `Store.ProjectionStore.Finalize` | internal/catalog/projection_store.go:266-274 | Keeps the store valid and its pointer safe; a reported execution is on disk; performs exactly the finalizing specification, branch by branch. |
| `Store.ProjectionStore.FinalizeAfterStaging` | internal/catalog/projection_store.go:473-593 | The same once the plan is staged. |
| `Store.ProjectionStore.ReadReceipts` | internal/catalog/projection_store.go:342-354 | Finds exactly the operations with durable receipts and whether one of them failed. |
| `Store.ProjectionStore.AttemptOperations` | internal/catalog/projection_store.go:342-384 | The loop over the operations performs exactly the specified invocations and receipts. |
| `Store.ProjectionStore.AttemptLocked` | internal/catalog/projection_store.go:355-384 | Invokes one pending operation unless the run already failed, and records exactly the specified outcome. |
| `Store.ProjectionStore.Execute` | internal/catalog/projection_store.go:276-392 | Keeps the store valid and its pointer safe; a reported execution is on disk; performs exactly the execution specification. |
| `Store.ProjectionStore.InitializeServing` | internal/catalog/projection_store.go:120-167 | On success exactly the given projection is served, on failure nothing changed; if it applied no plan the store stays valid and its pointer safe. |
| `Store.ProjectionStore.RollbackServing` | internal/catalog/projection_store.go:198-236 | Keeps the store valid and its pointer safe; on success the base is served without an owner and the projection of the plan is gone, on failure nothing changed. |
| `Store.ProjectionStore.ServingProjection` | internal/catalog/projection_store.go:182-193 | In a valid store it succeeds exactly when a pointer is set, with a valid Published projection: the one under the serving version. |
| `Revisions.AtomicRevisionPublisher.Create` | internal/authz/revision.go:20-25 | Rejects exactly an invalid initial revision and otherwise starts at it with nothing pending. |
| `Revisions.AtomicRevisionPublisher.Reserve` | internal/authz/revision.go:43-76 | Succeeds exactly when the expected revision is current, nothing is pending and the next revision advances it; then holds a fresh reservation; otherwise nothing changes. |
| `Revisions.AtomicRevisionPublisher.Publish` | internal/authz/revision.go:78-99 | Publishes exactly the pending reservation, and only while its base is current; otherwise nothing changes. |
| `Revisions.AtomicRevisionPublisher.Abort` | internal/authz/revision.go:101-110 | Clears exactly the reservation it names and nothing else. |
| `Revisions.EpochRevocationLifecycle.Prepare` | internal/authz/revocation_lifecycle.go:102-156 | Gates every touched resource for the target epoch exactly when no gate stands against it; a failing invalidator leaves the gates closed; any other refusal leaves them unchanged. |
| `Revisions.EpochRevocationLifecycle.Commit` | internal/authz/revocation_lifecycle.go:158-194 | Opens the granted and retires the other touched resources, exactly when every gate is this transition's own; otherwise nothing changes. |
| `Revisions.EpochRevocationLifecycle.Allow` | internal/authz/revocation_lifecycle.go:198-225 | Answers exactly from the resource's gate, and rejects malformed requests. |
| `RevisionProtocol.StepKeeps` | internal/authz/reconciliation.go:407-488 | Every atomic step of every interleaving keeps the protocol invariant: one reservation and one holder, gates that match each reconciler's phase. |
| `RevisionProtocol.RunKeeps` | internal/authz/reconciliation.go:407-488 | So the invariant holds in every state of every run of arbitrarily many reconcilers, scope refreshers and readers, with failures at any step. |
| `RevisionProtocol.CommitNeverRefused` | internal/authz/revocation_lifecycle.go:158-194 | A reconciler that wrote its tuples can always commit: nobody moved its gates meanwhile. |
| `RevisionProtocol.PublishNeverRefused` | internal/authz/revision.go:78-99 | Whoever holds a reservation can always publish it. |
| `RevisionProtocol.PublicationPairsWithGates` | internal/authz/reconciliation.go:407-488 | When a reconciler publishes, its target becomes current, its granted resources are allowed at the target and its other touched resources at no revision of that store. |
| `RevisionProtocol.ReservationsDiffer` | internal/authz/revision.go:43-76 | Reservation IDs never repeat, and nothing is pending when one is taken. |
| `RevisionProtocol.SameRevisionNoPublish` | internal/authz/revision.go:78-99 | If the same revision is current at two moments nothing was published in between: epochs strictly increase. |
| `RevisionProtocol.GateIsForever` | internal/authz/revocation_lifecycle.go:102-225 | Once a resource is gated for an epoch, no revision of a lower epoch is allowed to read it, ever. |
| `RevisionProtocol.RetiredUntilRegranted` | internal/authz/revocation_lifecycle.go:158-225 | A retired resource stays denied at every revision of its store until a strictly newer transition grants and commits it. |
| `RevisionProtocol.ReaderConsistency` | cmd/knote/permissioned_revision.go:142-186 | If begin returned v and a later finish for the same v delivers, nothing was published between begin and finish's read, and for each resource no transition of a higher epoch had gated it before its own check. |
| `PublishedAccess.AccessStays` | internal/authz/revocation_lifecycle.go:198-225 | Whoever may read a resource may go on until a transition that touches it closes its gate. |
| `PublishedAccess.LaterRevisionsToo` | internal/authz/revocation_lifecycle.go:198-225 | What may be read at a revision may be read at every later revision of the store. |
| `PublishedAccess.NeverGated` | internal/authz/revocation_lifecycle.go:198-225 | A resource no transition of the store has touched may be read at every revision. |
| `PublishedAccess.NewerMayGate` | internal/authz/revocation_lifecycle.go:102-156 | A transition newer than all gates of its resources is never refused. |
| `PublishedAccess.OlderMayNotGate` | internal/authz/revocation_lifecycle.go:102-156 | One that meets a gate of a later epoch, or would grant again at the epoch that retired, always is. |
| `PublishedAccess.RefreshPublishes` | cmd/knote/permissioned_revision.go:98-129 | Whatever happens meanwhile, a refresher publishes the next epoch of the same store, model and identities at the watermark of its scope. |
| `Reconciling.TupleReconciler.Reconcile` | internal/authz/reconciliation.go:407-488 | Succeeds exactly for a plan that is the delta of two valid projections with its resources, on the current revision, when nothing in its way fails; then revision, gates and tuples are all at the target. It is a no-op exactly for an unchanged revision. On any error revision and reservation are as before, the gates as an abandoned transition leaves them, and every object has its tuples as before or wholly rewritten. |
| `Reconciling.TupleReconciler.MoveGates` | internal/authz/reconciliation.go:456-480 | Prepares, writes and commits; a plan without resources touches neither gates nor tuples; on failure gates stay closed and every object is whole. |
| `Reconciling.TupleReconciler.WriteTuples` | internal/authz/reconciliation.go:462-472 | Writes the whole delta in canonical order; between valid projections no batch is oversized, so only the writer can fail; what a failure leaves is whole object by object. |
| `Reconciling.ReconciledIsDesired` | internal/authz/reconciliation.go:407-488 | If the store held the current claim bindings, a successful reconciliation leaves the desired ones and nothing else changed. |
| `Reconciling.ReconciledAccess` | internal/authz/reconciliation.go:82-141 | After a successful reconciliation a resource with a new binding may be read at the target, and one left without bindings at no revision. |
| `Reconciling.ChangesAdvance` | internal/authz/reconciliation.go:124-141 | Changed tuples need a newer epoch of the same store and another ACL watermark. |
| `GatedRewrites.JointRunKeeps` | internal/authz/reconciliation.go:407-488 | In every interleaving of reconcilers that write batch by batch, refreshers and readers, the store holds exactly what the one active writer found with its batches so far applied. |
| `GatedRewrites.CommitIsComplete` | internal/authz/reconciliation.go:462-480 | No interleaving lets a transition commit before, or without, its complete delta. |
| `GatedRewrites.WritesTouch` | internal/authz/reconciliation.go:82-141 | A batch that rewrites a claim object gates every resource that either projection lets depend on it. |
| `PublishedAccess.PublishedFollowsBindings` | internal/authz/reconciliation.go:82-141 | In every interleaving, once a rewrite is published a resource it bound anew may be read at the published revision, and one it left without bindings at no revision. |
| `GatedRewrites.ReopenedByRegrant` | internal/authz/revocation_lifecycle.go:158-194 | A blocked resource is opened by a committed grant of it and by nothing else. |
| `GatedRewrites.ReadersSeeWholeClaims` | internal/authz/revocation_lifecycle.go:198-225 | When a reader is allowed a resource, the tuples of a claim object that depends on it were never written, or were rewritten as a whole by the last transaction that wrote them, and a grant of the resource has been committed since: no allowed reader sees a transition that is under way or was abandoned halfway. |
| `GatedRewrites.WholeExactly` | internal/authz/reconciliation.go:183-219 | A complete delta leaves exactly the desired bindings of a claim if and only if the writer found a store between the two projections there. |
| `GatedRewrites.RetryFits` | internal/authz/openfga_write.go:21-54 | Retrying an interrupted delta always finds such a store. |
| `GatedRewrites.ReadersSeeDesired` | internal/authz/reconciliation.go:407-488 | In a joint run where every writer of a claim object found a store between its two projections there, an allowed reader sees exactly the desired bindings of the last projection that wrote it, or the claim was never written. |
| `GatedRewrites.ReplacingAbandonedWrites` | internal/authz/reconciliation.go:407-488 | A concrete case that does not fit: between valid projections, a different transition may gate and complete after an abandoned one, and leaves the claim with two subjects. |
| `AbandonedRewrites.OpenGateTwoSubjects` | internal/authz/reconciliation.go:407-488 | The same as a joint run from an empty store, step by step: one reconciler writes and gives up, another starts, writes, commits and publishes, and a reader at the published revision is allowed the resource of a claim stored with two subjects. |
| `Reconciling.PermissionedRevisionState.RefreshScope` | cmd/knote/permissioned_revision.go:98-129 | Succeeds exactly for the bound scope or when a reservation for the refreshed revision can be taken and published, which advances the epoch by one; otherwise scope and revision are unchanged. |
| `Reconciling.PermissionedRevisionState.Begin` | cmd/knote/permissioned_revision.go:142-162 | Returns the current revision exactly when scope and context name it. |
| `Reconciling.PermissionedRevisionState.Finish` | cmd/knote/permissioned_revision.go:164-186 | Succeeds exactly when scope and revision are unchanged and every named resource is allowed. |
| `Canonical.CanonicalUnion` | internal/authz/revocation_lifecycle.go:247-260 | The union is strictly sorted and holds exactly the members of both lists. |
| `Canonical.CanonicalUnique` | internal/authz/revocation_lifecycle.go:247-260 | Strictly sorted lists with equal members are equal. |
| `TupleRewrite.ProjectionDelta` | internal/authz/reconciliation.go:183-219 | A delta exists exactly when every retained tuple keeps its resource ID; then writes and deletes are disjoint and turn current into desired. |
| `TupleRewrite.DeltaMayNotExist` | internal/authz/reconciliation.go:197-209 | Two valid projections that differ in the resource ID of one tuple, for which no delta exists. |
| `TupleRewrite.GroupByObject` | internal/authz/openfga_write.go:108-124 | The changes of every object, and of no other, in request order. |
| `TupleRewrite.WriteBatches` | internal/authz/openfga_write.go:107-163 | Batching fails exactly when one object needs more than 100 operations; otherwise the batches conserve every operation with its multiplicity, hold at most 100 each, never split an object, and list the objects in their sorted order within and across batches. |
| `TupleRewrite.PackObjects` | internal/authz/openfga_write.go:144-162 | The greedy loop with its flush establishes that for the sorted objects. |
| `TupleStoring.TupleStore.ApplyTupleChanges` | internal/authz/openfga_write.go:21-54 | Applies the batches in order and stops at the first that fails: the store has exactly the effect of the batches written. |
| `TupleStoring.BatchHasAll` | internal/authz/openfga_write.go:144-162 | A batch that mentions an object holds exactly the requested changes of that object. |
| `TupleStoring.PrefixEffect` | internal/authz/openfga_write.go:21-54 | After any prefix of the batches a tuple is stored as requested if its object was touched, and as before otherwise. |
| `TupleStoring.DeltaNeverOversized` | internal/authz/openfga_write.go:146-153 | Between valid claim projections batching never fails: no object changes more than six tuples. |
| `TupleStoring.ClaimsWhole` | internal/authz/openfga_write.go:21-54 | After every prefix of batches each claim's tuples are wholly old or wholly new, and unrelated tuples are untouched. |
| `TupleStoring.CardinalityAtBoundaries` | internal/authz/local.go:154-194 | So singular source, subject and object hold at every batch boundary. |
| `TupleStoring.ReplayConverges` | internal/authz/openfga_write.go:21-54 | Replaying all batches after any prefix yields exactly the desired tuples. |
| `QueryCaching.QueryResultResourceIDs` | internal/knowledge/authorized/cache.go:331-362 | Collects exactly the nonempty resource IDs mentioned anywhere in the result. |
| `QueryCaching.QueryCache.Get` | internal/knowledge/authorized/cache.go:123-137 | Returns the entry under its revision exactly when the cache is enabled and holds the key. |
| `QueryCaching.QueryCache.Create` | internal/knowledge/authorized/cache.go:73-86 | Rejects exactly a capacity out of bounds and otherwise starts empty and enabled. |
| `QueryCaching.QueryCache.Put` | internal/knowledge/authorized/cache.go:141-166 | Inserts with a fresh revision, evicting when full, and refuses exactly when disabled or when a mentioned resource is invalidated. |
| `QueryCaching.QueryCache.EvictOldest` | internal/knowledge/authorized/cache.go:267-281 | Removes exactly one entry, of least revision. |
| `QueryCaching.QueryCache.DeleteIfRevision` | internal/knowledge/authorized/cache.go:168-180 | Removes the entry exactly if it is still the one of that revision. |
| `QueryCaching.QueryCache.ContainsRevision` | internal/knowledge/authorized/cache.go:182-193 | True exactly when the enabled cache holds the key at that revision. |
| `QueryCaching.QueryCache.ContainsInvalidatedResource` | internal/knowledge/authorized/cache.go:195-210 | True exactly when disabled or one of the IDs is invalidated. |
| `QueryCaching.QueryCache.InvalidateResource` | internal/knowledge/authorized/cache.go:217-265 | Fails exactly for an empty resource, a zero revocation time or a zero clock, and then changes nothing; otherwise tombstones the resource, removes exactly the entries that mention it, or disables the cache when the tombstones overflow, and reports the observed time, the latency clipped at zero and the number removed. |
| `QueryCaching.RunKeeps` | internal/knowledge/authorized/cache.go:123-281 | Over any sequence of operations: within capacity, revisions distinct, no entry mentions an invalidated resource, a disabled cache is empty. |
| `QueryCaching.InvalidatedStaysOut` | internal/knowledge/authorized/cache.go:217-265 | After a resource is invalidated no later state of an enabled cache holds a result that mentions it. |
| `QueryCaching.InvalidatedNowhere` | internal/knowledge/authorized/cache.go:217-265 | An invalidated resource stands in no item, support, decision, citation, evidence or trace of any later result. |
| `QueryCaching.OldEntriesUnchanged` | internal/knowledge/authorized/cache.go:141-193 | An entry of an earlier revision is the earlier entry, unchanged. |
| `QueryCaching.ContainedIsSnapshotted` | internal/knowledge/authorized/cache.go:182-193 | The same revision at two moments means the same key and the very same entry. |
| `AuthorizationModel.EditImpliesView` | internal/authz/model/authorization.fga:16-75 | Whoever can edit an object of any type can view it. |
| `AuthorizationModel.ClaimAccessReachesEndpoints` | internal/authz/model/authorization.fga:52-75 | On any valid tuples in which no claim has two bindings for one relation, other claims complete or not: who reaches a claim without a direct grant has the same access to its source, subject and object. |
| `AuthorizationModel.RestrictedNeedsGrant` | internal/authz/model/authorization.fga:26-75 | A restricted object is reached through its own grants only. |
| `AuthorizationModel.AccessGrows` | internal/authz/model/authorization.fga:1-75 | Valid tuples other than restrictions never take access away when they are added. |
| `LocalAuthorization.AddConflicts` | internal/authz/local.go:225-234 | The index rejects a tuple exactly when the tuple set already names another user for a singular relation. |
| `LocalAuthorization.AddAgrees` | internal/authz/local.go:225-234 | Adding to the index agrees with recomputing it from the larger tuple set. |
| `LocalAuthorization.RemoveAgrees` | internal/authz/local.go:236-241 | Removing, with the entry dropped at count zero, agrees with recomputing it from the smaller tuple set. |
| `LocalAuthorization.IndexUnique` | internal/authz/local.go:216-250 | A tuple set has at most one agreeing index. |
| `LocalAuthorization.ValidateTuples` | internal/authz/local.go:154-194 | Accepts exactly the snapshots whose tuples are valid and whose claims have one source, one subject and one object. |
| `LocalAuthorization.LocalAuthorizer.AddTuple` | internal/authz/local.go:294-347 | Adds exactly this tuple, rejects exactly invalid or conflicting ones without any change, and keeps the index equal to the recomputed one. |
| `LocalAuthorization.LocalAuthorizer.RemoveTuple` | internal/authz/local.go:303-325 | Removes exactly this tuple and keeps the index equal to the recomputed one. |
| `LocalAuthorization.LocalAuthorizer.Install` | internal/authz/local.go:274-292 | Accepts exactly the valid snapshots. |
| `LocalAuthorization.LocalAuthorizer.MatchingTuples` | internal/authz/local.go:724-739 | Finds exactly the tuples of a relation and object. |
| `LocalAuthorization.LocalAuthorizer.DirectLocked` | internal/authz/local.go:687-722 | Equals the declarative direct relation, group membership included, with no error. |
| `LocalAuthorization.LocalAuthorizer.MemberOfRelatedObjects` | internal/authz/local.go:667-685 | True exactly when some related object grants the computed relation. |
| `LocalAuthorization.LocalAuthorizer.IntersectOrganization` | internal/authz/local.go:655-661 | True exactly for organization members for whom the relation holds. |
| `LocalAuthorization.LocalAuthorizer.AllComputed` | internal/authz/local.go:642-653 | True exactly when every listed relation holds. |
| `LocalAuthorization.LocalAuthorizer.DirectOrInherited` | internal/authz/local.go:627-640 | A direct grant or the inherited relation. |
| `LocalAuthorization.LocalAuthorizer.EvaluateKnowledgeBase` | internal/authz/local.go:488-505 | Equals the declarative answer for knowledge bases. |
| `LocalAuthorization.LocalAuthorizer.EvaluateDocument` | internal/authz/local.go:507-544 | Equals the declarative answer for documents. |
| `LocalAuthorization.LocalAuthorizer.EvaluateEntity` | internal/authz/local.go:546-571 | Equals the declarative answer for entities. |
| `LocalAuthorization.LocalAuthorizer.EvaluateClaim` | internal/authz/local.go:573-625 | Equals the declarative answer for claims, incomplete bindings included. |
| `LocalAuthorization.LocalAuthorizer.Evaluate` | internal/authz/local.go:449-486 | Terminates by the lexicographic (type, relation) measure; the visiting guard never fires; the result is the declarative answer. |
| `LocalAuthorization.LocalAuthorizer.Check` | internal/authz/local.go:355-381 | A well-formed check answers the declarative relation; malformed ones are rejected. |
| `LocalAuthorization.CanEditImpliesCanView` | internal/authz/local.go:488-625 | An evaluator that grants can_edit grants can_view. |
| `LocalAuthorization.ClaimAnswersReachEndpoints` | internal/authz/local.go:573-625 | The same of the evaluator: a claim request granted without a direct grant is granted on its source, subject and object, and all three are bound. |
| `AuthorizationBounds.ValidExactly` | internal/authz/model/authorization.fga:1-75 | A tuple is valid exactly if the model admits its user in its relation to its object type. |
| `AuthorizationBounds.AnswersExactly` | internal/authz/local.go:488-684 | Read off the tuples: may view or edit if and only if the user belongs to an organization of the object, directly or through a group, and has a grant there, or nothing restricts the object and the same question is answered yes for its knowledge base, its document, or the source, subject and object of a claim. |
| `ClaimTuples.ValidateList` | internal/authz/catalog_projection.go:43-68 | Accepts exactly sorted lists of valid claim bindings without a repeated tuple, with one resource for each object and a valid snapshot. |
| `ClaimTuples.ClaimBindings` | internal/authz/catalog_projection.go:111-131 | The lookups of source, subject and object never fail for a claim of a valid projection, and yield its three bindings. |
| `ClaimTuples.OneClaimPerObject` | internal/authz/catalog_projection.go:88-103 | With one boundary for each object no two serving source-backed claims share an authorization object. |
| `ClaimTuples.ListIsValid` | internal/authz/catalog_projection.go:133-141 | Then the validator at the end decides by one thing alone: whether the authorization objects of claims and of what they are bound to read as references of the right type. |
| `ClaimTuples.ServingBoundaries` | internal/authz/catalog_projection.go:88-103 | Succeeds exactly when each authorization object of a serving resource has one boundary. |
| `ClaimTuples.ProjectCatalogClaimTuples` | internal/authz/catalog_projection.go:78-142 | Succeeds exactly for a valid Published projection with one boundary for each object and well named claims; the result is valid, sorted and holds exactly the three bindings of every serving source-backed claim. |
| `ClaimTuples.SharedObject` | internal/authz/catalog_projection.go:95-101 | A valid Published projection that has no claim tuples: two documents under one authorization object. |
| `ClaimTuples.TuplesUnique` | internal/authz/catalog_projection.go:133-142 | The list is a function of the projection, whatever order its resources are visited in. |
| `ClaimTuples.TuplesOfRecord` | internal/authz/catalog_projection.go:105-131 | The three bindings of a claim are its record's document as source, subject as subject and object as object, each by its authorization object. |
| `ClaimTuples.ProjectedIsValid` | internal/authz/catalog_projection.go:43-68 | What is projected is a valid claim tuple projection in the sense the delta, the batches and the reconciler rely on. |
| `ClaimTuples.ClaimAccessReachesRecord` | internal/authz/catalog_projection.go:105-131 | Catalog and authorizer together: in any valid store holding the projected tuples, whoever may view or edit a claim without a grant on it may view or edit its subject, its object and every piece of evidence its catalog record names. |
| `ProvenanceCycles.LayeredHasNoCycle` | internal/catalog/types.go:1116-1162 | A graph whose nodes are all listed in layers has no cycle: what finished visits mean. |
| `ProvenanceCycles.BackEdge` | internal/catalog/types.go:1141-1143 | An edge into the current path closes a cycle: what the error means. |
| `ProvenanceCycles.CycleIsEvidence` | internal/catalog/types.go:1116-1162 | A cycle is a way from a derived resource back to itself along places in support lists. |
| `ProvenanceCycles.CycleSearch.Visit` | internal/catalog/types.go:1134-1153 | The visit terminates, fails only on a real cycle, and otherwise finishes the node with everything below it listed earlier. |
| `ProvenanceCycles.CycleSearch.ValidateAcyclic` | internal/catalog/types.go:1116-1162 | Returns success if and only if the evidence relation restricted to claims, entities and artifacts has no cycle. |
| `GraphUpgrade.ResourcesStayValid` | internal/protocol/graph_bindings.go:300-345 | The upgraded resource bindings pass the v2 validator. |
| `GraphUpgrade.ClaimStaysValid` | internal/protocol/graph_bindings.go:347-443 | Every kept upgraded claim passes every v2 check against them. |
| `GraphUpgrade.DerivabilityPreserved` | internal/protocol/graph_bindings.go:500-528 | For every set of visible resources a kept claim is derivable under the v2 support groups if and only if it was under v1 flat provenance. |
| `GraphUpgrade.UpgradeClaim` | internal/protocol/graph_bindings.go:474-530 | The claim loop produces the upgraded claim: lifted graph IDs, stable IDs, and one whole group or one group a piece of evidence. |
| `GraphUpgrade.UpgradeGraphBindingContract` | internal/protocol/graph_bindings.go:448-536 | Succeeds exactly for valid input; the output is a valid v2 contract; v2 input is returned unchanged; of v1 input exactly the claims with supported predicates are kept. |
| `GraphListing.PermutedResources` | internal/protocol/graph_bindings.go:300-345 | Valid resource bindings stay valid, with the same objects bound, when sorted by graph ID. |
| `GraphListing.ReorderedValid` | internal/protocol/graph_bindings.go:347-443 | A valid claim stays valid when its supports are reordered. |
| `GraphListing.ListClaim` | internal/protocol/graph_bindings.go:585-625 | The listing of a claim has every list strictly sorted: provenance, stable IDs, supports by key and the lists of each support. |
| `GraphListing.ListedValid` | internal/protocol/graph_bindings.go:213-443 | Valid bindings, listed in order, pass the validators with all their "unique and sorted" checks. |
| `GraphListing.UpgradeListed` | internal/protocol/graph_bindings.go:448-536 | Succeeds exactly for input the validators accept, order included; the output, sorted again by its new IDs, is accepted again; v2 input is returned unchanged. |
| `GraphListing.ListedMeaningPreserved` | internal/protocol/graph_bindings.go:448-536 | The ordered v1 upgrade preserves meaning: each returned claim makes the same statement about the same resources as one given claim and is derivable, for every set of visible resources, exactly when that was; each given claim with a supported predicate is among them. |
| `GraphContents.UpgradeByFields` | internal/protocol/graph_bindings.go:448-470 | The upgraded resource bindings are the given resources, unchanged, under their version 2 IDs. |
| `GraphContents.AcceptedClaims` | internal/protocol/graph_bindings.go:347-443 | An accepted claim refers to listed resources only: claim, entities and document of the right kinds, evidence from its document, and under version 2 the stable IDs and groups that match them. |
| `GraphContents.AcceptedResources` | internal/protocol/graph_bindings.go:300-345 | Accepted resources share scope and versions, have the IDs they digest, and every chunk comes with its document. |
| `GraphListing.ListingUnique` | internal/protocol/graph_bindings.go:585-625 | Two canonical listings of one claim are equal, whatever order its supports had. |
| `GraphProjecting.ResourcesValid` | internal/catalog/graph_projection.go:24-45 | The projected resource bindings pass validation exactly when something is eligible and ACL, index and graph versions are uniform. |
| `GraphProjecting.DependenciesEligible` | internal/catalog/planner.go:357-402 | Source, subject and object of a serving source-backed claim are serving resources of the right type, hence bound. |
| `GraphProjecting.EvidenceEligible` | internal/catalog/planner.go:357-402 | Every piece of its evidence is a serving piece of its source document, hence bound. |
| `GraphProjecting.ClaimValid` | internal/catalog/graph_projection.go:47-109 | Every projected claim passes all v2 binding checks. |
| `GraphProjecting.ClaimsValid` | internal/catalog/graph_projection.go:106-109 | And together they pass the claim set validator. |
| `GraphProjecting.ProjectSupports` | internal/catalog/graph_projection.go:55-81 | The support loop succeeds and projects every support group. |
| `GraphProjecting.ProjectClaim` | internal/catalog/graph_projection.go:53-104 | The claim loop never misses a lookup and projects the claim record. |
| `GraphProjecting.ProjectionGraphBindings` | internal/catalog/graph_projection.go:14-111 | Succeeds exactly for a valid Published projection with at least one eligible resource and uniform versions, and then returns exactly the eligible resources and claims, as a valid v2 contract. |
| `GraphListing.ProjectListed` | internal/catalog/graph_projection.go:14-111 | Succeeds exactly for a valid Published projection with an eligible resource and uniform versions; the sorted bindings pass the validators, order included, and list exactly the eligible resources and claims. |
| `GraphListing.GraphUnique` | internal/catalog/graph_projection.go:14-111 | The graph is a function of the projection: two derivations in any iteration order list the same bindings in the same order. |
| `GraphContents.ResourcesByFields` | internal/catalog/graph_projection.go:24-45 | Exactly the published, ready resources take part, artifacts with their security record and claims with their endpoints, each bound field by field as the catalog has it. |
| `GraphContents.ClaimsByFields` | internal/catalog/graph_projection.go:47-109 | Exactly their source-backed claims are listed, each with the subject, predicate, object, source, mode, evidence and supports of its record. |
| `Ordering.Arrange` | internal/protocol/graph_bindings.go:577-583 | Sorting by a rank that tells the elements apart: the same elements, in strictly ascending order. |
| `Ordering.RankedUnique` | internal/protocol/graph_bindings.go:577-625 | A sorted list is determined by its members. |
| `GraphQuerying.CompiledIsValid` | internal/protocol/graph_query.go:415-473 | Whatever a valid query compiles to is a valid traversal plan: the second validation never rejects. |
| `GraphQuerying.FiltersValid` | internal/protocol/graph_query.go:648-658 | Normalized filters pass their validator. |
| `GraphQuerying.OrderValid` | internal/protocol/graph_query.go:698-720 | The normalized order has distinct known keys, priorities 0..n-1 and contains claim_id. |
| `GraphQuerying.OrderKeepsRelativeOrder` | internal/protocol/graph_query.go:660-696 | A clause of lower priority still precedes one of higher priority after renumbering. |
| `GraphQuerying.CompilesCanonically` | internal/protocol/graph_query.go:524-557 | Queries that differ only by order or repetition of list entries compile to the same plan. |
| `QueryMeaning.CompiledSelects` | internal/protocol/graph_query.go:524-582 | A claim row passes the compiled plan if and only if it has one of the query's predicates and passes each of its filters, each on its own field. |
| `QueryMeaning.CompiledOrders` | internal/protocol/graph_query.go:660-696 | Two rows compare by the query's most important clause that tells them apart, in its direction. |
| `QueryMeaning.CompiledTies` | internal/protocol/graph_query.go:660-696 | Where none does, the claim ID decides, ascending. |
| `QueryMeaning.CompiledDefault` | internal/protocol/graph_query.go:660-667 | A query without clauses compares by predicate, object and claim, all ascending. |
| `QueryMeaning.CompiledKeeps` | internal/protocol/graph_query.go:524-582 | Starts, kinds, direction, limits and projection are kept, and the fields are the query's and the required ones. |
| `QueryMeaning.ExpansionAnswersQuery` | adapters/kag/knote_kag_adapter.py:3531-3642 | One hop under the compiled plan has an edge exactly for the claim rows that satisfy the query and that the frontier reaches. |
| `GraphQueryCompiling.Compact` | internal/protocol/graph_query.go:733-741 | The in-place compaction leaves exactly the distinct values, strictly sorted. |
| `GraphQueryCompiling.SortedUnique` | internal/protocol/graph_query.go:727-742 | The result is the strictly sorted list of the distinct values. |
| `GraphQueryCompiling.NormalizeFilters` | internal/protocol/graph_query.go:637-646 | Filters are normalized one by one and sorted by kind. |
| `GraphQueryCompiling.WithClaimID` | internal/protocol/graph_query.go:661-685 | The default clauses, or the given ones with claim_id appended after the highest priority when missing. |
| `GraphQueryCompiling.Renumber` | internal/protocol/graph_query.go:692-694 | In place, every clause gets its index as priority and nothing else changes. |
| `GraphQueryCompiling.NormalizeOrder` | internal/protocol/graph_query.go:660-696 | The clauses sorted by priority and renumbered. |
| `GraphQueryCompiling.CompileGraphQuery` | internal/protocol/graph_query.go:524-557 | Compiles exactly the valid queries, to a valid plan that is the canonical form of the query. |
| `Expansion.ExpansionUnique` | adapters/kag/knote_kag_adapter.py:3531-3642 | The expansion is determined by the set of rows: permuting the claim list or changing the order clauses changes nothing. |
| `Expansion.FailuresIgnoreOrder` | adapters/kag/knote_kag_adapter.py:3547-3599 | Whether a selected claim is unbound and whether there are more than 100 targets do not depend on the order of the claim list or on the order clauses. |
| `Expansion.OutcomeUnique` | adapters/kag/knote_kag_adapter.py:3531-3642 | So the whole outcome, which failure or which expansion, is a function of the set of rows. |
| `Expansion.MutuallyComplete` | adapters/kag/knote_kag_adapter.py:3582-3642 | Every edge ends in a candidate scored at least as high as its source, and every candidate has an edge from a frontier resource of exactly its score. |
| `ExpansionFields.ExpandsByFields` | adapters/kag/knote_kag_adapter.py:3489-3642 | Every outcome by the fields of the rows: when each failure is reported; exactly one edge for each row that passes the predicate list and each filter on its own field and is reached by the frontier in the direction of the phase; exactly their ends as candidates, each with its best frontier score; both lists in order. |
| `ExpansionPhase.ClaimMatchesFilters` | adapters/kag/knote_kag_adapter.py:3489-3505 | A row matches exactly when it satisfies every filter. |
| `ExpansionPhase.CompareClaimRows` | adapters/kag/knote_kag_adapter.py:3508-3528 | The scan returns the comparison by the first clause that tells the rows apart. |
| `ExpansionPhase.ComparisonFlips` | adapters/kag/knote_kag_adapter.py:3508-3528 | Swapping the rows negates the comparison. |
| `ExpansionPhase.ComparisonTransitive` | adapters/kag/knote_kag_adapter.py:3508-3528 | The comparison is transitive, so sorting by it is well defined. |
| `ExpansionPhase.SelectClaims` | adapters/kag/knote_kag_adapter.py:3547-3575 | Keeps exactly the matching rows in order, and fails exactly when a selected claim is not properly bound, reached by the frontier or not. |
| `ExpansionPhase.SelectTargets` | adapters/kag/knote_kag_adapter.py:3582-3599 | Finds exactly the distinct targets and fails exactly when there are more than 100. |
| `ExpansionPhase.ScoreTargets` | adapters/kag/knote_kag_adapter.py:3600-3625 | Every target is scored by the maximum incident frontier score, with one edge a matching row. |
| `ExpansionPhase.ExpandPhase` | adapters/kag/knote_kag_adapter.py:3531-3642 | Fails exactly for a wrong limit, then for an unbound selected claim, then for more than 100 distinct targets; otherwise returns exactly the one-hop expansion: the outcome that is proved unique. |

## Left out

Representation:

- Identifiers, versions, tokens and names are natural numbers, zero where the source has an empty string; character-level format rules of IDs, tokens and digests are not modelled.
- Lists the source keeps sorted and duplicate-free are sets or maps in `Catalog`, so the sortedness checks on catalog records are not modelled. Graph bindings, claim tuples and tuple batches are sorted by an arbitrary rank that tells the values apart, which stands for the comparison of digests and names as strings.
- Digests are injective by construction: a plan is its own plan ID, an operation with its run its operation ID, graph object IDs and support keys are the contents they digest; the predicate digest is any injective function. The comparison of operations by ID, the last tie-break of the operation order, is not modelled.
- GraphUpgrade.ResourcesStayValid: leaves the order of the bindings open; `GraphListing.PermutedResources` adds it.
- GraphUpgrade.ClaimStaysValid: leaves the order within a claim open; `GraphListing.ListedValid` adds it.
- GraphUpgrade.UpgradeClaim: leaves the order of provenance and supports open; `GraphListing.ListClaim` adds it.
- GraphUpgrade.UpgradeGraphBindingContract: leaves all list orders open; `GraphListing.UpgradeListed` is the upgrade with them.
- GraphProjecting.ResourcesValid: leaves the order of the bindings open; `GraphListing.ProjectListed` adds it.
- GraphProjecting.ClaimValid: leaves the order within a claim open; `GraphListing.ListedValid` adds it.
- GraphProjecting.ClaimsValid: leaves the order of the claims open; `GraphListing.ListedValid` adds it.
- GraphProjecting.ProjectSupports: leaves the order of the supports open; `GraphListing.ListClaim` adds it.
- GraphProjecting.ProjectClaim: leaves the order of provenance open; `GraphListing.ListClaim` adds it.
- GraphProjecting.ProjectionGraphBindings: leaves all list orders open; `GraphListing.ProjectListed` is the derivation with them.
- Replaying.IndexResults: does not model the rejection of a malformed result; a result here always has an error code exactly when it failed.
- Flat field-by-field validators (snapshots, telemetry, manifests, envelopes, resource handles) are predicates with the fields the properties read.

Journal:

- A durable record is read back as it was written: JSON, file system calls, directory syncing, symlink checks and locks are replaced by atomic actions under one lock.
- Store.ProjectionStore.Execute: the executor is a map of replies fixed before the call, an operation without reply stands for a cancelled context, and the executed operation IDs appear as invocations in the log instead of in the report.
- Journal histories start from projections that applied no plan; a projection that already lists a plan based on itself could be initialized by hand.
- JournalRecovery.RecoveryExact: excludes histories with rollbacks, because a rollback does not reconcile an unfinished owner; crash safety and executor discipline include them.
- Applied plan IDs are a set of plans and receipts a map by operation, so their order in a projection is not modelled, and a receipt written by hand for an operation of the plan being replayed is replaced where the source keeps both.
- Revocation.PlanRevocations: checks run and base before it runs the worklist where the source leaves both to the resource planner, so for an acceptable request on an invalid run or base only the refusal is modelled and not which error is reported.

Revisions:

- Reservation counters and cache revisions are unbounded; the 64-bit wrap of the revision epoch is modelled, theirs is not.
- RevisionProtocol.StepKeeps: writing tuples is one step without effect on the protocol's own state; `GatedRewrites` adds the store and its batches.
- RevisionProtocol.ReaderConsistency: a begin step does not check that the authorization context names the revision, so the model allows more readers than the source does; `Reconciling.PermissionedRevisionState.Begin` states the check.
- GatedRewrites.ReadersSeeWholeClaims: a batch is one transaction that happens or does not; a request whose outcome the writer never learns is one of the two.
- Nil receivers and nil collaborators are not modelled.
- The page-token parts of the cache.

Authorizer:

- LocalAuthorization.LocalAuthorizer.Evaluate: has no context failures, and passes the set of visited keys as a value where the source inserts and removes keys of one map.
- ClaimTuples.ProjectCatalogClaimTuples: authorization objects are read by an arbitrary injective function into references, which stands for parsing them, and tuples are sorted by an arbitrary injective rank; every refusal is one answer without its message.
- Batch checks, decisions with their metadata and the listing of tuples, which wrap the operations modelled.

Graph:

- Candidate scores are reals between 0 and 1; rounding is not modelled, and no score is computed beyond a maximum.
- Query paging, descriptor decoding, and the not-found and invalid-plan errors with their metadata.

Not modelled at all: `PlanFullReconciliation`, which checks that the documents of a catalog rebuild the source snapshot and hands its resources to `Planner.PlanResources`; telemetry; the OpenFGA client and HTTP; the Python adapter outside `phase_expansion`; session events, slash commands, TUI, configuration and the command line.
