/**
 The projection journal: its durable records, and every store operation as the
 exact sequence of atomic actions it performs. A process can stop between any
 two actions, so an interrupted operation leaves some prefix of its sequence.
 */
module Journal {
  import opened Wrappers
  import opened Catalog
  import opened Replaying

  // Durable state.

  datatype Owner = Owner(run: RunID, plan: Plan)

  datatype Pointer = Pointer(scope: Scope, version: Version, snapshotVersion: Version, owner: Option<Owner>)

  datatype ResultKey = ResultKey(run: RunID, operation: Operation)

  /** `verdicts` are the per-run projections, `projections` the serving candidates. */
  datatype Disk = Disk(
    plans: map<RunID, Plan>,
    runs: map<RunID, SyncRun>,
    results: map<ResultKey, Outcome>,
    verdicts: map<RunID, Projection>,
    projections: map<Version, Projection>,
    pointer: Option<Pointer>)

  const EmptyDisk := Disk(map[], map[], map[], map[], map[], None)

  /** One atomic durable write, or one call of the operation executor. */
  datatype Action =
    | PutPlan(plan: Plan)
    | PutRun(run: SyncRun)
    | PutResult(key: ResultKey, outcome: Outcome)
    | PutVerdict(owner: RunID, verdict: Projection)
    | PutProjection(candidate: Projection)
    | PutPointer(pointer: Pointer)
    | RemoveProjection(version: Version)
    | Invoke(key: ResultKey)

  function Apply(d: Disk, a: Action): Disk {
    match a
    case PutPlan(plan) => d.(plans := d.plans[plan.run.id := plan])
    case PutRun(run) => d.(runs := d.runs[run.id := run])
    case PutResult(key, outcome) => d.(results := d.results[key := outcome])
    case PutVerdict(owner, verdict) => d.(verdicts := d.verdicts[owner := verdict])
    case PutProjection(candidate) => d.(projections := d.projections[candidate.version := candidate])
    case PutPointer(pointer) => d.(pointer := Some(pointer))
    case RemoveProjection(version) => d.(projections := d.projections - {version})
    case Invoke(_) => d
  }

  function Run(d: Disk, actions: seq<Action>): Disk
    decreases |actions|
  {
    if actions == [] then d else Run(Apply(d, actions[0]), actions[1..])
  }

  datatype StoreError =
    | InvalidInput
    | JournalConflict
    | MissingRecord
    | IncompleteReceipts
    | StaleServingPointer
    | ReplayFailed
    | PreflightFailed

  datatype Execution = Execution(
    projection: Projection, runState: RunState, pointer: Pointer, pointerAdvanced: bool, idempotentNoop: bool)

  /** What an operation does to the disk, action by action, and what it returns. */
  datatype Effect<+T> = Effect(actions: seq<Action>, result: Result<T, StoreError>)

  function Fails<T>(e: StoreError): Effect<T> {
    Effect([], Err(e))
  }

  function Returns<T>(value: T): Effect<T> {
    Effect([], Ok(value))
  }

  function After<T>(actions: seq<Action>, rest: Effect<T>): Effect<T> {
    Effect(actions + rest.actions, rest.result)
  }

  // Records.

  predicate SameIdentity(left: SyncRun, right: SyncRun) {
    left.(state := RunStaged) == right.(state := RunStaged)
  }

  predicate HasResult(d: Disk, plan: Plan, op: Operation) {
    ResultKey(plan.run.id, op) in d.results
  }

  predicate Complete(d: Disk, plan: Plan) {
    forall op | op in plan.operations :: HasResult(d, plan, op)
  }

  /** The receipts of a plan, in plan order. */
  function ResultsOf(d: Disk, plan: Plan): seq<OperationResult>
    requires Complete(d, plan)
  {
    seq(|plan.operations|, i requires 0 <= i < |plan.operations| =>
      assert HasResult(d, plan, plan.operations[i]);
      OperationResult(plan.operations[i], d.results[ResultKey(plan.run.id, plan.operations[i])]))
  }

  predicate AllReceiptsSucceeded(d: Disk, plan: Plan) {
    forall op | op in plan.operations ::
      HasResult(d, plan, op) && d.results[ResultKey(plan.run.id, op)].OperationSucceeded?
  }

  predicate AnyReceiptFailed(d: Disk, plan: Plan) {
    exists op | op in plan.operations ::
      HasResult(d, plan, op) && d.results[ResultKey(plan.run.id, op)].OperationFailed?
  }

  /** Error codes outside the journal's own vocabulary are not persisted. */
  function CanonicalOutcome(outcome: Outcome): Outcome {
    if outcome.OperationFailed? && outcome.error.ForeignCode? then OperationFailed(OperationFailedCode) else outcome
  }

  // Staging and recording.

  function StagePlan(d: Disk, plan: Plan): Effect<()> {
    var id := plan.run.id;
    if !ValidPlan(plan) then Fails(InvalidInput)
    else if id in d.plans && d.plans[id] != plan then Fails(JournalConflict)
    else
      var planned := if id in d.plans then [] else [PutPlan(plan)];
      if id !in d.runs then Effect(planned + [PutRun(plan.run)], Ok(()))
      else if !SameIdentity(d.runs[id], plan.run) then Effect(planned, Err(JournalConflict))
      else Effect(planned, Ok(()))
  }

  function RecordStaged(d: Disk, plan: Plan, op: Operation, outcome: Outcome): Effect<()> {
    var key := ResultKey(plan.run.id, op);
    if op !in plan.operations then Fails(InvalidInput)
    else if key !in d.results then Effect([PutResult(key, CanonicalOutcome(outcome))], Ok(()))
    else if d.results[key] != CanonicalOutcome(outcome) then Fails(JournalConflict)
    else Returns(())
  }

  function RecordResult(d: Disk, plan: Plan, op: Operation, outcome: Outcome): Effect<()> {
    var staged := StagePlan(d, plan);
    if staged.result.Err? then staged
    else After(staged.actions, RecordStaged(Run(d, staged.actions), plan, op, outcome))
  }

  // Reading back.

  function PersistedExecution(d: Disk, plan: Plan, state: RunState): Effect<Execution> {
    if plan.run.id !in d.verdicts || d.pointer.None? then Fails(MissingRecord)
    else Returns(Execution(d.verdicts[plan.run.id], state, d.pointer.value, false, true))
  }

  predicate VerifiesBase(d: Disk, plan: Plan, current: Projection) {
    && current.version == plan.run.base
    && current.scope == plan.run.scope
    && current.version in d.projections
    && d.projections[current.version] == current
  }

  predicate MatchesBase(pointer: Pointer, plan: Plan, current: Projection) {
    && pointer.scope == plan.run.scope
    && pointer.version == plan.run.base
    && pointer.snapshotVersion == current.snapshot.version
  }

  predicate OwnedBy(pointer: Pointer, plan: Plan) {
    pointer.version == plan.run.version && pointer.owner == Some(Owner(plan.run.id, plan))
  }

  /** Writes a run's projection once, then its terminal record. */
  function Conclude(d: Disk, plan: Plan, verdict: Projection, run: SyncRun): Effect<()> {
    if verdict.version != plan.run.version || verdict.scope != plan.run.scope then Fails(JournalConflict)
    else if plan.run.id !in d.verdicts then Effect([PutVerdict(plan.run.id, verdict), PutRun(run)], Ok(()))
    else if d.verdicts[plan.run.id] != verdict then Fails(JournalConflict)
    else Effect([PutRun(run)], Ok(()))
  }

  // Reconciling the pointer's owner.

  function ReconcileUnfinished(d: Disk, pointer: Pointer, plan: Plan, run: SyncRun): Effect<()> {
    if !AllReceiptsSucceeded(d, plan) then Fails(JournalConflict)
    else if plan.run.base !in d.projections then Fails(MissingRecord)
    else
      match Replay(plan, d.projections[plan.run.base], ResultsOf(d, plan))
      case Err(_) => Fails(ReplayFailed)
      case Ok((projection, report)) =>
        if !projection.state.StatePublished? || !report.runState.RunSucceeded?
           || projection.snapshot.version != pointer.snapshotVersion then Fails(JournalConflict)
        else if pointer.version !in d.projections then Fails(MissingRecord)
        else if d.projections[pointer.version] != projection then Fails(JournalConflict)
        else Conclude(d, plan, projection, run.(state := RunSucceeded))
  }

  /** Finishes the run the pointer belongs to before anything may replace it. */
  function Reconcile(d: Disk, pointer: Pointer): Effect<()> {
    match pointer.owner
    case None => Returns(())
    case Some(Owner(id, ownerPlan)) =>
      if id !in d.plans || id !in d.runs then Fails(MissingRecord)
      else
        var plan, run := d.plans[id], d.runs[id];
        if plan != ownerPlan || plan.run.id != id || plan.run.version != pointer.version
           || plan.run.scope != pointer.scope || !SameIdentity(run, plan.run) || run.state.RunFailed? then
          Fails(JournalConflict)
        else if run.state.RunSucceeded? then
          if id !in d.verdicts || pointer.version !in d.projections then Fails(MissingRecord)
          else if d.verdicts[id] != d.projections[pointer.version] then Fails(JournalConflict)
          else Returns(())
        else ReconcileUnfinished(d, pointer, plan, run)
  }

  // Failing a run whose base is no longer served.

  /** Receipts for the operations that have none. */
  function StaleReceipts(d: Disk, plan: Plan, ops: seq<Operation>): seq<Action> {
    if ops == [] then []
    else
      (if HasResult(d, plan, ops[0]) then []
       else [PutResult(ResultKey(plan.run.id, ops[0]), OperationFailed(StaleBaseProjection))])
      + StaleReceipts(d, plan, ops[1..])
  }

  /** A projection that was reduced successfully but may no longer serve. */
  function Demoted(p: Projection): Projection {
    p.(state := StateFailed,
       resources := map id | id in p.resources ::
         if p.resources[id].IsServing() then p.resources[id].(state := StateStaged) else p.resources[id])
  }

  function StaleVerdict(plan: Plan, current: Projection, results: seq<OperationResult>): Result<Projection, StoreError> {
    match Replay(plan, current, results)
    case Err(_) => Err(ReplayFailed)
    case Ok((projection, report)) =>
      var verdict := if report.runState.RunSucceeded? then Demoted(projection) else projection;
      if !ValidProjection(verdict) then Err(InvalidInput)
      else if !verdict.state.StateFailed? then Err(JournalConflict)
      else Ok(verdict)
  }

  function StaleConcluded(d: Disk, plan: Plan, current: Projection, pointer: Pointer): Effect<Execution> {
    if !Complete(d, plan) then Fails(IncompleteReceipts)
    else
      match StaleVerdict(plan, current, ResultsOf(d, plan))
      case Err(e) => Fails(e)
      case Ok(verdict) =>
        var concluded := Conclude(d, plan, verdict, plan.run.(state := RunFailed));
        if concluded.result.Err? then Fails(concluded.result.error)
        else Effect(concluded.actions, Ok(Execution(verdict, RunFailed, pointer, false, false)))
  }

  function StaleFailure(d: Disk, plan: Plan, current: Projection, pointer: Pointer): Effect<Execution> {
    var receipts := StaleReceipts(d, plan, plan.operations);
    After(receipts, StaleConcluded(Run(d, receipts), plan, current, pointer))
  }

  // Finalizing.

  function Named(p: Projection, owner: Option<Owner>): Pointer {
    Pointer(p.scope, p.version, p.snapshot.version, owner)
  }

  /** Candidate, pointer, run projection, run record: the order of publication. */
  function PublishCandidate(d: Disk, plan: Plan, projection: Projection, run: SyncRun): Effect<Execution> {
    if projection.version in d.projections && d.projections[projection.version] != projection then
      Fails(JournalConflict)
    else
      var next := Named(projection, Some(Owner(plan.run.id, plan)));
      var moved := (if projection.version in d.projections then [] else [PutProjection(projection)]) + [PutPointer(next)];
      var concluded := Conclude(Run(d, moved), plan, projection, run.(state := RunSucceeded));
      if concluded.result.Err? then Effect(moved, Err(concluded.result.error))
      else Effect(moved + concluded.actions, Ok(Execution(projection, RunSucceeded, next, true, false)))
  }

  function FailRun(d: Disk, plan: Plan, projection: Projection, run: SyncRun, pointer: Pointer): Effect<Execution> {
    var concluded := Conclude(d, plan, projection, run.(state := RunFailed));
    if concluded.result.Err? then Fails(concluded.result.error)
    else Effect(concluded.actions, Ok(Execution(projection, RunFailed, pointer, false, false)))
  }

  function FinalizeServing(d: Disk, plan: Plan, current: Projection, pointer: Pointer, run: SyncRun): Effect<Execution> {
    if !Complete(d, plan) then Fails(IncompleteReceipts)
    else
      match Replay(plan, current, ResultsOf(d, plan))
      case Err(_) => Fails(ReplayFailed)
      case Ok((projection, report)) =>
        if report.runState.RunFailed? then FailRun(d, plan, projection, run, pointer)
        else if !projection.state.StatePublished? then Fails(ReplayFailed)
        else PublishCandidate(d, plan, projection, run)
  }

  /** The branch for a pointer the plan already owns. */
  function FinalizeOwned(d: Disk, plan: Plan, current: Projection, pointer: Pointer, run: SyncRun): Effect<Execution> {
    if !Complete(d, plan) then Fails(IncompleteReceipts)
    else
      match Replay(plan, current, ResultsOf(d, plan))
      case Err(_) => Fails(ReplayFailed)
      case Ok((projection, report)) =>
        if !projection.state.StatePublished? || !report.runState.RunSucceeded? then Fails(JournalConflict)
        else
          var concluded := Conclude(d, plan, projection, run.(state := RunSucceeded));
          if concluded.result.Err? then Fails(concluded.result.error)
          else Effect(concluded.actions, Ok(Execution(projection, RunSucceeded, pointer, false, true)))
  }

  /** A stale plan fails its run and the call reports the stale pointer. */
  function FailStale(d: Disk, plan: Plan, current: Projection, pointer: Pointer): Effect<Execution> {
    var failed := StaleFailure(d, plan, current, pointer);
    Effect(failed.actions, Err(if failed.result.Err? then failed.result.error else StaleServingPointer))
  }

  function FinalizeReconciled(d: Disk, plan: Plan, current: Projection, pointer: Pointer): Effect<Execution> {
    if plan.run.id !in d.runs then Fails(MissingRecord)
    else
      var run := d.runs[plan.run.id];
      if run.state.IsTerminal() then PersistedExecution(d, plan, run.state)
      else if !VerifiesBase(d, plan, current) then Fails(JournalConflict)
      else if MatchesBase(pointer, plan, current) then FinalizeServing(d, plan, current, pointer, run)
      else if OwnedBy(pointer, plan) then FinalizeOwned(d, plan, current, pointer, run)
      else FailStale(d, plan, current, pointer)
  }

  function FinalizeStaged(d: Disk, plan: Plan, current: Projection): Effect<Execution> {
    if !ValidProjection(current) || current.scope != plan.run.scope || current.version != plan.run.base then
      Fails(InvalidInput)
    else if plan.run.id !in d.runs then Fails(MissingRecord)
    else if d.runs[plan.run.id].state.IsTerminal() then PersistedExecution(d, plan, d.runs[plan.run.id].state)
    else if d.pointer.None? then Fails(MissingRecord)
    else
      var reconciled := Reconcile(d, d.pointer.value);
      if reconciled.result.Err? then Fails(reconciled.result.error)
      else After(reconciled.actions, FinalizeReconciled(Run(d, reconciled.actions), plan, current, d.pointer.value))
  }

  function Finalize(d: Disk, plan: Plan, current: Projection): Effect<Execution> {
    var staged := StagePlan(d, plan);
    if staged.result.Err? then Effect(staged.actions, Err(staged.result.error))
    else After(staged.actions, FinalizeStaged(Run(d, staged.actions), plan, current))
  }

  // Executing.

  /** What the executor answers; an operation without a reply found its context cancelled. */
  datatype Reply = ExecutionError | Reply(operation: Operation, outcome: Outcome, wellFormed: bool)

  function ReplyOutcome(op: Operation, reply: Reply): Outcome {
    match reply
    case ExecutionError => OperationFailed(ExecutionFailed)
    case Reply(answered, outcome, wellFormed) =>
      if answered == op && wellFormed then outcome else OperationFailed(InvalidOperationResult)
  }

  function AttemptOutcome(op: Operation, failed: bool, replies: map<Operation, Reply>): Outcome {
    if failed then OperationFailed(OperationBlocked)
    else if op in replies then CanonicalOutcome(ReplyOutcome(op, replies[op]))
    else OperationFailed(ContextCancelled)
  }

  /** The executor reports success, well formed and for this very operation. */
  predicate Delivers(op: Operation, replies: map<Operation, Reply>) {
    && op in replies
    && replies[op].Reply?
    && replies[op].operation == op
    && replies[op].wellFormed
    && replies[op].outcome.OperationSucceeded?
  }

  /** Invokes the executor unless the run already failed, then records the receipt. */
  function Attempt(plan: Plan, op: Operation, failed: bool, replies: map<Operation, Reply>): seq<Action> {
    var key := ResultKey(plan.run.id, op);
    (if !failed && op in replies then [Invoke(key)] else [])
    + [PutResult(key, AttemptOutcome(op, failed, replies))]
  }

  function Attempts(
    d: Disk, plan: Plan, ops: seq<Operation>, failed: bool, replies: map<Operation, Reply>): seq<Action>
  {
    if ops == [] then []
    else if HasResult(d, plan, ops[0]) then Attempts(d, plan, ops[1..], failed, replies)
    else
      Attempt(plan, ops[0], failed, replies)
      + Attempts(d, plan, ops[1..], failed || AttemptOutcome(ops[0], failed, replies).OperationFailed?, replies)
  }

  function ExecuteServing(
    d: Disk, plan: Plan, current: Projection, replies: map<Operation, Reply>): Effect<Execution>
    requires plan.run.id in d.runs
  {
    if !ReplayablePlan(plan, current) then Fails(PreflightFailed)
    else
      var started := [PutRun(d.runs[plan.run.id].(state := RunRunning))];
      var attempts := Attempts(d, plan, plan.operations, AnyReceiptFailed(d, plan), replies);
      var ran := started + attempts;
      After(ran, Finalize(Run(d, ran), plan, current))
  }

  function ExecuteReconciled(
    d: Disk, plan: Plan, current: Projection, pointer: Pointer, replies: map<Operation, Reply>): Effect<Execution>
  {
    if plan.run.id !in d.runs then Fails(MissingRecord)
    else
      var run := d.runs[plan.run.id];
      if run.state.IsTerminal() then PersistedExecution(d, plan, run.state)
      else if !VerifiesBase(d, plan, current) then Fails(JournalConflict)
      else if MatchesBase(pointer, plan, current) then ExecuteServing(d, plan, current, replies)
      else if OwnedBy(pointer, plan) then Finalize(d, plan, current)
      else FailStale(d, plan, current, pointer)
  }

  function ExecuteStaged(
    d: Disk, plan: Plan, current: Projection, replies: map<Operation, Reply>): Effect<Execution>
  {
    if !ValidProjection(current) || current.scope != plan.run.scope || current.version != plan.run.base then
      Fails(InvalidInput)
    else if plan.run.id !in d.runs then Fails(MissingRecord)
    else if d.runs[plan.run.id].state.IsTerminal() then PersistedExecution(d, plan, d.runs[plan.run.id].state)
    else if d.pointer.None? then Fails(MissingRecord)
    else
      var reconciled := Reconcile(d, d.pointer.value);
      if reconciled.result.Err? then Fails(reconciled.result.error)
      else
        After(reconciled.actions,
              ExecuteReconciled(Run(d, reconciled.actions), plan, current, d.pointer.value, replies))
  }

  function Execute(d: Disk, plan: Plan, current: Projection, replies: map<Operation, Reply>): Effect<Execution> {
    var staged := StagePlan(d, plan);
    if staged.result.Err? then Effect(staged.actions, Err(staged.result.error))
    else After(staged.actions, ExecuteStaged(Run(d, staged.actions), plan, current, replies))
  }

  // Initializing and rolling back.

  function InitializeServing(d: Disk, projection: Projection): Effect<()> {
    if !ValidProjection(projection) || !projection.state.StatePublished? then Fails(InvalidInput)
    else if d.pointer.Some? then
      if && d.pointer.value.scope == projection.scope
         && d.pointer.value.version == projection.version
         && projection.version in d.projections
         && d.projections[projection.version] == projection
      then Returns(())
      else Fails(JournalConflict)
    else if projection.version in d.projections && d.projections[projection.version] != projection then
      Fails(JournalConflict)
    else
      Effect((if projection.version in d.projections then [] else [PutProjection(projection)])
             + [PutPointer(Named(projection, None))], Ok(()))
  }

  function RollbackServing(d: Disk, plan: Plan, base: Projection): Effect<()> {
    if !ValidPlan(plan) || !ValidProjection(base) then Fails(InvalidInput)
    else if d.pointer.None? then Fails(MissingRecord)
    else if d.pointer.value.scope != plan.run.scope || !OwnedBy(d.pointer.value, plan) then
      Fails(StaleServingPointer)
    else if !VerifiesBase(d, plan, base) then Fails(JournalConflict)
    else Effect([PutPointer(Named(base, None)), RemoveProjection(plan.run.version)], Ok(()))
  }

  // Histories.

  datatype Call =
    | CallInitialize(initial: Projection)
    | CallStage(plan: Plan)
    | CallRecord(plan: Plan, operation: Operation, outcome: Outcome)
    | CallFinalize(plan: Plan, current: Projection)
    | CallExecute(plan: Plan, current: Projection, replies: map<Operation, Reply>)
    | CallRollback(plan: Plan, base: Projection)

  function ActionsOf(d: Disk, call: Call): seq<Action> {
    match call
    case CallInitialize(initial) => InitializeServing(d, initial).actions
    case CallStage(plan) => StagePlan(d, plan).actions
    case CallRecord(plan, op, outcome) => RecordResult(d, plan, op, outcome).actions
    case CallFinalize(plan, current) => Finalize(d, plan, current).actions
    case CallExecute(plan, current, replies) => Execute(d, plan, current, replies).actions
    case CallRollback(plan, base) => RollbackServing(d, plan, base).actions
  }

  /** A call the process survives for `cut` actions at most. */
  datatype Event = Event(call: Call, cut: nat)

  function Performed(d: Disk, event: Event): seq<Action> {
    var actions := ActionsOf(d, event.call);
    if event.cut < |actions| then actions[..event.cut] else actions
  }

  /** Everything a history performed, oldest first. */
  function Log(history: seq<Event>): seq<Action> {
    if history == [] then []
    else
      var earlier := history[..|history| - 1];
      Log(earlier) + Performed(Run(EmptyDisk, Log(earlier)), history[|history| - 1])
  }

  function DiskAfter(history: seq<Event>): Disk {
    Run(EmptyDisk, Log(history))
  }
}
