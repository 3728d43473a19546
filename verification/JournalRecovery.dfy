/**
 Recovery over histories without rollback: exactly when executing a plan brings
 its run to a terminal record, whatever an earlier crash left behind.
 */
module JournalRecovery {
  import opened Wrappers
  import opened Catalog
  import opened Replaying
  import opened PlanReplay
  import opened Journal
  import opened JournalSafety
  import opened JournalGuards
  import opened JournalPublication

  // What holds without rollbacks.

  /** A verdict of an unfinished run that does not serve is its stale verdict. */
  predicate VerdictsOk(d: Disk) {
    forall id | id in d.verdicts ::
      && id in d.runs && id in d.plans
      && (Unfinished(d, id) && !Owns(d, id) ==> StaleVerdictOf(d, d.plans[id], d.verdicts[id]))
  }

  /** The pointer moves forward only, and projections stay. */
  predicate Forward(d: Disk, a: Action) {
    && !a.RemoveProjection?
    && (a.PutPointer? && a.pointer.owner.None? ==> d.pointer.None?)
  }

  lemma StaleVerdictFrame(d: Disk, e: Disk, plan: Plan, verdict: Projection)
    requires StaleVerdictOf(d, plan, verdict)
    requires KeepsResults(d, e)
    requires plan.run.base in e.projections && e.projections[plan.run.base] == d.projections[plan.run.base]
    ensures StaleVerdictOf(e, plan, verdict)
  {
    assert forall op | op in plan.operations :: HasResult(d, plan, op);
    ResultsFrame(d, e, plan);
  }

  /** An action that keeps plans, receipts and projections keeps the verdicts sound. */
  lemma VerdictsFrame(d: Disk, e: Disk)
    requires VerdictsOk(d) && KeepsResults(d, e)
    requires forall version | version in d.projections ::
               version in e.projections && e.projections[version] == d.projections[version]
    requires forall id | id in d.plans :: id in e.plans && e.plans[id] == d.plans[id]
    requires e.verdicts == d.verdicts
    requires forall id | id in d.runs :: id in e.runs
    requires forall id | id in d.verdicts && Unfinished(e, id) && !Owns(e, id) :: Unfinished(d, id) && !Owns(d, id)
    ensures VerdictsOk(e)
  {
    forall id | id in e.verdicts && Unfinished(e, id) && !Owns(e, id)
      ensures StaleVerdictOf(e, e.plans[id], e.verdicts[id])
    {
      StaleVerdictFrame(d, e, d.plans[id], d.verdicts[id]);
    }
  }

  lemma VerdictAdded(d: Disk, owner: RunID, verdict: Projection)
    requires VerdictsOk(d) && Allowed(d, PutVerdict(owner, verdict))
    ensures VerdictsOk(Apply(d, PutVerdict(owner, verdict)))
  {
    var e := Apply(d, PutVerdict(owner, verdict));
    forall id | id in e.verdicts && Unfinished(e, id) && !Owns(e, id)
      ensures StaleVerdictOf(e, e.plans[id], e.verdicts[id])
    {
      StaleVerdictFrame(d, e, d.plans[id], e.verdicts[id]);
    }
  }

  lemma StepKeepsVerdicts(d: Disk, a: Action)
    requires VerdictsOk(d) && Allowed(d, a) && Forward(d, a)
    ensures VerdictsOk(Apply(d, a))
  {
    if a.PutVerdict? {
      VerdictAdded(d, a.owner, a.verdict);
    } else {
      VerdictsFrame(d, Apply(d, a));
    }
  }

  predicate ForwardOnly(actions: seq<Action>) {
    forall a | a in actions :: !a.RemoveProjection? && (a.PutPointer? ==> a.pointer.owner.Some?)
  }

  lemma {:induction false} ForwardKeepsVerdicts(d: Disk, actions: seq<Action>)
    requires VerdictsOk(d) && Guarded(d, actions)
    requires ForwardOnly(actions)
    ensures VerdictsOk(Run(d, actions))
    decreases |actions|
  {
    if actions != [] {
      StepKeepsVerdicts(d, actions[0]);
      ForwardKeepsVerdicts(Apply(d, actions[0]), actions[1..]);
    }
  }

  // Calls other than rollback only move forward.

  lemma StageForward(d: Disk, plan: Plan)
    ensures ForwardOnly(StagePlan(d, plan).actions)
  {
  }

  lemma ReconcileForward(d: Disk, pointer: Pointer)
    ensures ForwardOnly(Reconcile(d, pointer).actions)
  {
  }

  lemma {:induction false} StaleReceiptsForward(d: Disk, plan: Plan, ops: seq<Operation>)
    ensures ForwardOnly(StaleReceipts(d, plan, ops))
    decreases |ops|
  {
    if ops != [] {
      StaleReceiptsForward(d, plan, ops[1..]);
    }
  }

  lemma {:induction false} AttemptsForward(
    d: Disk, plan: Plan, ops: seq<Operation>, failed: bool, replies: map<Operation, Reply>)
    ensures ForwardOnly(Attempts(d, plan, ops, failed, replies))
    decreases |ops|
  {
    if ops != [] {
      AttemptsForward(d, plan, ops[1..], failed, replies);
      AttemptsForward(d, plan, ops[1..], failed || AttemptOutcome(ops[0], failed, replies).OperationFailed?, replies);
    }
  }

  lemma FailStaleForward(d: Disk, plan: Plan, current: Projection, pointer: Pointer)
    ensures ForwardOnly(FailStale(d, plan, current, pointer).actions)
  {
    hide Replay, ValidProjection, Demoted, StaleVerdict, ResultsOf, ValidPlan;
    StaleReceiptsForward(d, plan, plan.operations);
  }

  lemma PublishForward(d: Disk, plan: Plan, p: Projection, run: SyncRun)
    ensures ForwardOnly(PublishCandidate(d, plan, p, run).actions)
  {
  }

  lemma FinalizeServingForward(d: Disk, plan: Plan, current: Projection, pointer: Pointer, run: SyncRun)
    ensures ForwardOnly(FinalizeServing(d, plan, current, pointer, run).actions)
    ensures ForwardOnly(FinalizeOwned(d, plan, current, pointer, run).actions)
  {
    hide Replay, ValidProjection;
    if Complete(d, plan) && Replay(plan, current, ResultsOf(d, plan)).Ok? {
      PublishForward(d, plan, Replay(plan, current, ResultsOf(d, plan)).value.0, run);
    }
  }

  lemma FinalizeReconciledForward(d: Disk, plan: Plan, current: Projection, pointer: Pointer)
    ensures ForwardOnly(FinalizeReconciled(d, plan, current, pointer).actions)
  {
    hide FailStale, FinalizeServing, FinalizeOwned, VerifiesBase, MatchesBase, OwnedBy;
    FailStaleForward(d, plan, current, pointer);
    if plan.run.id in d.runs {
      FinalizeServingForward(d, plan, current, pointer, d.runs[plan.run.id]);
    }
  }

  lemma FinalizeForward(d: Disk, plan: Plan, current: Projection)
    ensures ForwardOnly(Finalize(d, plan, current).actions)
  {
    StageForward(d, plan);
    var e := Run(d, StagePlan(d, plan).actions);
    if e.pointer.Some? {
      ReconcileForward(e, e.pointer.value);
      FinalizeReconciledForward(Run(e, Reconcile(e, e.pointer.value).actions), plan, current, e.pointer.value);
    }
  }

  lemma ExecuteReconciledForward(
    d: Disk, plan: Plan, current: Projection, pointer: Pointer, replies: map<Operation, Reply>)
    ensures ForwardOnly(ExecuteReconciled(d, plan, current, pointer, replies).actions)
  {
    hide Replay, ValidProjection, ValidPlan, Finalize, FailStale, Attempts, ReplayablePlan;
    FailStaleForward(d, plan, current, pointer);
    FinalizeForward(d, plan, current);
    if plan.run.id in d.runs {
      var started := [PutRun(d.runs[plan.run.id].(state := RunRunning))];
      var attempts := Attempts(d, plan, plan.operations, AnyReceiptFailed(d, plan), replies);
      AttemptsForward(d, plan, plan.operations, AnyReceiptFailed(d, plan), replies);
      FinalizeForward(Run(d, started + attempts), plan, current);
    }
  }

  lemma ExecuteForward(d: Disk, plan: Plan, current: Projection, replies: map<Operation, Reply>)
    ensures ForwardOnly(Execute(d, plan, current, replies).actions)
  {
    StageForward(d, plan);
    var e := Run(d, StagePlan(d, plan).actions);
    if e.pointer.Some? {
      ReconcileForward(e, e.pointer.value);
      ExecuteReconciledForward(Run(e, Reconcile(e, e.pointer.value).actions), plan, current, e.pointer.value, replies);
    }
  }

  lemma InitializeKeepsVerdicts(d: Disk, initial: Projection, n: nat)
    requires Inv(d) && VerdictsOk(d) && initial.applied == {}
    requires n <= |InitializeServing(d, initial).actions|
    ensures VerdictsOk(Run(d, InitializeServing(d, initial).actions[..n]))
  {
    hide ValidProjection, StaleVerdictOf, ValidPlan;
    InitializeSound(d, initial);
    var actions := InitializeServing(d, initial).actions;
    if actions != [] && n > 0 {
      StepKeepsVerdicts(d, actions[0]);
      var e := Apply(d, actions[0]);
      if n == 2 {
        StepKeepsVerdicts(e, actions[1]);
        assert actions[..n] == [actions[0], actions[1]];
        RunAppend(d, [actions[0]], [actions[1]]);
        assert [actions[0]] + [actions[1]] == actions[..n];
      } else {
        assert actions[..n] == [actions[0]];
      }
    }
  }

  predicate WithoutRollback(history: seq<Event>) {
    forall event | event in history :: !event.call.CallRollback?
  }

  lemma RecordForward(d: Disk, plan: Plan, op: Operation, outcome: Outcome)
    ensures ForwardOnly(RecordResult(d, plan, op, outcome).actions)
  {
    StageForward(d, plan);
  }

  lemma CallOnlyForward(d: Disk, call: Call)
    requires !call.CallRollback? && !call.CallInitialize?
    ensures ForwardOnly(ActionsOf(d, call))
  {
    hide Finalize, Execute, RecordResult, StagePlan, ForwardOnly;
    match call {
      case CallStage(plan) => StageForward(d, plan);
      case CallRecord(plan, op, outcome) => RecordForward(d, plan, op, outcome);
      case CallFinalize(plan, current) => FinalizeForward(d, plan, current);
      case CallExecute(plan, current, replies) => ExecuteForward(d, plan, current, replies);
    }
  }

  lemma PrefixForward(actions: seq<Action>, n: nat)
    requires ForwardOnly(actions) && n <= |actions|
    ensures ForwardOnly(actions[..n])
  {
  }

  lemma CallKeepsVerdicts(d: Disk, event: Event)
    requires Inv(d) && VerdictsOk(d) && StartsFresh(event.call) && !event.call.CallRollback?
    ensures VerdictsOk(Run(d, Performed(d, event)))
  {
    hide Inv, VerdictsOk, InitializeServing, ForwardOnly, Guarded, Run;
    CallSound(d, event.call);
    var actions := ActionsOf(d, event.call);
    var n := |Performed(d, event)|;
    assert Performed(d, event) == actions[..n];
    if event.call.CallInitialize? {
      InitializeKeepsVerdicts(d, event.call.initial, n);
    } else {
      CallOnlyForward(d, event.call);
      PrefixForward(actions, n);
      GuardedPrefix(d, actions, n);
      ForwardKeepsVerdicts(d, actions[..n]);
    }
  }

  lemma {:induction false} HistoryKeepsVerdicts(history: seq<Event>)
    requires Fresh(history) && WithoutRollback(history)
    ensures Inv(DiskAfter(history)) && VerdictsOk(DiskAfter(history))
    decreases |history|
  {
    HistoryKeeps(history);
    if history != [] {
      var earlier, event := history[..|history| - 1], history[|history| - 1];
      assert forall e | e in earlier :: e in history;
      HistoryKeeps(earlier);
      HistoryKeepsVerdicts(earlier);
      assert event in history;
      CallKeepsVerdicts(DiskAfter(earlier), event);
      RunAppend(EmptyDisk, Log(earlier), Performed(DiskAfter(earlier), event));
    }
  }

  // Exactly when a run recovers.

  predicate Finished(d: Disk, id: RunID) {
    id in d.runs && d.runs[id].state.IsTerminal()
  }

  /** The pointer's unfinished owner holds a verdict that is not what it serves. */
  predicate Wedged(d: Disk) {
    d.pointer.Some? && d.pointer.value.owner.Some? &&
    var pointer, id := d.pointer.value, d.pointer.value.owner.value.run;
    && Unfinished(d, id)
    && id in d.verdicts
    && pointer.version in d.projections
    && d.verdicts[id] != d.projections[pointer.version]
  }

  lemma ReconcileOutcome(d: Disk, pointer: Pointer)
    requires Inv(d) && d.pointer == Some(pointer)
    ensures Reconcile(d, pointer).result.Ok? <==> !Wedged(d)
    ensures OwnerSettled(d) ==> Reconcile(d, pointer) == Returns(())
  {
    hide ValidProjection, Replay, ValidPlan;
    if pointer.owner.Some? {
      var owner := pointer.owner.value;
      assert OwnerOk(d, pointer, owner);
      CandidateFacts(d, owner.plan, d.projections[pointer.version]);
      if Unfinished(d, owner.run) {
        ReconcileConcludes(d, pointer, owner);
      }
    }
  }

  /** What a plan publishes when everything succeeds. */
  function Intended(plan: Plan, current: Projection): Projection
    requires Replay(plan, current, SuccessfulResults(plan)).Ok?
  {
    Replay(plan, current, SuccessfulResults(plan)).value.0
  }

  lemma DemotedValid(p: Projection)
    requires ValidProjection(p) && p.state.StatePublished?
    ensures ValidProjection(Demoted(p))
  {
    var f := Demoted(p);
    forall id | id in f.resources
      ensures UpToState(f.resources[id], p.resources[id]) && !f.resources[id].IsServing()
      ensures f.resources[id].state.StatePublished? ==> f.resources[id].status.Ready()
    {
      assert ResourceFits(p, id);
    }
    ShadowValid(f, p);
  }

  /** Once receipts are complete a replayable plan always has a stale verdict. */
  lemma StaleVerdictTotal(d: Disk, plan: Plan, current: Projection)
    requires ProjectionsOk(d) && VerifiesBase(d, plan, current) && Complete(d, plan)
    requires Replay(plan, current, SuccessfulResults(plan)).Ok?
    ensures StaleVerdict(plan, current, ResultsOf(d, plan)).Ok?
    ensures var verdict := StaleVerdict(plan, current, ResultsOf(d, plan)).value;
            verdict.version == plan.run.version && verdict.scope == plan.run.scope && verdict.state.StateFailed?
    ensures !AllReceiptsSucceeded(d, plan) ==>
              Replay(plan, current, ResultsOf(d, plan)).Ok?
              && StaleVerdict(plan, current, ResultsOf(d, plan)).value == Replay(plan, current, ResultsOf(d, plan)).value.0
  {
    NotApplied(d, plan, current);
    OutcomesOfReplayable(d, plan, current);
    var (p, report) := Replay(plan, current, ResultsOf(d, plan)).value;
    if report.runState.RunSucceeded? {
      DemotedValid(p);
    }
  }

  lemma OutcomesOfReplayable(d: Disk, plan: Plan, current: Projection)
    requires plan !in current.applied && Complete(d, plan)
    requires Replay(plan, current, SuccessfulResults(plan)).Ok?
    ensures Replay(plan, current, ResultsOf(d, plan)).Ok?
    ensures var (p, report) := Replay(plan, current, ResultsOf(d, plan)).value;
            && ValidProjection(p)
            && p.version == plan.run.version && p.scope == plan.run.scope
            && if AllReceiptsSucceeded(d, plan)
               then p.state.StatePublished? && report.runState.RunSucceeded? && p == Intended(plan, current)
               else p.state.StateFailed? && report.runState.RunFailed?
  {
    ReplayReduces(plan, current, SuccessfulResults(plan));
    OutcomesOfResults(d, plan);
    ReplayTotal(plan, current, ResultsOf(d, plan));
    ReplayReduces(plan, current, ResultsOf(d, plan));
    if AllReceiptsSucceeded(d, plan) {
      SuccessfulComplete(plan);
      ReducedAgrees(plan, current, Outcomes(ResultsOf(d, plan)), Outcomes(SuccessfulResults(plan)));
    }
  }

  // The stale branch always finishes the run.

  lemma VerdictMatches(d: Disk, e: Disk, plan: Plan, current: Projection)
    requires VerdictsOk(d) && IsStaged(d, plan) && Unfinished(d, plan.run.id) && !Owns(d, plan.run.id)
    requires VerifiesBase(d, plan, current)
    requires KeepsResults(d, e) && e.projections == d.projections && e.verdicts == d.verdicts
    ensures plan.run.id in e.verdicts ==>
              Complete(e, plan) && StaleVerdict(plan, current, ResultsOf(e, plan)) == Ok(e.verdicts[plan.run.id])
  {
    if plan.run.id in d.verdicts {
      StaleVerdictFrame(d, e, plan, d.verdicts[plan.run.id]);
    }
  }

  lemma StaleFinishes(d: Disk, plan: Plan, current: Projection, pointer: Pointer)
    requires VerdictsOk(d) && ProjectionsOk(d)
    requires IsStaged(d, plan) && Unfinished(d, plan.run.id) && !Owns(d, plan.run.id)
    requires VerifiesBase(d, plan, current) && Distinct(plan.operations)
    requires Replay(plan, current, SuccessfulResults(plan)).Ok?
    ensures Finished(Run(d, FailStale(d, plan, current, pointer).actions), plan.run.id)
  {
    var receipts := StaleReceipts(d, plan, plan.operations);
    StaleReceiptsSound(d, d, plan, plan.operations);
    var e := Run(d, receipts);
    StaleVerdictTotal(e, plan, current);
    VerdictMatches(d, e, plan, current);
    var verdict := StaleVerdict(plan, current, ResultsOf(e, plan)).value;
    ConcludeEffect(e, plan, verdict, plan.run.(state := RunFailed));
    RunAppend(d, receipts, StaleConcluded(e, plan, current, pointer).actions);
  }

  // The serving branch finishes it unless its success cannot be published.

  /** Another projection is persisted under the plan's version. */
  predicate Taken(d: Disk, plan: Plan, current: Projection)
    requires Replay(plan, current, SuccessfulResults(plan)).Ok?
  {
    plan.run.version in d.projections && d.projections[plan.run.version] != Intended(plan, current)
  }

  /** The disk once candidate and pointer are in place. */
  function Moved(d: Disk, p: Projection, next: Pointer): Disk {
    d.(projections := d.projections[p.version := p], pointer := Some(next))
  }

  lemma MovedBy(d: Disk, p: Projection, next: Pointer)
    requires p.version in d.projections ==> d.projections[p.version] == p
    ensures Run(d, (if p.version in d.projections then [] else [PutProjection(p)]) + [PutPointer(next)])
         == Moved(d, p, next)
  {
    if p.version in d.projections {
      assert [] + [PutPointer(next)] == [PutPointer(next)];
      assert d.projections[p.version := p] == d.projections;
    } else {
      RunAppend(d, [PutProjection(p)], [PutPointer(next)]);
    }
  }

  lemma PublishActions(d: Disk, plan: Plan, p: Projection, run: SyncRun)
    requires p.version in d.projections ==> d.projections[p.version] == p
    ensures var next := Named(p, Some(Owner(plan.run.id, plan)));
            var e := Moved(d, p, next);
            Run(d, PublishCandidate(d, plan, p, run).actions)
            == Run(e, Conclude(e, plan, p, run.(state := RunSucceeded)).actions)
  {
    var next := Named(p, Some(Owner(plan.run.id, plan)));
    var moved := (if p.version in d.projections then [] else [PutProjection(p)]) + [PutPointer(next)];
    MovedBy(d, p, next);
    var concluded := Conclude(Moved(d, p, next), plan, p, run.(state := RunSucceeded));
    RunAppend(d, moved, concluded.actions);
    assert concluded.result.Err? ==> concluded.actions == [];
  }

  lemma PublishOutcome(d: Disk, plan: Plan, current: Projection, run: SyncRun)
    requires IsStaged(d, plan) && Unfinished(d, plan.run.id) && run.id == plan.run.id
    requires Replay(plan, current, SuccessfulResults(plan)).Ok?
    requires Intended(plan, current).version == plan.run.version && Intended(plan, current).scope == plan.run.scope
    requires plan.run.id in d.verdicts ==> d.verdicts[plan.run.id] != Intended(plan, current)
    ensures Finished(Run(d, PublishCandidate(d, plan, Intended(plan, current), run).actions), plan.run.id)
       <==> !Taken(d, plan, current) && plan.run.id !in d.verdicts
  {
    var p := Intended(plan, current);
    if !Taken(d, plan, current) {
      PublishActions(d, plan, p, run);
      ConcludeEffect(
        Moved(d, p, Named(p, Some(Owner(plan.run.id, plan)))), plan, p, run.(state := RunSucceeded));
    }
  }

  lemma FinalizeServingOutcome(d: Disk, plan: Plan, current: Projection, pointer: Pointer)
    requires VerdictsOk(d) && RunsOk(d) && ProjectionsOk(d)
    requires IsStaged(d, plan) && Unfinished(d, plan.run.id) && !Owns(d, plan.run.id)
    requires VerifiesBase(d, plan, current) && Complete(d, plan)
    requires Replay(plan, current, SuccessfulResults(plan)).Ok?
    ensures Finished(Run(d, FinalizeServing(d, plan, current, pointer, d.runs[plan.run.id]).actions), plan.run.id)
       <==> !(AllReceiptsSucceeded(d, plan) && (Taken(d, plan, current) || plan.run.id in d.verdicts))
  {
    var run := d.runs[plan.run.id];
    NotApplied(d, plan, current);
    OutcomesOfReplayable(d, plan, current);
    StaleVerdictTotal(d, plan, current);
    VerdictMatches(d, d, plan, current);
    var p := Replay(plan, current, ResultsOf(d, plan)).value.0;
    if AllReceiptsSucceeded(d, plan) {
      PublishOutcome(d, plan, current, run);
    } else {
      ConcludeEffect(d, plan, p, run.(state := RunFailed));
    }
  }

  // What the executor's replies lead to.

  predicate Promises(d: Disk, plan: Plan, op: Operation, replies: map<Operation, Reply>) {
    if HasResult(d, plan, op) then d.results[ResultKey(plan.run.id, op)].OperationSucceeded?
    else Delivers(op, replies)
  }

  /** Every receipt is, or is about to be, a success. */
  predicate WillSucceed(d: Disk, plan: Plan, replies: map<Operation, Reply>) {
    forall op | op in plan.operations :: Promises(d, plan, op, replies)
  }

  predicate SameReceipts(d: Disk, e: Disk, plan: Plan, ops: seq<Operation>) {
    forall op | op in ops ::
      && (HasResult(e, plan, op) <==> HasResult(d, plan, op))
      && (HasResult(d, plan, op) ==> e.results[ResultKey(plan.run.id, op)] == d.results[ResultKey(plan.run.id, op)])
  }

  predicate SucceededIn(d: Disk, plan: Plan, op: Operation) {
    HasResult(d, plan, op) && d.results[ResultKey(plan.run.id, op)].OperationSucceeded?
  }

  lemma {:induction false} AttemptsOutcome(
    d: Disk, e: Disk, plan: Plan, ops: seq<Operation>, replies: map<Operation, Reply>)
    requires IsStaged(e, plan) && Unfinished(e, plan.run.id)
    requires e.pointer.Some? && e.pointer.value.version == plan.run.base
    requires Distinct(ops) && forall op | op in ops :: op in plan.operations
    requires SameReceipts(d, e, plan, ops)
    requires !AnyReceiptFailed(e, plan)
    ensures (forall op | op in ops :: SucceededIn(Run(e, Attempts(d, plan, ops, false, replies)), plan, op))
       <==> (forall op | op in ops :: Promises(d, plan, op, replies))
    decreases |ops|
  {
    if ops != [] {
      assert ops == [ops[0]] + ops[1..];
      var f := Run(e, Attempts(d, plan, ops, false, replies));
      if HasResult(d, plan, ops[0]) {
        AttemptsOutcome(d, e, plan, ops[1..], replies);
        AttemptsSound(d, e, plan, ops[1..], false, replies);
        assert SucceededIn(f, plan, ops[0]) <==> Promises(d, plan, ops[0], replies);
      } else {
        AttemptFirst(d, e, plan, ops, replies);
      }
      SplitFirst(d, f, plan, ops, replies);
    }
  }

  lemma SplitFirst(d: Disk, f: Disk, plan: Plan, ops: seq<Operation>, replies: map<Operation, Reply>)
    requires ops != []
    requires SucceededIn(f, plan, ops[0]) <==> Promises(d, plan, ops[0], replies)
    requires SucceededIn(f, plan, ops[0]) ==>
               ((forall op | op in ops[1..] :: SucceededIn(f, plan, op))
                <==> (forall op | op in ops[1..] :: Promises(d, plan, op, replies)))
    ensures (forall op | op in ops :: SucceededIn(f, plan, op))
       <==> (forall op | op in ops :: Promises(d, plan, op, replies))
  {
    assert ops == [ops[0]] + ops[1..];
    assert ops[0] in ops && forall op | op in ops[1..] :: op in ops;
  }

  /** The disk once the first operation has been attempted. */
  lemma FirstAttempt(d: Disk, e: Disk, plan: Plan, ops: seq<Operation>, replies: map<Operation, Reply>)
    requires IsStaged(e, plan) && Unfinished(e, plan.run.id)
    requires e.pointer.Some? && e.pointer.value.version == plan.run.base
    requires ops != [] && Distinct(ops) && forall op | op in ops :: op in plan.operations
    requires SameReceipts(d, e, plan, ops)
    requires !AnyReceiptFailed(e, plan) && !HasResult(d, plan, ops[0])
    ensures var outcome := AttemptOutcome(ops[0], false, replies);
            var f := Run(e, Attempt(plan, ops[0], false, replies));
            && IsStaged(f, plan) && Unfinished(f, plan.run.id) && f.pointer == e.pointer
            && HasResult(f, plan, ops[0]) && f.results[ResultKey(plan.run.id, ops[0])] == outcome
            && SameReceipts(d, f, plan, ops[1..]) && SamePending(d, f, plan, ops[1..])
            && (AnyReceiptFailed(f, plan) <==> outcome.OperationFailed?)
            && (outcome.OperationSucceeded? <==> Promises(d, plan, ops[0], replies))
  {
    var outcome := AttemptOutcome(ops[0], false, replies);
    assert !HasResult(e, plan, ops[0]);
    AttemptSound(e, plan, ops[0], false, replies);
    hide Attempt, Guarded, AnyReceiptFailed, Run;
    var f := Run(e, Attempt(plan, ops[0], false, replies));
    AttemptRecorded(e, f, plan, ops[0], outcome);
    ReceiptsTail(d, e, f, plan, ops, outcome);
  }

  /** A receipt stays what it is through later attempts. */
  lemma ReceiptKept(f: Disk, g: Disk, plan: Plan, op: Operation)
    requires OnlyReceipts(f, g, plan.run.id) && HasResult(f, plan, op)
    ensures SucceededIn(g, plan, op) <==> SucceededIn(f, plan, op)
  {
  }

  lemma AttemptFirst(d: Disk, e: Disk, plan: Plan, ops: seq<Operation>, replies: map<Operation, Reply>)
    requires IsStaged(e, plan) && Unfinished(e, plan.run.id)
    requires e.pointer.Some? && e.pointer.value.version == plan.run.base
    requires ops != [] && Distinct(ops) && forall op | op in ops :: op in plan.operations
    requires SameReceipts(d, e, plan, ops)
    requires !AnyReceiptFailed(e, plan) && !HasResult(d, plan, ops[0])
    ensures var f := Run(e, Attempts(d, plan, ops, false, replies));
            && (SucceededIn(f, plan, ops[0]) <==> Promises(d, plan, ops[0], replies))
            && (SucceededIn(f, plan, ops[0]) ==>
                  ((forall op | op in ops[1..] :: SucceededIn(f, plan, op))
                   <==> (forall op | op in ops[1..] :: Promises(d, plan, op, replies))))
    decreases |ops|, 0
  {
    FirstAttempt(d, e, plan, ops, replies);
    hide Attempt, AttemptOutcome, Guarded, OnlyReceipts, AnyReceiptFailed, SameReceipts, SamePending, Promises, Run;
    var first := Attempt(plan, ops[0], false, replies);
    var later := AttemptOutcome(ops[0], false, replies).OperationFailed?;
    var f := Run(e, first);
    var rest := Attempts(d, plan, ops[1..], later, replies);
    RunAppend(e, first, rest);
    AttemptsSound(d, f, plan, ops[1..], later, replies);
    ReceiptKept(f, Run(f, rest), plan, ops[0]);
    if !later {
      AttemptsOutcome(d, f, plan, ops[1..], replies);
    }
  }

  lemma ReceiptsTail(d: Disk, e: Disk, f: Disk, plan: Plan, ops: seq<Operation>, outcome: Outcome)
    requires ops != [] && Distinct(ops) && SameReceipts(d, e, plan, ops)
    requires f.results == e.results[ResultKey(plan.run.id, ops[0]) := outcome]
    ensures SameReceipts(d, f, plan, ops[1..]) && SamePending(d, f, plan, ops[1..])
  {
    forall op | op in ops[1..]
      ensures op != ops[0] && op in ops
    {
      var i :| 1 <= i < |ops| && ops[i] == op;
    }
  }

  /** From a settled journal, finalizing a staged plan is serving it. */
  lemma FinalizeIsServing(d: Disk, plan: Plan, current: Projection, pointer: Pointer)
    requires Inv(d) && IsStaged(d, plan) && Unfinished(d, plan.run.id) && OwnerSettled(d)
    requires d.pointer == Some(pointer)
    requires VerifiesBase(d, plan, current) && MatchesBase(pointer, plan, current)
    ensures Finalize(d, plan, current).actions
         == FinalizeServing(d, plan, current, pointer, d.runs[plan.run.id]).actions
  {
    StagedIsRecorded(d, plan, current);
    ReconcileOutcome(d, pointer);
    hide Inv, ValidPlan, ValidProjection, StagePlan, Reconcile, FinalizeStaged, FinalizeReconciled, FinalizeServing;
    hide Wedged;
    SettledFinalize(d, plan, current, pointer);
    assert Run(d, []) == d && [] + FinalizeStaged(d, plan, current).actions == FinalizeStaged(d, plan, current).actions;
  }

  lemma SettledFinalize(d: Disk, plan: Plan, current: Projection, pointer: Pointer)
    requires plan.run.id in d.runs && !d.runs[plan.run.id].state.IsTerminal() && d.pointer == Some(pointer)
    requires ValidProjection(current) && VerifiesBase(d, plan, current) && MatchesBase(pointer, plan, current)
    requires Reconcile(d, pointer) == Returns(())
    ensures FinalizeStaged(d, plan, current).actions
         == FinalizeServing(d, plan, current, pointer, d.runs[plan.run.id]).actions
  {
    hide ValidProjection, Reconcile, FinalizeServing, FinalizeOwned, FailStale;
    var rest := FinalizeReconciled(d, plan, current, pointer);
    assert rest == FinalizeServing(d, plan, current, pointer, d.runs[plan.run.id]);
    assert Run(d, []) == d && [] + rest.actions == rest.actions;
  }

  lemma StagedIsRecorded(d: Disk, plan: Plan, current: Projection)
    requires Inv(d) && IsStaged(d, plan) && VerifiesBase(d, plan, current)
    ensures ValidProjection(current) && StagePlan(d, plan) == Effect([], Ok(()))
  {
    hide ValidPlan, ValidProjection, PointerOk;
    assert ValidPlan(plan) && ValidProjection(current);
  }

  lemma ReceiptsAfterAttempts(d: Disk, e: Disk, plan: Plan, replies: map<Operation, Reply>)
    requires IsStaged(e, plan) && Unfinished(e, plan.run.id) && e.results == d.results
    requires e.pointer.Some? && e.pointer.value.version == plan.run.base
    requires Distinct(plan.operations)
    ensures var f := Run(e, Attempts(d, plan, plan.operations, AnyReceiptFailed(d, plan), replies));
            && OnlyReceipts(e, f, plan.run.id)
            && Complete(f, plan)
            && (AllReceiptsSucceeded(f, plan) <==> WillSucceed(d, plan, replies))
  {
    var failed := AnyReceiptFailed(d, plan);
    AttemptsSound(d, e, plan, plan.operations, failed, replies);
    var f := Run(e, Attempts(d, plan, plan.operations, failed, replies));
    if failed {
      var op :| op in plan.operations && HasResult(d, plan, op)
             && d.results[ResultKey(plan.run.id, op)].OperationFailed?;
      assert !Promises(d, plan, op, replies);
      assert HasResult(f, plan, op) && f.results[ResultKey(plan.run.id, op)].OperationFailed?;
    } else {
      AttemptsOutcome(d, e, plan, plan.operations, replies);
      assert AllReceiptsSucceeded(f, plan) <==> forall op | op in plan.operations :: SucceededIn(f, plan, op);
    }
  }

  /** Marking the run as running and attempting its operations. */
  function Ran(d: Disk, plan: Plan, replies: map<Operation, Reply>): seq<Action>
    requires plan.run.id in d.runs
  {
    [PutRun(d.runs[plan.run.id].(state := RunRunning))]
    + Attempts(d, plan, plan.operations, AnyReceiptFailed(d, plan), replies)
  }

  lemma RanEffect(d: Disk, plan: Plan, replies: map<Operation, Reply>)
    requires PlansOk(d) && RunsOk(d)
    requires IsStaged(d, plan) && Unfinished(d, plan.run.id) && OwnerSettled(d)
    requires d.pointer.Some? && d.pointer.value.version == plan.run.base
    ensures Guarded(d, Ran(d, plan, replies)) && ForwardOnly(Ran(d, plan, replies))
    ensures var f := Run(d, Ran(d, plan, replies));
            && IsStaged(f, plan) && Unfinished(f, plan.run.id) && OwnerSettled(f)
            && f.pointer == d.pointer && f.projections == d.projections && f.verdicts == d.verdicts
            && Complete(f, plan)
            && (AllReceiptsSucceeded(f, plan) <==> WillSucceed(d, plan, replies))
  {
    var start := PutRun(d.runs[plan.run.id].(state := RunRunning));
    RunningAllowed(d, plan);
    OneAction(d, start);
    StartedRuns(d, plan, Apply(d, start));
    RanAfterStart(d, Apply(d, start), plan, start, replies);
  }

  lemma StartedRuns(d: Disk, plan: Plan, e: Disk)
    requires plan.run.id in d.runs && d.runs[plan.run.id].id == plan.run.id
    requires Unfinished(d, plan.run.id) && OwnerSettled(d)
    requires e == Apply(d, PutRun(d.runs[plan.run.id].(state := RunRunning)))
    ensures OwnerSettled(e) && e.results == d.results && e.pointer == d.pointer
    ensures e.projections == d.projections && e.verdicts == d.verdicts
  {
  }

  lemma RanAfterStart(d: Disk, e: Disk, plan: Plan, start: Action, replies: map<Operation, Reply>)
    requires plan.run.id in d.runs && start == PutRun(d.runs[plan.run.id].(state := RunRunning))
    requires Guarded(d, [start]) && Run(d, [start]) == e
    requires IsStaged(e, plan) && Unfinished(e, plan.run.id) && OwnerSettled(e) && Distinct(plan.operations)
    requires e.results == d.results && e.pointer.Some? && e.pointer.value.version == plan.run.base
    ensures Guarded(d, Ran(d, plan, replies)) && ForwardOnly(Ran(d, plan, replies))
    ensures var f := Run(d, Ran(d, plan, replies));
            && OnlyReceipts(e, f, plan.run.id) && Complete(f, plan)
            && (AllReceiptsSucceeded(f, plan) <==> WillSucceed(d, plan, replies))
  {
    var attempts := Attempts(d, plan, plan.operations, AnyReceiptFailed(d, plan), replies);
    AttemptsSound(d, e, plan, plan.operations, AnyReceiptFailed(d, plan), replies);
    ReceiptsAfterAttempts(d, e, plan, replies);
    RunAppend(d, [start], attempts);
    GuardedAppend(d, [start], attempts);
    AttemptsForward(d, plan, plan.operations, AnyReceiptFailed(d, plan), replies);
  }

  lemma ExecuteServingOutcome(d: Disk, plan: Plan, current: Projection, replies: map<Operation, Reply>)
    requires Inv(d) && VerdictsOk(d)
    requires IsStaged(d, plan) && Unfinished(d, plan.run.id) && OwnerSettled(d)
    requires d.pointer.Some? && MatchesBase(d.pointer.value, plan, current)
    requires VerifiesBase(d, plan, current)
    requires Replay(plan, current, SuccessfulResults(plan)).Ok?
    ensures Finished(Run(d, ExecuteServing(d, plan, current, replies).actions), plan.run.id)
       <==> !(WillSucceed(d, plan, replies) && (Taken(d, plan, current) || plan.run.id in d.verdicts))
  {
    NotApplied(d, plan, current);
    ReplayReduces(plan, current, SuccessfulResults(plan));
    RanEffect(d, plan, replies);
    GuardedKeeps(d, Ran(d, plan, replies));
    ForwardKeepsVerdicts(d, Ran(d, plan, replies));
    ServeAfter(d, Ran(d, plan, replies), plan, current);
  }

  lemma ServeAfter(d: Disk, ran: seq<Action>, plan: Plan, current: Projection)
    requires var f := Run(d, ran);
             && Inv(f) && VerdictsOk(f)
             && IsStaged(f, plan) && Unfinished(f, plan.run.id) && OwnerSettled(f)
             && f.pointer.Some? && MatchesBase(f.pointer.value, plan, current)
             && VerifiesBase(f, plan, current) && Complete(f, plan)
    requires Replay(plan, current, SuccessfulResults(plan)).Ok?
    ensures var f := Run(d, ran);
            Finished(Run(d, ran + Finalize(f, plan, current).actions), plan.run.id)
            <==> !(AllReceiptsSucceeded(f, plan) && (Taken(f, plan, current) || plan.run.id in f.verdicts))
  {
    var f := Run(d, ran);
    FinalizeIsServing(f, plan, current, f.pointer.value);
    FinalizeServingOutcome(f, plan, current, f.pointer.value);
    RunAppend(d, ran, Finalize(f, plan, current).actions);
  }

  lemma MatchesIffServed(d: Disk, plan: Plan, current: Projection, pointer: Pointer)
    requires PointerOk(d) && d.pointer == Some(pointer) && VerifiesBase(d, plan, current)
    ensures MatchesBase(pointer, plan, current) <==> pointer.version == plan.run.base
  {
  }

  /** The success of the run would have to be published, and cannot be. */
  predicate Blocked(d: Disk, plan: Plan, current: Projection, replies: map<Operation, Reply>)
    requires Replay(plan, current, SuccessfulResults(plan)).Ok?
  {
    && d.pointer.Some? && d.pointer.value.version == plan.run.base
    && WillSucceed(d, plan, replies)
    && (Taken(d, plan, current) || plan.run.id in d.verdicts)
  }

  lemma ExecuteReconciledOutcome(
    d: Disk, plan: Plan, current: Projection, pointer: Pointer, replies: map<Operation, Reply>)
    requires Inv(d) && VerdictsOk(d) && IsStaged(d, plan) && OwnerSettled(d)
    requires d.pointer == Some(pointer) && VerifiesBase(d, plan, current)
    requires Replay(plan, current, SuccessfulResults(plan)).Ok?
    ensures Finished(Run(d, ExecuteReconciled(d, plan, current, pointer, replies).actions), plan.run.id)
       <==> Finished(d, plan.run.id) || !Blocked(d, plan, current, replies)
  {
    hide Replay, VerdictsOk, FailStale, ExecuteServing, RunsOk, ResultsOk, ProjectionsOk, PointerOk;
    if Unfinished(d, plan.run.id) {
      OwnPointerUnreachable(d, plan, pointer);
      MatchesIffServed(d, plan, current, pointer);
      if MatchesBase(pointer, plan, current) {
        ExecuteServingOutcome(d, plan, current, replies);
      } else {
        StaleFinishes(d, plan, current, pointer);
      }
    }
  }

  /** When executing a plan brings its run to a terminal record. */
  predicate Recovers(d: Disk, plan: Plan, current: Projection, replies: map<Operation, Reply>)
    requires Replay(plan, current, SuccessfulResults(plan)).Ok?
  {
    Finished(d, plan.run.id) || (!Wedged(d) && !Blocked(d, plan, current, replies))
  }

  /** Reconciling an owner does not decide another run's recovery. */
  lemma ReconcileKeepsBlocked(
    d: Disk, e: Disk, plan: Plan, current: Projection, pointer: Pointer, replies: map<Operation, Reply>)
    requires d.pointer == Some(pointer) && Reconciled(d, e, pointer, true)
    requires Replay(plan, current, SuccessfulResults(plan)).Ok?
    requires Unfinished(e, plan.run.id)
    ensures Blocked(e, plan, current, replies) <==> Blocked(d, plan, current, replies)
    ensures !Finished(d, plan.run.id)
  {
    var id := plan.run.id;
    if pointer.owner.Some? {
      var owner := pointer.owner.value.run;
      assert id != owner;
      assert id in e.runs.Keys - {owner};
      assert id in e.verdicts.Keys - {owner} <==> id in d.verdicts.Keys - {owner};
    }
    SameWill(d, e, plan, replies);
  }

  lemma SameWill(d: Disk, e: Disk, plan: Plan, replies: map<Operation, Reply>)
    requires e.results == d.results
    ensures WillSucceed(e, plan, replies) <==> WillSucceed(d, plan, replies)
  {
    forall op | op in plan.operations
      ensures Promises(e, plan, op, replies) <==> Promises(d, plan, op, replies)
    {
    }
  }

  lemma ExecuteStagedReconciles(d: Disk, plan: Plan, current: Projection, replies: map<Operation, Reply>)
    requires ValidProjection(current) && VerifiesBase(d, plan, current)
    requires Unfinished(d, plan.run.id) && d.pointer.Some?
    ensures var pointer := d.pointer.value;
            var reconciled := Reconcile(d, pointer);
            ExecuteStaged(d, plan, current, replies).actions
            == if reconciled.result.Err? then []
               else reconciled.actions
                    + ExecuteReconciled(Run(d, reconciled.actions), plan, current, pointer, replies).actions
  {
  }

  lemma ExecuteStagedOutcome(d: Disk, plan: Plan, current: Projection, replies: map<Operation, Reply>)
    requires Inv(d) && VerdictsOk(d) && IsStaged(d, plan)
    requires d.pointer.Some? && VerifiesBase(d, plan, current) && ValidProjection(current)
    requires Replay(plan, current, SuccessfulResults(plan)).Ok?
    ensures Finished(Run(d, ExecuteStaged(d, plan, current, replies).actions), plan.run.id)
       <==> Recovers(d, plan, current, replies)
  {
    hide Replay, Inv, VerdictsOk, Reconcile, Wedged, Blocked, ExecuteReconciled, VerifiesBase;
    if Unfinished(d, plan.run.id) {
      ExecuteStagedReconciles(d, plan, current, replies);
      ReconcileOutcome(d, d.pointer.value);
      if Reconcile(d, d.pointer.value).result.Ok? {
        ReconciledRecovers(d, plan, current, d.pointer.value, replies);
      }
    }
  }

  lemma ReconciledRecovers(
    d: Disk, plan: Plan, current: Projection, pointer: Pointer, replies: map<Operation, Reply>)
    requires Inv(d) && VerdictsOk(d) && IsStaged(d, plan) && Unfinished(d, plan.run.id)
    requires d.pointer == Some(pointer) && VerifiesBase(d, plan, current)
    requires Reconcile(d, pointer).result.Ok?
    requires Replay(plan, current, SuccessfulResults(plan)).Ok?
    ensures var reconciled := Reconcile(d, pointer).actions;
            var e := Run(d, reconciled);
            Finished(Run(d, reconciled + ExecuteReconciled(e, plan, current, pointer, replies).actions), plan.run.id)
            <==> !Blocked(d, plan, current, replies)
  {
    var reconciled := Reconcile(d, pointer).actions;
    var e := Run(d, reconciled);
    ReconcileSound(d, pointer);
    ReconcileSettles(d, plan, pointer);
    ReconcileForward(d, pointer);
    ForwardKeepsVerdicts(d, reconciled);
    assert e.projections == d.projections;
    ExecuteReconciledOutcome(e, plan, current, pointer, replies);
    RunAppend(d, reconciled, ExecuteReconciled(e, plan, current, pointer, replies).actions);
    if Finished(e, plan.run.id) {
      OwnedNotBlocked(d, e, plan, current, pointer, replies);
    } else {
      ReconcileKeepsBlocked(d, e, plan, current, pointer, replies);
    }
  }

  /** Reconciling only finishes the owner, whose base is not what the pointer serves. */
  lemma OwnedNotBlocked(
    d: Disk, e: Disk, plan: Plan, current: Projection, pointer: Pointer, replies: map<Operation, Reply>)
    requires PlansOk(d) && PointerOk(d) && IsStaged(d, plan) && Unfinished(d, plan.run.id)
    requires d.pointer == Some(pointer) && Reconciled(d, e, pointer, true) && Finished(e, plan.run.id)
    requires Replay(plan, current, SuccessfulResults(plan)).Ok?
    ensures !Blocked(d, plan, current, replies)
  {
    var owner := pointer.owner.value;
    assert owner.run == plan.run.id;
    assert OwnerOk(d, pointer, owner);
    assert ValidPlan(plan);
  }

  lemma StageKeepsRecovery(d: Disk, plan: Plan, current: Projection, replies: map<Operation, Reply>)
    requires Inv(d) && ValidPlan(plan) && (plan.run.id in d.plans ==> d.plans[plan.run.id] == plan)
    requires Replay(plan, current, SuccessfulResults(plan)).Ok?
    ensures StagePlan(d, plan).result.Ok?
    ensures var e := Run(d, StagePlan(d, plan).actions);
            Recovers(e, plan, current, replies) <==> Recovers(d, plan, current, replies)
  {
    StageSound(d, plan);
    StagedRuns(d, plan);
    OwnerRecorded(d);
    SameRecovery(d, Run(d, StagePlan(d, plan).actions), plan, current, replies);
  }

  lemma OwnerRecorded(d: Disk)
    requires PointerOk(d)
    ensures d.pointer.Some? && d.pointer.value.owner.Some? ==> d.pointer.value.owner.value.run in d.runs
  {
  }

  lemma SameRecovery(d: Disk, e: Disk, plan: Plan, current: Projection, replies: map<Operation, Reply>)
    requires e == d.(plans := e.plans, runs := e.runs)
    requires plan.run.state.RunStaged?
    requires e.runs == if plan.run.id in d.runs then d.runs else d.runs[plan.run.id := plan.run]
    requires d.pointer.Some? && d.pointer.value.owner.Some? ==> d.pointer.value.owner.value.run in d.runs
    requires Replay(plan, current, SuccessfulResults(plan)).Ok?
    ensures Recovers(e, plan, current, replies) <==> Recovers(d, plan, current, replies)
  {
    hide Replay, WillSucceed, ValidPlan;
    SameWill(d, e, plan, replies);
  }

  lemma StagedRuns(d: Disk, plan: Plan)
    requires RunsOk(d) && PlansOk(d) && ValidPlan(plan) && (plan.run.id in d.plans ==> d.plans[plan.run.id] == plan)
    ensures StagePlan(d, plan).result.Ok?
    ensures Run(d, StagePlan(d, plan).actions).runs
         == if plan.run.id in d.runs then d.runs else d.runs[plan.run.id := plan.run]
  {
    var id := plan.run.id;
    if id !in d.plans {
      assert id !in d.runs;
      RunAppend(d, [PutPlan(plan)], [PutRun(plan.run)]);
    } else if id !in d.runs {
      assert [] + [PutRun(plan.run)] == [PutRun(plan.run)];
    }
  }

  /**
   Recovery, exactly. After any history without rollbacks, however its operations
   were cut, executing a replayable plan against its persisted base brings the
   run to a terminal record if and only if it already has one, or neither the
   pointer's owner is wedged nor the run's own success is blocked from publication.
   */
  lemma RecoveryExact(history: seq<Event>, plan: Plan, current: Projection, replies: map<Operation, Reply>)
    requires Fresh(history) && WithoutRollback(history)
    requires ValidPlan(plan)
    requires var d := DiskAfter(history);
             && d.pointer.Some?
             && VerifiesBase(d, plan, current)
             && (plan.run.id in d.plans ==> d.plans[plan.run.id] == plan)
    requires Replay(plan, current, SuccessfulResults(plan)).Ok?
    ensures var d := DiskAfter(history);
            Finished(Run(d, Execute(d, plan, current, replies).actions), plan.run.id)
            <==> Recovers(d, plan, current, replies)
  {
    HistoryKeepsVerdicts(history);
    ExecuteOutcome(DiskAfter(history), plan, current, replies);
  }

  /** The run's success would have to be published, and its version or its verdict is in the way. */
  predicate Obstructed(d: Disk, plan: Plan, current: Projection)
    requires Replay(plan, current, SuccessfulResults(plan)).Ok?
  {
    && d.pointer.Some? && d.pointer.value.version == plan.run.base
    && !AnyReceiptFailed(d, plan)
    && (Taken(d, plan, current) || plan.run.id in d.verdicts)
  }

  /** Without a failed receipt an executor that always succeeds makes the run succeed. */
  lemma MaySucceed(d: Disk, plan: Plan) returns (replies: map<Operation, Reply>)
    ensures !AnyReceiptFailed(d, plan) ==> WillSucceed(d, plan, replies)
  {
    replies := map op | op in plan.operations :: Reply(op, OperationSucceeded, true);
    forall op | op in plan.operations && !AnyReceiptFailed(d, plan) ensures Promises(d, plan, op, replies) {
    }
  }

  lemma FailureStands(d: Disk, plan: Plan, replies: map<Operation, Reply>)
    requires AnyReceiptFailed(d, plan)
    ensures !WillSucceed(d, plan, replies)
  {
    var op :| op in plan.operations && HasResult(d, plan, op)
           && d.results[ResultKey(plan.run.id, op)].OperationFailed?;
    assert !Promises(d, plan, op, replies);
  }

  /**
   What can be told from the disk before the call. Every execution finishes the run,
   whatever the executor answers, if and only if the run is finished already or the
   pointer is not wedged and the run is not obstructed.
   */
  lemma RecoveryAssured(history: seq<Event>, plan: Plan, current: Projection)
    requires Fresh(history) && WithoutRollback(history)
    requires ValidPlan(plan)
    requires var d := DiskAfter(history);
             && d.pointer.Some?
             && VerifiesBase(d, plan, current)
             && (plan.run.id in d.plans ==> d.plans[plan.run.id] == plan)
    requires Replay(plan, current, SuccessfulResults(plan)).Ok?
    ensures var d := DiskAfter(history);
            (forall replies :: Finished(Run(d, Execute(d, plan, current, replies).actions), plan.run.id))
            <==> Finished(d, plan.run.id) || (!Wedged(d) && !Obstructed(d, plan, current))
  {
    hide Execute, Replay, ValidPlan, Wedged, Taken, DiskAfter;
    var d := DiskAfter(history);
    forall replies
      ensures Finished(Run(d, Execute(d, plan, current, replies).actions), plan.run.id)
         <==> Recovers(d, plan, current, replies)
      ensures AnyReceiptFailed(d, plan) ==> !WillSucceed(d, plan, replies)
    {
      RecoveryExact(history, plan, current, replies);
      if AnyReceiptFailed(d, plan) {
        FailureStands(d, plan, replies);
      }
    }
    var replies := MaySucceed(d, plan);
    assert Finished(Run(d, Execute(d, plan, current, replies).actions), plan.run.id)
      <==> Recovers(d, plan, current, replies);
  }

  lemma ExecuteOutcome(d: Disk, plan: Plan, current: Projection, replies: map<Operation, Reply>)
    requires Inv(d) && VerdictsOk(d) && ValidPlan(plan)
    requires d.pointer.Some? && VerifiesBase(d, plan, current)
    requires plan.run.id in d.plans ==> d.plans[plan.run.id] == plan
    requires Replay(plan, current, SuccessfulResults(plan)).Ok?
    ensures Finished(Run(d, Execute(d, plan, current, replies).actions), plan.run.id)
       <==> Recovers(d, plan, current, replies)
  {
    StageKeepsRecovery(d, plan, current, replies);
    StageSound(d, plan);
    StageForward(d, plan);
    var staged := StagePlan(d, plan).actions;
    GuardedKeeps(d, staged);
    ForwardKeepsVerdicts(d, staged);
    ExecuteAfterStaging(d, Run(d, staged), plan, current, replies);
  }

  lemma ExecuteAfterStaging(d: Disk, e: Disk, plan: Plan, current: Projection, replies: map<Operation, Reply>)
    requires StagePlan(d, plan).result.Ok? && e == Run(d, StagePlan(d, plan).actions)
    requires Inv(e) && VerdictsOk(e) && IsStaged(e, plan)
    requires e.pointer.Some? && VerifiesBase(e, plan, current)
    requires Replay(plan, current, SuccessfulResults(plan)).Ok?
    ensures Finished(Run(d, Execute(d, plan, current, replies).actions), plan.run.id)
       <==> Recovers(e, plan, current, replies)
  {
    assert ValidProjection(current);
    ExecuteStagedOutcome(e, plan, current, replies);
    RunAppend(d, StagePlan(d, plan).actions, ExecuteStaged(e, plan, current, replies).actions);
  }
}
