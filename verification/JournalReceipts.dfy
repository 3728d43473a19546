/**
 What a receipt stands for. A success is what an executor or a caller reported for that
 very operation; a failure names the reason its operation was not carried out.
 */
module JournalReceipts {
  import opened Wrappers
  import opened Catalog
  import opened Replaying
  import opened Journal
  import opened JournalSafety
  import opened JournalGuards
  import opened JournalPublication
  import opened PlanReplay
  import opened ReplayOutcomes

  // Staging.

  /** A run record that names the plan's run, whatever state it is in. */
  predicate NamesRun(record: SyncRun, run: SyncRun) {
    && record.id == run.id && record.scope == run.scope && record.snapshot == run.snapshot
    && record.base == run.base && record.version == run.version && record.key == run.key
  }

  /** A plan is staged exactly if it is valid and contradicts no record of its run. */
  lemma StagesExactly(d: Disk, plan: Plan)
    ensures StagePlan(d, plan).result.Ok? <==>
              && ValidPlan(plan)
              && (plan.run.id in d.plans ==> d.plans[plan.run.id] == plan)
              && (plan.run.id in d.runs ==> NamesRun(d.runs[plan.run.id], plan.run))
    ensures StagePlan(d, plan).result.Ok? ==>
              var e := Run(d, StagePlan(d, plan).actions);
              && plan.run.id in e.plans && e.plans[plan.run.id] == plan && plan.run.id in e.runs
              && (if plan.run.id in d.runs then e.runs == d.runs else e.runs[plan.run.id] == plan.run)
              && e.results == d.results && e.verdicts == d.verdicts && e.projections == d.projections
              && e.pointer == d.pointer
  {
    hide ValidPlan;
    if plan.run.id in d.runs {
      NamesSame(d.runs[plan.run.id], plan.run);
    }
    if StagePlan(d, plan).result.Ok? && |StagePlan(d, plan).actions| == 2 {
      assert StagePlan(d, plan).actions == [PutPlan(plan)] + [PutRun(plan.run)];
      RunAppend(d, [PutPlan(plan)], [PutRun(plan.run)]);
      RunOne(d, PutPlan(plan));
      RunOne(Apply(d, PutPlan(plan)), PutRun(plan.run));
    } else if StagePlan(d, plan).result.Ok? && |StagePlan(d, plan).actions| == 1 {
      RunOne(d, StagePlan(d, plan).actions[0]);
    }
  }

  lemma NamesSame(record: SyncRun, run: SyncRun)
    ensures SameIdentity(record, run) <==> NamesRun(record, run)
  {
    var left, right := record.(state := RunStaged), run.(state := RunStaged);
    if NamesRun(record, run) {
      assert left == right;
    }
  }

  // One attempt.

  /** The codes the journal has a meaning for. */
  const JournalCodes: set<ErrorCode> := {
    InvalidOperationResult, OperationBlocked, ContextCancelled, ExecutionFailed, StaleBaseProjection}

  /** What the receipt of an operation says, given whether its run had failed before it. */
  predicate ReceiptSays(op: Operation, blocked: bool, replies: map<Operation, Reply>, outcome: Outcome) {
    match outcome
    case OperationSucceeded => !blocked && Delivers(op, replies)
    case OperationFailed(code) =>
      if blocked then code == OperationBlocked
      else if op !in replies then code == ContextCancelled
      else
        match replies[op]
        case ExecutionError => code == ExecutionFailed
        case Reply(answered, reported, wellFormed) =>
          if answered != op || !wellFormed then code == InvalidOperationResult
          else
            && reported.OperationFailed?
            && code == if reported.error in JournalCodes then reported.error else OperationFailedCode
  }

  lemma AttemptSays(op: Operation, failed: bool, replies: map<Operation, Reply>)
    ensures ReceiptSays(op, failed, replies, AttemptOutcome(op, failed, replies))
    ensures AttemptOutcome(op, failed, replies).OperationSucceeded? <==> !failed && Delivers(op, replies)
  {
  }

  // The loop over the operations.

  lemma {:induction false} AttemptsLeave(
    d: Disk, e: Disk, plan: Plan, ops: seq<Operation>, failed: bool, replies: map<Operation, Reply>, key: ResultKey)
    requires key.run != plan.run.id || key.operation !in ops || key in d.results
    ensures var f := Run(e, Attempts(d, plan, ops, failed, replies));
            && (key in f.results <==> key in e.results)
            && (key in e.results ==> f.results[key] == e.results[key])
    decreases |ops|
  {
    hide AttemptOutcome;
    if ops != [] {
      assert ops == [ops[0]] + ops[1..];
      if HasResult(d, plan, ops[0]) {
        AttemptsLeave(d, e, plan, ops[1..], failed, replies, key);
      } else {
        var first := Attempt(plan, ops[0], failed, replies);
        var later := failed || AttemptOutcome(ops[0], failed, replies).OperationFailed?;
        RunAppend(e, first, Attempts(d, plan, ops[1..], later, replies));
        AttemptPuts(e, plan, ops[0], failed, replies);
        AttemptsLeave(d, Run(e, first), plan, ops[1..], later, replies, key);
      }
    }
  }

  lemma AttemptPuts(e: Disk, plan: Plan, op: Operation, failed: bool, replies: map<Operation, Reply>)
    ensures Run(e, Attempt(plan, op, failed, replies)).results
         == e.results[ResultKey(plan.run.id, op) := AttemptOutcome(op, failed, replies)]
  {
    hide AttemptOutcome;
    var put := [PutResult(ResultKey(plan.run.id, op), AttemptOutcome(op, failed, replies))];
    RunOne(e, put[0]);
    if !failed && op in replies {
      RunAppend(e, [Invoke(ResultKey(plan.run.id, op))], put);
      RunOne(e, Invoke(ResultKey(plan.run.id, op)));
      RunOne(Apply(e, Invoke(ResultKey(plan.run.id, op))), put[0]);
    } else {
      assert Attempt(plan, op, failed, replies) == put;
    }
  }

  lemma RunOne(d: Disk, a: Action)
    ensures Run(d, [a]) == Apply(d, a)
  {
    assert [a][1..] == [];
  }

  /** An earlier operation was left without a success, by this execution or before it. */
  predicate BlockedAt(
    d: Disk, plan: Plan, ops: seq<Operation>, failed: bool, replies: map<Operation, Reply>, i: nat)
    requires i <= |ops|
  {
    failed || exists j | 0 <= j < i :: !HasResult(d, plan, ops[j]) && !Delivers(ops[j], replies)
  }

  lemma BlockedTail(d: Disk, plan: Plan, ops: seq<Operation>, failed: bool, replies: map<Operation, Reply>, i: nat)
    requires 0 < i <= |ops|
    ensures BlockedAt(d, plan, ops, failed, replies, i)
       <==> BlockedAt(
              d, plan, ops[1..], failed || (!HasResult(d, plan, ops[0]) && !Delivers(ops[0], replies)), replies, i - 1)
  {
    if BlockedAt(d, plan, ops, failed, replies, i) && !failed {
      var j :| 0 <= j < i && !HasResult(d, plan, ops[j]) && !Delivers(ops[j], replies);
      if j > 0 {
        assert ops[1..][j - 1] == ops[j];
      }
    }
  }

  /**
   The loop gives every operation without a receipt exactly the one its reply calls
   for, or a blocked one once an operation before it went without success.
   */
  lemma {:induction false} AttemptsSay(
    d: Disk, e: Disk, plan: Plan, ops: seq<Operation>, failed: bool, replies: map<Operation, Reply>, i: nat)
    requires Distinct(ops) && i < |ops| && !HasResult(d, plan, ops[i])
    ensures var f := Run(e, Attempts(d, plan, ops, failed, replies));
            && HasResult(f, plan, ops[i])
            && ReceiptSays(ops[i], BlockedAt(d, plan, ops, failed, replies, i), replies,
                           f.results[ResultKey(plan.run.id, ops[i])])
    decreases |ops|
  {
    hide AttemptOutcome, Attempt, ReceiptSays, Delivers;
    var first := Attempt(plan, ops[0], failed, replies);
    AttemptSays(ops[0], failed, replies);
    var later := failed || AttemptOutcome(ops[0], failed, replies).OperationFailed?;
    assert later <==> failed || !Delivers(ops[0], replies);
    RunAppend(e, first, Attempts(d, plan, ops[1..], later, replies));
    AttemptPuts(e, plan, ops[0], failed, replies);
    if i == 0 {
      assert ops[0] !in ops[1..];
      AttemptsLeave(d, Run(e, first), plan, ops[1..], later, replies, ResultKey(plan.run.id, ops[0]));
    } else {
      BlockedTail(d, plan, ops, failed, replies, i);
      if HasResult(d, plan, ops[0]) {
        AttemptsSay(d, e, plan, ops[1..], failed, replies, i - 1);
      } else {
        AttemptsSay(d, Run(e, first), plan, ops[1..], later, replies, i - 1);
      }
    }
  }

  /** After the loop: old receipts as they were, and each new one as the replies call for. */
  predicate Attempted(d: Disk, f: Disk, plan: Plan, replies: map<Operation, Reply>) {
    var ops, failed := plan.operations, AnyReceiptFailed(d, plan);
    && (forall i | 0 <= i < |ops| && !HasResult(d, plan, ops[i]) ::
          && HasResult(f, plan, ops[i])
          && ReceiptSays(ops[i], BlockedAt(d, plan, ops, failed, replies, i), replies,
                         f.results[ResultKey(plan.run.id, ops[i])]))
    && (forall key | key in d.results :: key in f.results && f.results[key] == d.results[key])
    && (forall key | key in f.results && key !in d.results :: key.run == plan.run.id && key.operation in ops)
  }

  lemma LoopAttempts(d: Disk, plan: Plan, replies: map<Operation, Reply>)
    requires Distinct(plan.operations)
    ensures Attempted(
              d, Run(d, Attempts(d, plan, plan.operations, AnyReceiptFailed(d, plan), replies)), plan, replies)
  {
    hide Attempts, ReceiptSays, BlockedAt, AnyReceiptFailed;
    var ops, failed := plan.operations, AnyReceiptFailed(d, plan);
    var f := Run(d, Attempts(d, plan, ops, failed, replies));
    forall i | 0 <= i < |ops| && !HasResult(d, plan, ops[i])
      ensures HasResult(f, plan, ops[i])
      ensures ReceiptSays(ops[i], BlockedAt(d, plan, ops, failed, replies, i), replies,
                          f.results[ResultKey(plan.run.id, ops[i])])
    {
      AttemptsSay(d, d, plan, ops, failed, replies, i);
    }
    forall key | key in d.results ensures key in f.results && f.results[key] == d.results[key] {
      AttemptsLeave(d, d, plan, ops, failed, replies, key);
    }
    forall key | key in f.results && key !in d.results ensures key.run == plan.run.id && key.operation in ops {
      if key.run != plan.run.id || key.operation !in ops {
        AttemptsLeave(d, d, plan, ops, failed, replies, key);
      }
    }
  }

  // Runs whose base is no longer served.

  lemma {:induction false} StaleSays(d: Disk, e: Disk, plan: Plan, ops: seq<Operation>, key: ResultKey)
    ensures var f := Run(e, StaleReceipts(d, plan, ops));
            if key.run == plan.run.id && key.operation in ops && key !in d.results
            then key in f.results && f.results[key] == OperationFailed(StaleBaseProjection)
            else (key in f.results <==> key in e.results) && (key in e.results ==> f.results[key] == e.results[key])
    decreases |ops|
  {
    if ops != [] {
      assert ops == [ops[0]] + ops[1..];
      var put := [PutResult(ResultKey(plan.run.id, ops[0]), OperationFailed(StaleBaseProjection))];
      if HasResult(d, plan, ops[0]) {
        assert StaleReceipts(d, plan, ops) == StaleReceipts(d, plan, ops[1..]);
        StaleSays(d, e, plan, ops[1..], key);
      } else {
        RunAppend(e, put, StaleReceipts(d, plan, ops[1..]));
        RunOne(e, put[0]);
        StaleSays(d, Apply(e, put[0]), plan, ops[1..], key);
      }
    }
  }

  lemma SucceededComponents(plan: Plan, outcomes: map<Operation, Outcome>, staged: Operation, r: Resource)
    requires Covers(outcomes, plan.operations) && TargetEnds(plan, outcomes, staged, r, true)
    requires forall op | op in plan.operations :: outcomes[op].OperationSucceeded?
    ensures r.status == Succeeded
  {
    forall kind | kind in ComponentKinds ensures ComponentOf(r.status, kind).ComponentSucceeded? {
      var op :| op in plan.operations && op.kind == kind && op.resource.id == staged.resource.id;
    }
    assert ComponentOf(r.status, ProjectContent) == r.status.content && ComponentOf(r.status, ProjectACL) == r.status.acl
        && ComponentOf(r.status, ProjectIndex) == r.status.index && ComponentOf(r.status, ProjectGraph) == r.status.graph
        && ComponentOf(r.status, ProjectArtifact) == r.status.artifacts;
  }

  /** A derived artifact that could be served has a security record. */
  predicate Servable(r: Resource) {
    r.kind.DerivedArtifact? ==> r.security.Some?
  }

  /**
   The verdict on a stale run holds every resource back: failed if one of its own
   operations failed, staged if it was ready, whether or not all the results are in.
   */
  lemma StaleVerdictResources(plan: Plan, current: Projection, results: seq<OperationResult>)
    requires plan !in current.applied && StaleVerdict(plan, current, results).Ok?
    ensures var v, outcomes := StaleVerdict(plan, current, results).value, Outcomes(results);
            && v.state.StateFailed? && Covers(outcomes, plan.operations)
            && (forall id :: id in v.resources <==> exists op :: op in plan.operations && op.resource.id == id)
            && (forall op | op in plan.operations && op.kind.Stage? && Servable(op.resource) ::
                  TargetEnds(plan, outcomes, op, v.resources[op.resource.id], false))
            && (forall op | op in plan.operations && op.kind.IsTerminal() ::
                  RetiredEnds(plan, outcomes, op, v.resources[op.resource.id]))
  {
    hide ValidProjection, ReplayablePlan, Reduced, Outcomes, Canonical, ValidOperation, CompleteResults, Replay,
      TargetEnds, RetiredEnds, Demoted;
    ReplayedResources(plan, current, results);
    SucceedsWhenPublished(plan, current, results);
    var (p, report) := Replay(plan, current, results).value;
    if report.runState.RunSucceeded? {
      DemotedResources(plan, Outcomes(results), p);
    }
  }

  lemma SucceedsWhenPublished(plan: Plan, current: Projection, results: seq<OperationResult>)
    requires plan !in current.applied && Replay(plan, current, results).Ok?
    ensures var (p, report) := Replay(plan, current, results).value;
            report.runState.RunSucceeded? <==> p.state.StatePublished?
    ensures forall op | op in plan.operations && op.kind.IsTerminal() :: !op.resource.state.StatePublished?
  {
    ReplayReduces(plan, current, results);
    TerminalsNotPublished(plan, current);
    hide ValidProjection, ReplayablePlan, Outcomes, Settled, Replay;
  }

  lemma DemotedResources(plan: Plan, outcomes: map<Operation, Outcome>, p: Projection)
    requires Covers(outcomes, plan.operations)
    requires forall op | op in plan.operations :: outcomes[op].OperationSucceeded?
    requires forall op | op in plan.operations :: op.resource.id in p.resources
    requires forall op | op in plan.operations && op.kind.Stage? ::
               TargetEnds(plan, outcomes, op, p.resources[op.resource.id], true)
    requires forall op | op in plan.operations && op.kind.IsTerminal() ::
               RetiredEnds(plan, outcomes, op, p.resources[op.resource.id]) && !op.resource.state.StatePublished?
    ensures Demoted(p).resources.Keys == p.resources.Keys
    ensures forall op | op in plan.operations && op.kind.Stage? && Servable(op.resource) ::
              TargetEnds(plan, outcomes, op, Demoted(p).resources[op.resource.id], false)
    ensures forall op | op in plan.operations && op.kind.IsTerminal() ::
              RetiredEnds(plan, outcomes, op, Demoted(p).resources[op.resource.id])
  {
    hide TargetEnds;
    forall op | op in plan.operations && op.kind.Stage? && Servable(op.resource)
      ensures TargetEnds(plan, outcomes, op, Demoted(p).resources[op.resource.id], false)
    {
      SucceededComponents(plan, outcomes, op, p.resources[op.resource.id]);
      DemotedTarget(plan, outcomes, op, p);
    }
  }

  lemma DemotedTarget(plan: Plan, outcomes: map<Operation, Outcome>, staged: Operation, p: Projection)
    requires Covers(outcomes, plan.operations) && staged.resource.id in p.resources && Servable(staged.resource)
    requires TargetEnds(plan, outcomes, staged, p.resources[staged.resource.id], true)
    requires p.resources[staged.resource.id].status == Succeeded
    requires forall op | op in plan.operations :: outcomes[op].OperationSucceeded?
    ensures TargetEnds(plan, outcomes, staged, Demoted(p).resources[staged.resource.id], false)
  {
    hide FollowsOperation, Has;
  }

  // Every receipt an operation of the store writes.

  /** A receipt the action writes belongs to the plan and says what happened. */
  predicate Justified(plan: Plan, replies: map<Operation, Reply>, a: Action) {
    a.PutResult? ==>
      && a.key.run == plan.run.id && a.key.operation in plan.operations
      && (|| a.outcome == OperationFailed(StaleBaseProjection)
          || ReceiptSays(a.key.operation, true, replies, a.outcome)
          || ReceiptSays(a.key.operation, false, replies, a.outcome))
  }

  predicate AllJustified(plan: Plan, replies: map<Operation, Reply>, actions: seq<Action>) {
    forall a | a in actions :: Justified(plan, replies, a)
  }

  predicate NoReceipts(actions: seq<Action>) {
    forall a | a in actions :: !a.PutResult?
  }

  lemma {:induction false} AttemptsJustified(
    d: Disk, plan: Plan, ops: seq<Operation>, failed: bool, replies: map<Operation, Reply>)
    requires forall op | op in ops :: op in plan.operations
    ensures AllJustified(plan, replies, Attempts(d, plan, ops, failed, replies))
    decreases |ops|
  {
    hide AttemptOutcome, ReceiptSays;
    if ops != [] {
      assert ops == [ops[0]] + ops[1..];
      AttemptSays(ops[0], failed, replies);
      AttemptsJustified(d, plan, ops[1..], failed, replies);
      AttemptsJustified(
        d, plan, ops[1..], failed || AttemptOutcome(ops[0], failed, replies).OperationFailed?, replies);
    }
  }

  lemma {:induction false} StaleJustified(
    d: Disk, plan: Plan, ops: seq<Operation>, replies: map<Operation, Reply>)
    requires forall op | op in ops :: op in plan.operations
    ensures AllJustified(plan, replies, StaleReceipts(d, plan, ops))
    decreases |ops|
  {
    hide ReceiptSays;
    if ops != [] {
      assert ops == [ops[0]] + ops[1..];
      StaleJustified(d, plan, ops[1..], replies);
    }
  }

  lemma FailStaleJustified(d: Disk, plan: Plan, current: Projection, pointer: Pointer, replies: map<Operation, Reply>)
    ensures AllJustified(plan, replies, FailStale(d, plan, current, pointer).actions)
  {
    hide Justified, StaleReceipts, StaleConcluded;
    StaleJustified(d, plan, plan.operations, replies);
    var receipts := StaleReceipts(d, plan, plan.operations);
    ConcludingWritesNone(Run(d, receipts), plan, current, pointer);
    ThenNone(plan, replies, receipts, StaleConcluded(Run(d, receipts), plan, current, pointer).actions);
  }

  lemma ConcludingWritesNone(d: Disk, plan: Plan, current: Projection, pointer: Pointer)
    ensures NoReceipts(StaleConcluded(d, plan, current, pointer).actions)
  {
    hide StaleVerdict, ResultsOf, Complete;
  }

  lemma ThenNone(plan: Plan, replies: map<Operation, Reply>, actions: seq<Action>, more: seq<Action>)
    requires AllJustified(plan, replies, actions) && NoReceipts(more)
    ensures AllJustified(plan, replies, actions + more)
  {
    hide ReceiptSays;
  }

  lemma ServingWritesNone(d: Disk, plan: Plan, current: Projection, pointer: Pointer, run: SyncRun)
    ensures NoReceipts(FinalizeServing(d, plan, current, pointer, run).actions)
    ensures NoReceipts(FinalizeOwned(d, plan, current, pointer, run).actions)
  {
    hide Replay, Complete, ResultsOf;
  }

  lemma ReconcileWritesNone(d: Disk, pointer: Pointer)
    ensures NoReceipts(Reconcile(d, pointer).actions)
  {
    hide Replay, AllReceiptsSucceeded, ResultsOf;
  }

  lemma StageWritesNone(d: Disk, plan: Plan)
    ensures NoReceipts(StagePlan(d, plan).actions)
  {
    hide ValidPlan;
  }

  lemma FinalizeJustified(d: Disk, plan: Plan, current: Projection, replies: map<Operation, Reply>)
    ensures AllJustified(plan, replies, Finalize(d, plan, current).actions)
  {
    hide ReceiptSays, StagePlan, FinalizeServing, FinalizeOwned, FailStale, Reconcile, ValidProjection;
    StageWritesNone(d, plan);
    var e := Run(d, StagePlan(d, plan).actions);
    if e.pointer.Some? {
      var pointer := e.pointer.value;
      ReconcileWritesNone(e, pointer);
      var f := Run(e, Reconcile(e, pointer).actions);
      if plan.run.id in f.runs {
        ServingWritesNone(f, plan, current, pointer, f.runs[plan.run.id]);
      }
      FailStaleJustified(f, plan, current, pointer, replies);
    }
  }

  lemma ServingJustified(d: Disk, plan: Plan, current: Projection, replies: map<Operation, Reply>)
    requires plan.run.id in d.runs
    ensures AllJustified(plan, replies, ExecuteServing(d, plan, current, replies).actions)
  {
    hide ReceiptSays, Attempts, Finalize, ReplayablePlan;
    AttemptsJustified(d, plan, plan.operations, AnyReceiptFailed(d, plan), replies);
    var ran := [PutRun(d.runs[plan.run.id].(state := RunRunning))]
      + Attempts(d, plan, plan.operations, AnyReceiptFailed(d, plan), replies);
    FinalizeJustified(Run(d, ran), plan, current, replies);
  }

  lemma ExecuteJustified(d: Disk, plan: Plan, current: Projection, replies: map<Operation, Reply>)
    ensures AllJustified(plan, replies, Execute(d, plan, current, replies).actions)
  {
    hide ReceiptSays, StagePlan, ExecuteServing, Finalize, FailStale, Reconcile, ValidProjection;
    StageWritesNone(d, plan);
    var e := Run(d, StagePlan(d, plan).actions);
    if e.pointer.Some? {
      var pointer := e.pointer.value;
      ReconcileWritesNone(e, pointer);
      var f := Run(e, Reconcile(e, pointer).actions);
      if plan.run.id in f.runs {
        ServingJustified(f, plan, current, replies);
      }
      FinalizeJustified(f, plan, current, replies);
      FailStaleJustified(f, plan, current, pointer, replies);
    }
  }

  /** Every success an execution adds was delivered for its operation. */
  predicate OnlyDelivered(d: Disk, f: Disk, plan: Plan, replies: map<Operation, Reply>) {
    forall key | key in f.results && key !in d.results && f.results[key].OperationSucceeded? ::
      key.run == plan.run.id && key.operation in plan.operations && Delivers(key.operation, replies)
  }

  lemma ExecuteDelivers(d: Disk, plan: Plan, current: Projection, replies: map<Operation, Reply>)
    ensures OnlyDelivered(d, Run(d, Execute(d, plan, current, replies).actions), plan, replies)
  {
    hide Execute;
    var actions := Execute(d, plan, current, replies).actions;
    ExecuteJustified(d, plan, current, replies);
    var f := Run(d, actions);
    forall key | key in f.results && key !in d.results && f.results[key].OperationSucceeded?
      ensures key.run == plan.run.id && key.operation in plan.operations && Delivers(key.operation, replies)
    {
      ReceiptWasPut(d, actions, key);
      assert Justified(plan, replies, PutResult(key, OperationSucceeded));
    }
  }

  // Over whole histories.

  /** The call itself says that the operation succeeded. */
  predicate ReportsSuccess(call: Call, key: ResultKey) {
    match call
    case CallExecute(plan, _, replies) =>
      key.run == plan.run.id && key.operation in plan.operations && Delivers(key.operation, replies)
    case CallRecord(plan, op, outcome) => key == ResultKey(plan.run.id, op) && outcome.OperationSucceeded?
    case _ => false
  }

  /** Finalizing invokes nothing, so no receipt it writes is a success. */
  lemma FinalizeOnlyFails(d: Disk, plan: Plan, current: Projection)
    ensures forall a | a in Finalize(d, plan, current).actions :: a.PutResult? ==> a.outcome.OperationFailed?
  {
    hide Finalize;
    FinalizeJustified(d, plan, current, map[]);
    forall a | a in Finalize(d, plan, current).actions ensures a.PutResult? ==> a.outcome.OperationFailed? {
      assert Justified(plan, map[], a);
    }
  }

  lemma CallReports(d: Disk, call: Call, key: ResultKey)
    requires PutResult(key, OperationSucceeded) in ActionsOf(d, call)
    ensures ReportsSuccess(call, key)
  {
    var a := PutResult(key, OperationSucceeded);
    match call {
      case CallInitialize(initial) =>
      case CallStage(plan) => StageWritesNone(d, plan);
      case CallRecord(plan, op, outcome) => StageWritesNone(d, plan);
      case CallFinalize(plan, current) => FinalizeOnlyFails(d, plan, current);
      case CallExecute(plan, current, replies) =>
        ExecuteJustified(d, plan, current, replies);
        assert Justified(plan, replies, a);
      case CallRollback(plan, base) =>
    }
  }

  /** Whatever was cut, a success in the log was reported by some call for that operation. */
  lemma {:induction false} NoSuccessInvented(history: seq<Event>, key: ResultKey)
    requires PutResult(key, OperationSucceeded) in Log(history)
    ensures exists event | event in history :: ReportsSuccess(event.call, key)
    decreases |history|
  {
    hide ReportsSuccess, ActionsOf;
    var earlier, last := history[..|history| - 1], history[|history| - 1];
    assert history == earlier + [last];
    var d := Run(EmptyDisk, Log(earlier));
    if PutResult(key, OperationSucceeded) in Log(earlier) {
      NoSuccessInvented(earlier, key);
    } else {
      assert PutResult(key, OperationSucceeded) in Performed(d, last);
      assert PutResult(key, OperationSucceeded) in ActionsOf(d, last.call);
      CallReports(d, last.call, key);
      assert last in history;
    }
  }

  lemma RunNone(d: Disk)
    ensures Run(d, []) == d
  {
  }

  lemma ApplyPuts(d: Disk, a: Action, key: ResultKey)
    ensures key in Apply(d, a).results ==>
              || a == PutResult(key, Apply(d, a).results[key])
              || (key in d.results && d.results[key] == Apply(d, a).results[key])
  {
  }

  lemma {:induction false} ReceiptWasPut(d: Disk, actions: seq<Action>, key: ResultKey)
    requires key !in d.results && key in Run(d, actions).results
    ensures PutResult(key, Run(d, actions).results[key]) in actions
    decreases |actions|
  {
    hide Run, Apply;
    if actions == [] {
      RunNone(d);
    }
    var front, last := actions[..|actions| - 1], actions[|actions| - 1];
    assert actions == front + [last];
    RunAppend(d, front, [last]);
    RunOne(Run(d, front), last);
    ApplyPuts(Run(d, front), last, key);
    if key in Run(d, front).results {
      ReceiptWasPut(d, front, key);
    }
  }

  /**
   Nothing is published on results nobody reported: when the pointer advances to a
   plan, some call had reported the success of each of its operations.
   */
  lemma PublishedWasReported(history: seq<Event>, i: nat, op: Operation)
    requires Fresh(history) && i < |Log(history)|
    requires Log(history)[i].PutPointer? && Log(history)[i].pointer.owner.Some?
    requires op in Log(history)[i].pointer.owner.value.plan.operations
    ensures var plan := Log(history)[i].pointer.owner.value.plan;
            exists event | event in history :: ReportsSuccess(event.call, ResultKey(plan.run.id, op))
  {
    PointerAdvance(history, i);
    var key := ResultKey(Log(history)[i].pointer.owner.value.plan.run.id, op);
    hide Replay, ResultsOf, Fresh, Log, Complete, ReportsSuccess;
    assert Run(EmptyDisk, Log(history)[..i]).results[key] == OperationSucceeded;
    ReceiptWasPut(EmptyDisk, Log(history)[..i], key);
    var j :| 0 <= j < i && Log(history)[j] == PutResult(key, OperationSucceeded);
    assert Log(history)[j] in Log(history);
    NoSuccessInvented(history, key);
  }
}
