/**
 What an execution report says of itself: whether it moved the pointer, and whether
 there was anything left to do.
 */
module JournalFlags {
  import opened Wrappers
  import opened Catalog
  import opened Replaying
  import opened Journal
  import opened JournalSafety
  import opened JournalGuards
  import opened JournalPublication
  import opened JournalReports
  import opened JournalReceipts

  /** The run is over, or its success is already being served. */
  predicate Done(d: Disk, plan: Plan) {
    || (plan.run.id in d.runs && d.runs[plan.run.id].state.IsTerminal())
    || (d.pointer.Some? && OwnedBy(d.pointer.value, plan))
  }

  predicate MovesPointer(actions: seq<Action>) {
    exists a | a in actions :: a.PutPointer?
  }

  /** Advanced exactly if the pointer was written; a no-op exactly if the plan was done before. */
  predicate Flagged(d: Disk, plan: Plan, e: Effect<Execution>) {
    e.result.Ok? ==>
      && (e.result.value.pointerAdvanced <==> MovesPointer(e.actions))
      && (e.result.value.idempotentNoop <==> Done(d, plan))
  }

  lemma FlaggedAfter(d: Disk, actions: seq<Action>, plan: Plan, rest: Effect<Execution>)
    requires Flagged(Run(d, actions), plan, rest) && !MovesPointer(actions)
    requires Done(Run(d, actions), plan) <==> Done(d, plan)
    ensures Flagged(d, plan, After(actions, rest))
  {
    hide Done;
    var all := actions + rest.actions;
    assert MovesPointer(all) <==> MovesPointer(rest.actions) by {
      if a :| a in rest.actions && a.PutPointer? {
        assert a in all;
      }
    }
  }

  lemma FinalizeServingFlags(d: Disk, plan: Plan, current: Projection, pointer: Pointer, run: SyncRun)
    requires !Done(d, plan)
    ensures Flagged(d, plan, FinalizeServing(d, plan, current, pointer, run))
  {
    hide Replay, Complete, ResultsOf, Done, PublishCandidate, FailRun;
    if Complete(d, plan) && Replay(plan, current, ResultsOf(d, plan)).Ok? {
      var projection := Replay(plan, current, ResultsOf(d, plan)).value.0;
      PublishFlags(d, plan, projection, run);
      FailFlags(d, plan, projection, run, pointer);
    }
  }

  lemma PublishFlags(d: Disk, plan: Plan, projection: Projection, run: SyncRun)
    requires !Done(d, plan)
    ensures Flagged(d, plan, PublishCandidate(d, plan, projection, run))
  {
    hide Conclude, Run;
    var next := PutPointer(Named(projection, Some(Owner(plan.run.id, plan))));
    var e := PublishCandidate(d, plan, projection, run);
    if e.result.Ok? {
      assert next in e.actions;
    }
  }

  lemma FailFlags(d: Disk, plan: Plan, projection: Projection, run: SyncRun, pointer: Pointer)
    requires !Done(d, plan)
    ensures Flagged(d, plan, FailRun(d, plan, projection, run, pointer))
  {
  }

  lemma FinalizeOwnedFlags(d: Disk, plan: Plan, current: Projection, pointer: Pointer, run: SyncRun)
    requires Done(d, plan)
    ensures Flagged(d, plan, FinalizeOwned(d, plan, current, pointer, run))
  {
    hide Replay, Complete, ResultsOf, Done;
  }

  lemma BaseIsNotOwn(pointer: Pointer, plan: Plan, current: Projection)
    requires ValidPlan(plan) && MatchesBase(pointer, plan, current)
    ensures !OwnedBy(pointer, plan)
  {
  }

  lemma FinalizeReconciledFlags(d: Disk, plan: Plan, current: Projection, pointer: Pointer)
    requires ValidPlan(plan) && d.pointer == Some(pointer)
    ensures Flagged(d, plan, FinalizeReconciled(d, plan, current, pointer))
  {
    hide FinalizeServing, FinalizeOwned, StaleFailure, ValidPlan, MatchesBase;
    if plan.run.id in d.runs {
      var run := d.runs[plan.run.id];
      if MatchesBase(pointer, plan, current) && !run.state.IsTerminal() {
        BaseIsNotOwn(pointer, plan, current);
        FinalizeServingFlags(d, plan, current, pointer, run);
      } else if OwnedBy(pointer, plan) {
        FinalizeOwnedFlags(d, plan, current, pointer, run);
      }
    }
  }

  lemma StageKeepsDone(d: Disk, plan: Plan)
    requires StagePlan(d, plan).result.Ok?
    ensures !MovesPointer(StagePlan(d, plan).actions)
    ensures Done(Run(d, StagePlan(d, plan).actions), plan) <==> Done(d, plan)
  {
    hide ValidRun, ValidOperation, Canonical;
    StagesExactly(d, plan);
  }

  lemma ReconcileKeepsDone(d: Disk, plan: Plan, pointer: Pointer)
    requires d.pointer == Some(pointer) && Reconcile(d, pointer).result.Ok?
    requires plan.run.id in d.plans && d.plans[plan.run.id] == plan
    ensures var actions := Reconcile(d, pointer).actions;
            && !MovesPointer(actions) && Run(d, actions).pointer == d.pointer
            && (Done(Run(d, actions), plan) <==> Done(d, plan))
  {
    hide Replay, AllReceiptsSucceeded, ResultsOf;
    var actions := Reconcile(d, pointer).actions;
    if actions != [] {
      var owner := pointer.owner.value;
      var last := actions[|actions| - 1];
      if |actions| == 2 {
        assert actions == [actions[0]] + [last];
        RunAppend(d, [actions[0]], [last]);
        RunOne(d, actions[0]);
        RunOne(Apply(d, actions[0]), last);
      } else {
        RunOne(d, last);
      }
      assert owner.run == plan.run.id ==> OwnedBy(pointer, plan);
    }
  }

  lemma FinalizeFlags(d: Disk, plan: Plan, current: Projection)
    ensures Flagged(d, plan, Finalize(d, plan, current))
  {
    hide FinalizeStaged, StagePlan, Done, ValidPlan;
    var staged := StagePlan(d, plan);
    if staged.result.Ok? {
      StagesExactly(d, plan);
      StageKeepsDone(d, plan);
      FinalizeStagedFlags(Run(d, staged.actions), plan, current);
      FlaggedAfter(d, staged.actions, plan, FinalizeStaged(Run(d, staged.actions), plan, current));
    }
  }

  lemma FinalizeStagedFlags(d: Disk, plan: Plan, current: Projection)
    requires ValidPlan(plan) && plan.run.id in d.plans && d.plans[plan.run.id] == plan
    ensures Flagged(d, plan, FinalizeStaged(d, plan, current))
  {
    hide FinalizeReconciled, Reconcile, ValidPlan, ValidProjection;
    if d.pointer.Some? && Reconcile(d, d.pointer.value).result.Ok? {
      var pointer := d.pointer.value;
      ReconcileKeepsDone(d, plan, pointer);
      var e := Run(d, Reconcile(d, pointer).actions);
      FinalizeReconciledFlags(e, plan, current, pointer);
      FlaggedAfter(d, Reconcile(d, pointer).actions, plan, FinalizeReconciled(e, plan, current, pointer));
    }
  }

  lemma {:induction false} AttemptsKeep(
    d: Disk, e: Disk, plan: Plan, ops: seq<Operation>, failed: bool, replies: map<Operation, Reply>)
    ensures var actions := Attempts(d, plan, ops, failed, replies);
            && !MovesPointer(actions) && Run(e, actions).pointer == e.pointer && Run(e, actions).runs == e.runs
    decreases |ops|
  {
    hide AttemptOutcome;
    if ops != [] {
      if HasResult(d, plan, ops[0]) {
        AttemptsKeep(d, e, plan, ops[1..], failed, replies);
      } else {
        var first := Attempt(plan, ops[0], failed, replies);
        var later := failed || AttemptOutcome(ops[0], failed, replies).OperationFailed?;
        RunAppend(e, first, Attempts(d, plan, ops[1..], later, replies));
        AttemptKeeps(e, plan, ops[0], failed, replies);
        AttemptsKeep(d, Run(e, first), plan, ops[1..], later, replies);
      }
    }
  }

  lemma AttemptKeeps(e: Disk, plan: Plan, op: Operation, failed: bool, replies: map<Operation, Reply>)
    ensures var first := Attempt(plan, op, failed, replies);
            !MovesPointer(first) && Run(e, first).pointer == e.pointer && Run(e, first).runs == e.runs
  {
    hide AttemptOutcome;
    var put := PutResult(ResultKey(plan.run.id, op), AttemptOutcome(op, failed, replies));
    RunOne(e, put);
    if !failed && op in replies {
      var invoke := Invoke(ResultKey(plan.run.id, op));
      RunAppend(e, [invoke], [put]);
      RunOne(e, invoke);
      RunOne(Apply(e, invoke), put);
    } else {
      assert Attempt(plan, op, failed, replies) == [put];
    }
  }

  lemma ExecuteServingFlags(d: Disk, plan: Plan, current: Projection, replies: map<Operation, Reply>)
    requires plan.run.id in d.runs && d.runs[plan.run.id].id == plan.run.id && !Done(d, plan)
    ensures Flagged(d, plan, ExecuteServing(d, plan, current, replies))
  {
    hide Finalize, Attempts, ReplayablePlan;
    var running := PutRun(d.runs[plan.run.id].(state := RunRunning));
    var attempts := Attempts(d, plan, plan.operations, AnyReceiptFailed(d, plan), replies);
    var ran := [running] + attempts;
    RunAppend(d, [running], attempts);
    RunOne(d, running);
    AttemptsKeep(d, Apply(d, running), plan, plan.operations, AnyReceiptFailed(d, plan), replies);
    FinalizeFlags(Run(d, ran), plan, current);
    FlaggedAfter(d, ran, plan, Finalize(Run(d, ran), plan, current));
  }

  lemma ExecuteReconciledFlags(
    d: Disk, plan: Plan, current: Projection, pointer: Pointer, replies: map<Operation, Reply>)
    requires PlansOk(d) && RunsOk(d) && IsStaged(d, plan) && ValidPlan(plan) && d.pointer == Some(pointer)
    ensures Flagged(d, plan, ExecuteReconciled(d, plan, current, pointer, replies))
  {
    hide ExecuteServing, Finalize, StaleFailure, ValidPlan, MatchesBase, PlansOk, RunsOk;
    StagedRunID(d, plan);
    FinalizeFlags(d, plan, current);
    if plan.run.id in d.runs && !d.runs[plan.run.id].state.IsTerminal() && MatchesBase(pointer, plan, current) {
      BaseIsNotOwn(pointer, plan, current);
      ExecuteServingFlags(d, plan, current, replies);
    }
  }

  lemma ExecuteStagedFlags(d: Disk, plan: Plan, current: Projection, replies: map<Operation, Reply>)
    requires Inv(d) && IsStaged(d, plan) && ValidPlan(plan)
    ensures Flagged(d, plan, ExecuteStaged(d, plan, current, replies))
  {
    hide ExecuteReconciled, Reconcile, ValidPlan, ValidProjection, Inv;
    if d.pointer.Some? && Reconcile(d, d.pointer.value).result.Ok? {
      var pointer := d.pointer.value;
      var actions := Reconcile(d, pointer).actions;
      var e := Run(d, actions);
      ReconcileKeepsDone(d, plan, pointer);
      ReconcileSettles(d, plan, pointer);
      InvParts(e);
      ExecuteReconciledFlags(e, plan, current, pointer, replies);
      FlaggedAfter(d, actions, plan, ExecuteReconciled(e, plan, current, pointer, replies));
    }
  }

  /**
   On every branch: an execution that succeeds says that it advanced the pointer
   exactly if it wrote it, and that nothing was left to do exactly if the run was over
   or its success already served when the call began.
   */
  lemma ExecuteFlags(d: Disk, plan: Plan, current: Projection, replies: map<Operation, Reply>)
    requires Inv(d)
    ensures Flagged(d, plan, Execute(d, plan, current, replies))
  {
    hide ExecuteStaged, StagePlan, Done, ValidPlan, Inv;
    StageSound(d, plan);
    var staged := StagePlan(d, plan);
    if staged.result.Ok? {
      StagesExactly(d, plan);
      StageKeepsDone(d, plan);
      GuardedKeeps(d, staged.actions);
      ExecuteStagedFlags(Run(d, staged.actions), plan, current, replies);
      FlaggedAfter(d, staged.actions, plan, ExecuteStaged(Run(d, staged.actions), plan, current, replies));
    }
  }
}
