/**
 What a successful answer of the store means: the execution it reports is the
 terminal record, the run projection and the pointer found on disk afterwards.
 */
module JournalReports {
  import opened Wrappers
  import opened Catalog
  import opened Replaying
  import opened Journal
  import opened JournalSafety
  import opened JournalGuards
  import opened JournalPublication

  /** The run is over, and this is how it is recorded. */
  predicate Reports(d: Disk, plan: Plan, x: Execution) {
    && plan.run.id in d.runs && d.runs[plan.run.id].state == x.runState && x.runState.IsTerminal()
    && plan.run.id in d.verdicts && d.verdicts[plan.run.id] == x.projection
    && d.pointer == Some(x.pointer)
    && (x.pointerAdvanced ==> x.runState.RunSucceeded? && x.pointer == Named(x.projection, Some(Owner(plan.run.id, plan))))
  }

  predicate Answers(d: Disk, plan: Plan, e: Effect<Execution>) {
    e.result.Ok? ==> Reports(Run(d, e.actions), plan, e.result.value)
  }

  lemma AnswersAfter(d: Disk, actions: seq<Action>, plan: Plan, rest: Effect<Execution>)
    requires Answers(Run(d, actions), plan, rest)
    ensures Answers(d, plan, After(actions, rest))
  {
    RunAppend(d, actions, rest.actions);
  }

  /** A finished run can always be read back, as often as one likes, without a write. */
  lemma FinishedReadsBack(d: Disk, plan: Plan)
    requires Inv(d) && d.pointer.Some?
    requires plan.run.id in d.runs && d.runs[plan.run.id].state.IsTerminal()
    ensures var read := PersistedExecution(d, plan, d.runs[plan.run.id].state);
            read.actions == [] && read.result.Ok? && Reports(d, plan, read.result.value)
            && read.result.value.idempotentNoop
  {
  }

  lemma PersistedAnswers(d: Disk, plan: Plan)
    requires plan.run.id in d.runs && d.runs[plan.run.id].state.IsTerminal()
    ensures Answers(d, plan, PersistedExecution(d, plan, d.runs[plan.run.id].state))
  {
  }

  lemma PublishAnswers(d: Disk, plan: Plan, p: Projection, run: SyncRun)
    requires run.id == plan.run.id
    ensures Answers(d, plan, PublishCandidate(d, plan, p, run))
  {
    var next := Named(p, Some(Owner(plan.run.id, plan)));
    var candidate := if p.version in d.projections then [] else [PutProjection(p)];
    var moved := candidate + [PutPointer(next)];
    var e := Run(d, moved);
    RunAppend(d, candidate, [PutPointer(next)]);
    OnePut(Run(d, candidate), PutPointer(next));
    var done := run.(state := RunSucceeded);
    ConcludeEffect(e, plan, p, done);
    RunAppend(d, moved, Conclude(e, plan, p, done).actions);
  }

  lemma OnePut(d: Disk, a: Action)
    ensures Run(d, [a]) == Apply(d, a)
  {
    assert [a][1..] == [];
  }

  lemma FinalizeServingAnswers(d: Disk, plan: Plan, current: Projection, pointer: Pointer, run: SyncRun)
    requires d.pointer == Some(pointer) && run.id == plan.run.id
    ensures Answers(d, plan, FinalizeServing(d, plan, current, pointer, run))
    ensures Answers(d, plan, FinalizeOwned(d, plan, current, pointer, run))
  {
    hide Replay, ResultsOf, PublishCandidate, Complete;
    if Complete(d, plan) && Replay(plan, current, ResultsOf(d, plan)).Ok? {
      var (projection, report) := Replay(plan, current, ResultsOf(d, plan)).value;
      PublishAnswers(d, plan, projection, run);
      ConcludeEffect(d, plan, projection, run.(state := RunFailed));
      ConcludeEffect(d, plan, projection, run.(state := RunSucceeded));
    }
  }

  lemma StagedRunID(d: Disk, plan: Plan)
    requires PlansOk(d) && RunsOk(d) && IsStaged(d, plan)
    ensures d.runs[plan.run.id].id == plan.run.id
  {
  }

  lemma FinalizeReconciledAnswers(d: Disk, plan: Plan, current: Projection, pointer: Pointer)
    requires PlansOk(d) && RunsOk(d) && IsStaged(d, plan) && d.pointer == Some(pointer)
    ensures Answers(d, plan, FinalizeReconciled(d, plan, current, pointer))
  {
    hide FinalizeServing, FinalizeOwned, FailStale, PlansOk, RunsOk;
    StagedRunID(d, plan);
    FinalizeServingAnswers(d, plan, current, pointer, d.runs[plan.run.id]);
    if d.runs[plan.run.id].state.IsTerminal() {
      PersistedAnswers(d, plan);
    }
    StaleIsError(d, plan, current, pointer);
  }

  lemma StaleIsError(d: Disk, plan: Plan, current: Projection, pointer: Pointer)
    ensures FailStale(d, plan, current, pointer).result.Err?
  {
  }

  lemma FinalizeStagedAnswers(d: Disk, plan: Plan, current: Projection)
    requires Inv(d) && IsStaged(d, plan)
    ensures Answers(d, plan, FinalizeStaged(d, plan, current))
  {
    hide FinalizeReconciled, Reconcile, Inv;
    if d.pointer.Some? && Reconcile(d, d.pointer.value).result.Ok? {
      var pointer := d.pointer.value;
      ReconcileSettles(d, plan, pointer);
      var actions := Reconcile(d, pointer).actions;
      InvParts(Run(d, actions));
      FinalizeReconciledAnswers(Run(d, actions), plan, current, pointer);
      AnswersAfter(d, actions, plan, FinalizeReconciled(Run(d, actions), plan, current, pointer));
    }
    if plan.run.id in d.runs && d.runs[plan.run.id].state.IsTerminal() {
      PersistedAnswers(d, plan);
    }
  }

  lemma InvParts(d: Disk)
    requires Inv(d)
    ensures PlansOk(d) && RunsOk(d) && ProjectionsOk(d)
  {
  }

  lemma FinalizeReports(d: Disk, plan: Plan, current: Projection)
    requires Inv(d)
    ensures Answers(d, plan, Finalize(d, plan, current))
  {
    hide FinalizeStaged, StagePlan, Inv;
    StageSound(d, plan);
    var staged := StagePlan(d, plan);
    if staged.result.Ok? {
      GuardedKeeps(d, staged.actions);
      FinalizeStagedAnswers(Run(d, staged.actions), plan, current);
      AnswersAfter(d, staged.actions, plan, FinalizeStaged(Run(d, staged.actions), plan, current));
    }
  }

  lemma ExecuteServingAnswers(d: Disk, plan: Plan, current: Projection, replies: map<Operation, Reply>)
    requires Inv(d) && IsStaged(d, plan) && Unfinished(d, plan.run.id)
    requires d.pointer.Some? && MatchesBase(d.pointer.value, plan, current)
    ensures Answers(d, plan, ExecuteServing(d, plan, current, replies))
  {
    hide Finalize, Attempts, Inv;
    if ReplayablePlan(plan, current) {
      var start := PutRun(d.runs[plan.run.id].(state := RunRunning));
      var attempts := Attempts(d, plan, plan.operations, AnyReceiptFailed(d, plan), replies);
      var ran := [start] + attempts;
      RanGuarded(d, plan, current, replies);
      GuardedKeeps(d, ran);
      FinalizeReports(Run(d, ran), plan, current);
      AnswersAfter(d, ran, plan, Finalize(Run(d, ran), plan, current));
    }
  }

  lemma ExecuteReconciledAnswers(
    d: Disk, plan: Plan, current: Projection, pointer: Pointer, replies: map<Operation, Reply>)
    requires Inv(d) && IsStaged(d, plan) && d.pointer == Some(pointer)
    ensures Answers(d, plan, ExecuteReconciled(d, plan, current, pointer, replies))
  {
    hide ExecuteServing, Finalize, FailStale, Inv;
    FinalizeReports(d, plan, current);
    StaleIsError(d, plan, current, pointer);
    if d.runs[plan.run.id].state.IsTerminal() {
      PersistedAnswers(d, plan);
    } else if MatchesBase(pointer, plan, current) {
      ExecuteServingAnswers(d, plan, current, replies);
    }
  }

  lemma ExecuteStagedAnswers(d: Disk, plan: Plan, current: Projection, replies: map<Operation, Reply>)
    requires Inv(d) && IsStaged(d, plan)
    ensures Answers(d, plan, ExecuteStaged(d, plan, current, replies))
  {
    hide ExecuteReconciled, Reconcile, Inv;
    if d.pointer.Some? && Reconcile(d, d.pointer.value).result.Ok? {
      var pointer := d.pointer.value;
      ReconcileSettles(d, plan, pointer);
      var actions := Reconcile(d, pointer).actions;
      ExecuteReconciledAnswers(Run(d, actions), plan, current, pointer, replies);
      AnswersAfter(d, actions, plan, ExecuteReconciled(Run(d, actions), plan, current, pointer, replies));
    }
    if plan.run.id in d.runs && d.runs[plan.run.id].state.IsTerminal() {
      PersistedAnswers(d, plan);
    }
  }

  /**
   Whatever branch it took and whatever it reconciled first, an execution that
   reports success reports what is on disk: a terminal run, its projection and the
   serving pointer, which names that projection if it was advanced.
   */
  lemma ExecuteReports(d: Disk, plan: Plan, current: Projection, replies: map<Operation, Reply>)
    requires Inv(d)
    ensures Answers(d, plan, Execute(d, plan, current, replies))
  {
    hide ExecuteStaged, StagePlan, Inv;
    StageSound(d, plan);
    var staged := StagePlan(d, plan);
    if staged.result.Ok? {
      GuardedKeeps(d, staged.actions);
      ExecuteStagedAnswers(Run(d, staged.actions), plan, current, replies);
      AnswersAfter(d, staged.actions, plan, ExecuteStaged(Run(d, staged.actions), plan, current, replies));
    }
  }

  /** A recorded result is on disk, with its canonical error code. */
  lemma RecordStands(d: Disk, plan: Plan, op: Operation, outcome: Outcome)
    requires RecordStaged(d, plan, op, outcome).result.Ok?
    ensures var e := Run(d, RecordStaged(d, plan, op, outcome).actions);
            HasResult(e, plan, op) && e.results[ResultKey(plan.run.id, op)] == CanonicalOutcome(outcome)
  {
    var key := ResultKey(plan.run.id, op);
    if key !in d.results {
      OnePut(d, PutResult(key, CanonicalOutcome(outcome)));
    }
  }

  /** Initializing selects exactly the given projection, or changes nothing. */
  lemma InitializeServes(d: Disk, p: Projection)
    requires Inv(d)
    ensures var e := Run(d, InitializeServing(d, p).actions);
            if InitializeServing(d, p).result.Ok? then
              && e.pointer.Some? && e.pointer.value.version == p.version
              && p.version in e.projections && e.projections[p.version] == p
            else e == d
  {
    hide Inv;
    if d.pointer.None? {
      var candidate := if p.version in d.projections then [] else [PutProjection(p)];
      RunAppend(d, candidate, [PutPointer(Named(p, None))]);
      OnePut(Run(d, candidate), PutPointer(Named(p, None)));
      if p.version !in d.projections {
        OnePut(d, PutProjection(p));
      }
    }
  }

  /** Rolling back selects the base again and drops the plan's own projection. */
  lemma RollbackServes(d: Disk, plan: Plan, base: Projection)
    ensures var e := Run(d, RollbackServing(d, plan, base).actions);
            if RollbackServing(d, plan, base).result.Ok? then
              && e.pointer == Some(Named(base, None))
              && base.version in e.projections && e.projections[base.version] == base
              && plan.run.version !in e.projections
            else e == d
  {
    hide ValidProjection, ValidOperation;
    if RollbackServing(d, plan, base).result.Ok? {
      var restored, removed := PutPointer(Named(base, None)), RemoveProjection(plan.run.version);
      assert [restored, removed] == [restored] + [removed];
      RunAppend(d, [restored], [removed]);
      OnePut(d, restored);
      OnePut(Apply(d, restored), removed);
      assert plan.run.version != plan.run.base;
    }
  }
}
