/**
 Finalizing, executing, initializing and rolling back are guarded as well; and
 with that, crash safety and the executor discipline over whole histories.
 */
module JournalPublication {
  import opened Wrappers
  import opened Catalog
  import opened Replaying
  import opened PlanReplay
  import opened Journal
  import opened JournalSafety
  import opened JournalGuards

  /** So replay never takes the branch for a plan its base already lists. */
  lemma NotApplied(d: Disk, plan: Plan, current: Projection)
    requires ProjectionsOk(d) && VerifiesBase(d, plan, current)
    ensures plan !in current.applied
  {
  }

  lemma SuccessIsCandidate(d: Disk, plan: Plan, current: Projection)
    requires ProjectionsOk(d) && VerifiesBase(d, plan, current) && Complete(d, plan)
    requires var replayed := Replay(plan, current, ResultsOf(d, plan));
             replayed.Ok? && !replayed.value.1.runState.RunFailed?
    ensures Candidate(d, plan, Replay(plan, current, ResultsOf(d, plan)).value.0)
  {
    NotApplied(d, plan, current);
    ReplayReduces(plan, current, ResultsOf(d, plan));
    OutcomesOfResults(d, plan);
  }

  predicate CanPublish(d: Disk, plan: Plan, p: Projection, run: SyncRun) {
    && IsStaged(d, plan)
    && Unfinished(d, plan.run.id)
    && SameIdentity(run, plan.run)
    && d.pointer.Some? && d.pointer.value.version == plan.run.base
    && OwnerSettled(d)
    && Candidate(d, plan, p)
  }

  lemma CandidateAppears(d: Disk, plan: Plan, p: Projection, run: SyncRun)
    requires CanPublish(d, plan, p, run) && p.version !in d.projections
    ensures Allowed(d, PutProjection(p))
    ensures CanPublish(Apply(d, PutProjection(p)), plan, p, run)
    ensures p.version in Apply(d, PutProjection(p)).projections
    ensures Apply(d, PutProjection(p)).projections[p.version] == p
  {
    CandidateFacts(d, plan, p);
    assert d.plans[plan.run.id].run.base == d.pointer.value.version && Candidate(d, d.plans[plan.run.id], p);
    CandidateFrame(d, Apply(d, PutProjection(p)), plan, p);
  }

  lemma PointerMoves(d: Disk, plan: Plan, p: Projection, run: SyncRun)
    requires CanPublish(d, plan, p, run)
    requires p.version in d.projections && d.projections[p.version] == p
    ensures var next := Named(p, Some(Owner(plan.run.id, plan)));
            && Allowed(d, PutPointer(next))
            && MayConclude(Apply(d, PutPointer(next)), plan, p, run.(state := RunSucceeded))
  {
    CandidateFacts(d, plan, p);
  }

  lemma ConcludePublished(d: Disk, plan: Plan, p: Projection, run: SyncRun, moved: seq<Action>)
    requires Guarded(d, moved)
    requires MayConclude(Run(d, moved), plan, p, run)
    ensures Guarded(d, moved + Conclude(Run(d, moved), plan, p, run).actions)
  {
    ConcludeSound(Run(d, moved), plan, p, run);
    GuardedAppend(d, moved, Conclude(Run(d, moved), plan, p, run).actions);
  }

  lemma PublishSound(d: Disk, plan: Plan, p: Projection, run: SyncRun)
    requires CanPublish(d, plan, p, run)
    ensures Sound(d, PublishCandidate(d, plan, p, run))
  {
    var next := PutPointer(Named(p, Some(Owner(plan.run.id, plan))));
    if p.version !in d.projections {
      CandidateAppears(d, plan, p, run);
      PointerMoves(Apply(d, PutProjection(p)), plan, p, run);
      TwoActions(d, PutProjection(p), next);
      assert [PutProjection(p)] + [next] == [PutProjection(p), next];
      ConcludePublished(d, plan, p, run.(state := RunSucceeded), [PutProjection(p), next]);
    } else if d.projections[p.version] == p {
      PointerMoves(d, plan, p, run);
      OneAction(d, next);
      assert [] + [next] == [next];
      ConcludePublished(d, plan, p, run.(state := RunSucceeded), [next]);
    }
  }

  /** The reduction of a failed run is its own stale verdict. */
  lemma FailedVerdict(d: Disk, plan: Plan, current: Projection)
    requires ProjectionsOk(d) && VerifiesBase(d, plan, current) && Complete(d, plan)
    requires var replayed := Replay(plan, current, ResultsOf(d, plan));
             replayed.Ok? && replayed.value.1.runState.RunFailed?
    ensures StaleVerdictOf(d, plan, Replay(plan, current, ResultsOf(d, plan)).value.0)
  {
    NotApplied(d, plan, current);
    ReplayReduces(plan, current, ResultsOf(d, plan));
  }

  lemma FailRunSound(d: Disk, plan: Plan, p: Projection, run: SyncRun, pointer: Pointer)
    requires IsStaged(d, plan) && Unfinished(d, plan.run.id) && OwnerSettled(d)
    requires SameIdentity(run, plan.run) && StaleVerdictOf(d, plan, p)
    ensures Sound(d, FailRun(d, plan, p, run, pointer))
  {
    ConcludeSound(d, plan, p, run.(state := RunFailed));
  }

  lemma MayPublish(d: Disk, plan: Plan, current: Projection, pointer: Pointer)
    requires RunsOk(d) && ProjectionsOk(d)
    requires IsStaged(d, plan) && Unfinished(d, plan.run.id) && OwnerSettled(d)
    requires d.pointer == Some(pointer)
    requires VerifiesBase(d, plan, current) && MatchesBase(pointer, plan, current) && Complete(d, plan)
    requires var replayed := Replay(plan, current, ResultsOf(d, plan));
             replayed.Ok? && !replayed.value.1.runState.RunFailed?
    ensures CanPublish(d, plan, Replay(plan, current, ResultsOf(d, plan)).value.0, d.runs[plan.run.id])
  {
    SuccessIsCandidate(d, plan, current);
  }

  lemma FinalizeServingSound(d: Disk, plan: Plan, current: Projection, pointer: Pointer)
    requires RunsOk(d) && ProjectionsOk(d)
    requires IsStaged(d, plan) && Unfinished(d, plan.run.id) && OwnerSettled(d)
    requires d.pointer == Some(pointer)
    requires VerifiesBase(d, plan, current) && MatchesBase(pointer, plan, current)
    ensures Sound(d, FinalizeServing(d, plan, current, pointer, d.runs[plan.run.id]))
  {
    var run := d.runs[plan.run.id];
    if Complete(d, plan) && Replay(plan, current, ResultsOf(d, plan)).Ok? {
      var (p, report) := Replay(plan, current, ResultsOf(d, plan)).value;
      if report.runState.RunFailed? {
        FailedVerdict(d, plan, current);
        FailRunSound(d, plan, p, run, pointer);
      } else {
        MayPublish(d, plan, current, pointer);
        PublishSound(d, plan, p, run);
      }
    }
  }

  /** The branch for a pointer the plan already owns is never reached. */
  lemma OwnPointerUnreachable(d: Disk, plan: Plan, pointer: Pointer)
    requires d.pointer == Some(pointer) && Unfinished(d, plan.run.id) && OwnerSettled(d)
    ensures !OwnedBy(pointer, plan)
  {
  }

  lemma FinalizeReconciledSound(d: Disk, plan: Plan, current: Projection, pointer: Pointer)
    requires PlansOk(d) && RunsOk(d) && ProjectionsOk(d)
    requires IsStaged(d, plan) && OwnerSettled(d)
    requires d.pointer == Some(pointer)
    ensures Sound(d, FinalizeReconciled(d, plan, current, pointer))
  {
    if Unfinished(d, plan.run.id) && VerifiesBase(d, plan, current) {
      OwnPointerUnreachable(d, plan, pointer);
      if MatchesBase(pointer, plan, current) {
        FinalizeServingSound(d, plan, current, pointer);
      } else {
        StaleFailureSound(d, plan, current, pointer);
      }
    }
  }

  /** Reconciling settles every run and keeps what is staged. */
  lemma ReconcileSettles(d: Disk, plan: Plan, pointer: Pointer)
    requires Inv(d) && d.pointer == Some(pointer) && IsStaged(d, plan)
    requires Reconcile(d, pointer).result.Ok?
    ensures var e := Run(d, Reconcile(d, pointer).actions);
            Inv(e) && IsStaged(e, plan) && OwnerSettled(e) && e.pointer == Some(pointer)
    ensures Guarded(d, Reconcile(d, pointer).actions)
  {
    ReconcileSound(d, pointer);
    GuardedKeeps(d, Reconcile(d, pointer).actions);
  }

  lemma FinalizeChained(d: Disk, actions: seq<Action>, plan: Plan, current: Projection, pointer: Pointer)
    requires Guarded(d, actions)
    requires var e := Run(d, actions);
             Inv(e) && IsStaged(e, plan) && OwnerSettled(e) && e.pointer == Some(pointer)
    ensures Sound(d, After(actions, FinalizeReconciled(Run(d, actions), plan, current, pointer)))
  {
    FinalizeReconciledSound(Run(d, actions), plan, current, pointer);
    Chained(d, actions, FinalizeReconciled(Run(d, actions), plan, current, pointer));
  }

  /** Finalizing a staged plan either does nothing or starts by reconciling. */
  lemma FinalizeStagedCases(d: Disk, plan: Plan, current: Projection)
    ensures FinalizeStaged(d, plan, current).actions == []
         || (d.pointer.Some?
            && Reconcile(d, d.pointer.value).result.Ok?
            && FinalizeStaged(d, plan, current)
               == After(Reconcile(d, d.pointer.value).actions,
                        FinalizeReconciled(Run(d, Reconcile(d, d.pointer.value).actions), plan, current, d.pointer.value)))
  {
  }

  lemma FinalizeStagedSound(d: Disk, plan: Plan, current: Projection)
    requires Inv(d) && IsStaged(d, plan)
    ensures Sound(d, FinalizeStaged(d, plan, current))
  {
    FinalizeStagedCases(d, plan, current);
    if FinalizeStaged(d, plan, current).actions != [] {
      var pointer := d.pointer.value;
      ReconcileSettles(d, plan, pointer);
      FinalizeChained(d, Reconcile(d, pointer).actions, plan, current, pointer);
    }
  }

  lemma FinalizeSound(d: Disk, plan: Plan, current: Projection)
    requires Inv(d)
    ensures Sound(d, Finalize(d, plan, current))
  {
    StageSound(d, plan);
    var staged := StagePlan(d, plan);
    if staged.result.Ok? {
      GuardedKeeps(d, staged.actions);
      FinalizeStagedSound(Run(d, staged.actions), plan, current);
      Chained(d, staged.actions, FinalizeStaged(Run(d, staged.actions), plan, current));
    }
  }

  lemma RunningAllowed(d: Disk, plan: Plan)
    requires PlansOk(d) && RunsOk(d) && IsStaged(d, plan) && Unfinished(d, plan.run.id)
    ensures Allowed(d, PutRun(d.runs[plan.run.id].(state := RunRunning)))
    ensures var e := Apply(d, PutRun(d.runs[plan.run.id].(state := RunRunning)));
            IsStaged(e, plan) && Unfinished(e, plan.run.id)
  {
  }

  /** Starting the run and attempting its operations is guarded. */
  lemma RanGuarded(d: Disk, plan: Plan, current: Projection, replies: map<Operation, Reply>)
    requires Inv(d) && IsStaged(d, plan) && Unfinished(d, plan.run.id)
    requires d.pointer.Some? && MatchesBase(d.pointer.value, plan, current)
    ensures Guarded(d, [PutRun(d.runs[plan.run.id].(state := RunRunning))]
                       + Attempts(d, plan, plan.operations, AnyReceiptFailed(d, plan), replies))
  {
    var start := PutRun(d.runs[plan.run.id].(state := RunRunning));
    RunningAllowed(d, plan);
    OneAction(d, start);
    var e := Apply(d, start);
    AttemptsSound(d, e, plan, plan.operations, AnyReceiptFailed(d, plan), replies);
    GuardedAppend(d, [start], Attempts(d, plan, plan.operations, AnyReceiptFailed(d, plan), replies));
  }

  lemma RunPresent(d: Disk, plan: Plan)
    requires IsStaged(d, plan)
    ensures plan.run.id in d.runs
  {
  }

  lemma ExecuteServingSound(d: Disk, plan: Plan, current: Projection, replies: map<Operation, Reply>)
    requires Inv(d) && IsStaged(d, plan) && Unfinished(d, plan.run.id)
    requires d.pointer.Some? && MatchesBase(d.pointer.value, plan, current)
    ensures Sound(d, ExecuteServing(d, plan, current, replies))
  {
    assert Guarded(d, []);
    hide Inv, Attempts, Finalize, ReplayablePlan, Guarded, Unfinished, IsStaged;
    if ReplayablePlan(plan, current) {
      RunPresent(d, plan);
      var ran := [PutRun(d.runs[plan.run.id].(state := RunRunning))]
                 + Attempts(d, plan, plan.operations, AnyReceiptFailed(d, plan), replies);
      RanGuarded(d, plan, current, replies);
      GuardedKeeps(d, ran);
      FinalizeSound(Run(d, ran), plan, current);
      Chained(d, ran, Finalize(Run(d, ran), plan, current));
    }
  }

  lemma ExecuteReconciledSound(
    d: Disk, plan: Plan, current: Projection, pointer: Pointer, replies: map<Operation, Reply>)
    requires Inv(d) && IsStaged(d, plan) && OwnerSettled(d)
    requires d.pointer == Some(pointer)
    ensures Sound(d, ExecuteReconciled(d, plan, current, pointer, replies))
  {
    if Unfinished(d, plan.run.id) && VerifiesBase(d, plan, current) {
      OwnPointerUnreachable(d, plan, pointer);
      if MatchesBase(pointer, plan, current) {
        ExecuteServingSound(d, plan, current, replies);
      } else {
        StaleFailureSound(d, plan, current, pointer);
      }
    }
  }

  lemma ExecuteChained(
    d: Disk, actions: seq<Action>, plan: Plan, current: Projection, pointer: Pointer, replies: map<Operation, Reply>)
    requires Guarded(d, actions)
    requires var e := Run(d, actions);
             Inv(e) && IsStaged(e, plan) && OwnerSettled(e) && e.pointer == Some(pointer)
    ensures Sound(d, After(actions, ExecuteReconciled(Run(d, actions), plan, current, pointer, replies)))
  {
    ExecuteReconciledSound(Run(d, actions), plan, current, pointer, replies);
    Chained(d, actions, ExecuteReconciled(Run(d, actions), plan, current, pointer, replies));
  }

  /** Executing a staged plan either does nothing or starts by reconciling. */
  lemma ExecuteStagedCases(d: Disk, plan: Plan, current: Projection, replies: map<Operation, Reply>)
    ensures ExecuteStaged(d, plan, current, replies).actions == []
         || (d.pointer.Some?
            && Reconcile(d, d.pointer.value).result.Ok?
            && ExecuteStaged(d, plan, current, replies)
               == After(Reconcile(d, d.pointer.value).actions,
                        ExecuteReconciled(Run(d, Reconcile(d, d.pointer.value).actions), plan, current, d.pointer.value, replies)))
  {
  }

  lemma ExecuteStagedSound(d: Disk, plan: Plan, current: Projection, replies: map<Operation, Reply>)
    requires Inv(d) && IsStaged(d, plan)
    ensures Sound(d, ExecuteStaged(d, plan, current, replies))
  {
    ExecuteStagedCases(d, plan, current, replies);
    if ExecuteStaged(d, plan, current, replies).actions != [] {
      var pointer := d.pointer.value;
      ReconcileSettles(d, plan, pointer);
      ExecuteChained(d, Reconcile(d, pointer).actions, plan, current, pointer, replies);
    }
  }

  lemma ExecuteSound(d: Disk, plan: Plan, current: Projection, replies: map<Operation, Reply>)
    requires Inv(d)
    ensures Sound(d, Execute(d, plan, current, replies))
  {
    StageSound(d, plan);
    var staged := StagePlan(d, plan);
    if staged.result.Ok? {
      GuardedKeeps(d, staged.actions);
      ExecuteStagedSound(Run(d, staged.actions), plan, current, replies);
      Chained(d, staged.actions, ExecuteStaged(Run(d, staged.actions), plan, current, replies));
    }
  }

  lemma InitializeSound(d: Disk, initial: Projection)
    requires Inv(d) && initial.applied == {}
    ensures Sound(d, InitializeServing(d, initial))
  {
    if InitializeServing(d, initial).result.Ok? && d.pointer.None? {
      var next := PutPointer(Named(initial, None));
      if initial.version in d.projections {
        OneAction(d, next);
        assert [] + [next] == [next];
      } else {
        TwoActions(d, PutProjection(initial), next);
        assert [PutProjection(initial)] + [next] == [PutProjection(initial), next];
      }
    }
  }

  lemma RollbackSound(d: Disk, plan: Plan, base: Projection)
    requires Inv(d)
    ensures Sound(d, RollbackServing(d, plan, base))
  {
    hide ValidProjection, Replay, ValidPlan;
    var rolled := RollbackServing(d, plan, base);
    if rolled.result.Ok? {
      var pointer := d.pointer.value;
      var serving := d.projections[pointer.version];
      assert OwnerOk(d, pointer, Owner(plan.run.id, plan));
      CandidateFacts(d, plan, serving);
      var next := Named(base, None);
      forall q | q in base.applied ensures q.run.base != plan.run.version {
        assert q in serving.applied;
      }
      TwoActions(d, PutPointer(next), RemoveProjection(plan.run.version));
    }
  }

  /** The initial projection lists no applied plans. */
  predicate StartsFresh(call: Call) {
    call.CallInitialize? ==> call.initial.applied == {}
  }

  lemma CallSound(d: Disk, call: Call)
    requires Inv(d) && StartsFresh(call)
    ensures Guarded(d, ActionsOf(d, call))
  {
    match call
    case CallInitialize(initial) => InitializeSound(d, initial);
    case CallStage(plan) => StageSound(d, plan);
    case CallRecord(plan, op, outcome) => RecordSound(d, plan, op, outcome);
    case CallFinalize(plan, current) => FinalizeSound(d, plan, current);
    case CallExecute(plan, current, replies) => ExecuteSound(d, plan, current, replies);
    case CallRollback(plan, base) => RollbackSound(d, plan, base);
  }

  // Whole histories.

  predicate Fresh(history: seq<Event>) {
    forall event | event in history :: StartsFresh(event.call)
  }

  lemma EmptyInv()
    ensures Inv(EmptyDisk)
  {
  }

  lemma {:induction false} HistoryKeeps(history: seq<Event>)
    requires Fresh(history)
    ensures Guarded(EmptyDisk, Log(history)) && Inv(DiskAfter(history))
    decreases |history|
  {
    EmptyInv();
    if history != [] {
      var earlier, event := history[..|history| - 1], history[|history| - 1];
      assert forall e | e in earlier :: e in history;
      HistoryKeeps(earlier);
      var d := DiskAfter(earlier);
      assert event in history;
      CallSound(d, event.call);
      GuardedPrefix(d, ActionsOf(d, event.call), |Performed(d, event)|);
      var actions := ActionsOf(d, event.call);
      assert actions[..|actions|] == actions;
      GuardedAppend(EmptyDisk, Log(earlier), Performed(d, event));
    }
    GuardedKeeps(EmptyDisk, Log(history));
  }

  /** What a reader of the serving pointer can rely on. */
  predicate ServingIsSafe(d: Disk) {
    d.pointer.Some? ==>
      var pointer := d.pointer.value;
      && pointer.version in d.projections
      && (var serving := d.projections[pointer.version];
          && ValidProjection(serving)
          && serving.state.StatePublished?
          && serving.version == pointer.version
          && serving.scope == pointer.scope
          && serving.snapshot.version == pointer.snapshotVersion)
      && match pointer.owner
         case None => true
         case Some(Owner(id, plan)) =>
           && id in d.plans && d.plans[id] == plan
           && plan.run.id == id && plan.run.version == pointer.version
           && (forall op | op in plan.operations ::
                 ResultKey(id, op) in d.results && d.results[ResultKey(id, op)].OperationSucceeded?)
           && plan.run.base in d.projections
           && id in d.runs && !d.runs[id].state.RunFailed?
  }

  lemma InvIsSafe(d: Disk)
    requires Inv(d)
    ensures ServingIsSafe(d)
  {
    if d.pointer.Some? && d.pointer.value.owner.Some? {
      var owner := d.pointer.value.owner.value;
      assert OwnerOk(d, d.pointer.value, owner);
      forall op | op in owner.plan.operations
        ensures ResultKey(owner.run, op) in d.results && d.results[ResultKey(owner.run, op)].OperationSucceeded?
      {
        assert HasResult(d, owner.plan, op);
      }
    }
  }

  /**
   Crash safety. After any history of store operations, rollbacks included, each
   cut after any prefix of its actions, the serving pointer names a persisted
   published projection, and a run that owns it has its plan and base persisted,
   only successful receipts, and no failed record.
   */
  lemma CrashSafety(history: seq<Event>)
    requires Fresh(history)
    ensures ServingIsSafe(DiskAfter(history))
  {
    HistoryKeeps(history);
    InvIsSafe(DiskAfter(history));
  }

  // Discipline.

  lemma {:induction false} GuardedAt(d: Disk, actions: seq<Action>, i: nat)
    requires Guarded(d, actions) && i < |actions|
    ensures Allowed(Run(d, actions[..i]), actions[i])
    decreases i
  {
    if i > 0 {
      assert actions[..i][1..] == actions[1..][..i - 1];
      GuardedAt(Apply(d, actions[0]), actions[1..], i - 1);
    }
  }

  /** Plans, receipts and terminal records never change again. */
  predicate Grows(d: Disk, e: Disk) {
    && KeepsResults(d, e)
    && (forall id | id in d.plans :: id in e.plans && e.plans[id] == d.plans[id])
    && (forall id | id in d.runs :: id in e.runs && (d.runs[id].state.IsTerminal() ==> e.runs[id] == d.runs[id]))
    && (forall id | id in d.verdicts :: id in e.verdicts && e.verdicts[id] == d.verdicts[id])
  }

  lemma StepGrows(d: Disk, a: Action)
    requires Allowed(d, a)
    ensures Grows(d, Apply(d, a))
  {
  }

  lemma GrowsTransitive(d: Disk, e: Disk, f: Disk)
    requires Grows(d, e) && Grows(e, f)
    ensures Grows(d, f)
  {
  }

  lemma {:induction false} RunGrows(d: Disk, actions: seq<Action>)
    requires Guarded(d, actions)
    ensures Grows(d, Run(d, actions))
    decreases |actions|
  {
    if actions != [] {
      StepGrows(d, actions[0]);
      RunGrows(Apply(d, actions[0]), actions[1..]);
      GrowsTransitive(d, Apply(d, actions[0]), Run(d, actions));
    }
  }

  lemma {:induction false} RunSuffix(d: Disk, actions: seq<Action>, i: nat, j: nat)
    requires Guarded(d, actions) && i < j <= |actions|
    ensures Grows(Apply(Run(d, actions[..i]), actions[i]), Run(d, actions[..j]))
    decreases i
  {
    if i == 0 {
      GuardedPrefix(d, actions, j);
      assert actions[..j][1..] == actions[1..j];
      RunGrows(Apply(d, actions[0]), actions[1..j]);
    } else {
      assert actions[..i][1..] == actions[1..][..i - 1];
      assert actions[..j][1..] == actions[1..][..j - 1];
      RunSuffix(Apply(d, actions[0]), actions[1..], i - 1, j - 1);
    }
  }

  /** From just after action i to just before action j. */
  lemma Between(actions: seq<Action>, i: nat, j: nat)
    requires Guarded(EmptyDisk, actions) && i < j < |actions|
    ensures var before := Run(EmptyDisk, actions[..j]);
            && Allowed(before, actions[j])
            && Inv(before)
            && Allowed(Run(EmptyDisk, actions[..i]), actions[i])
            && Grows(Apply(Run(EmptyDisk, actions[..i]), actions[i]), before)
  {
    GuardedAt(EmptyDisk, actions, i);
    GuardedAt(EmptyDisk, actions, j);
    EmptyInv();
    GuardedPrefix(EmptyDisk, actions, j);
    GuardedKeeps(EmptyDisk, actions[..j]);
    RunSuffix(EmptyDisk, actions, i, j);
  }

  lemma FailedReceiptStands(d: Disk, key: ResultKey)
    requires ResultsOk(d) && PlansOk(d) && key in d.results && d.results[key].OperationFailed?
    ensures key.run in d.plans && AnyReceiptFailed(d, d.plans[key.run])
  {
    assert HasResult(d, d.plans[key.run], key.operation);
  }

  /** Written once: what an action recorded, no later guarded action records again. */
  lemma RecordedOnce(d: Disk, a: Action, before: Disk, b: Action)
    requires Allowed(d, a) && Allowed(before, b) && Grows(Apply(d, a), before)
    ensures a.PutResult? && b.PutResult? ==> a.key != b.key
    ensures a.PutPlan? && b.PutPlan? ==> a.plan.run.id != b.plan.run.id
    ensures a.PutVerdict? && b.PutVerdict? ==> a.owner != b.owner
    ensures a.PutRun? && a.run.state.IsTerminal() && b.PutRun? ==> a.run.id != b.run.id
  {
    hide ValidPlan, StaleVerdictOf, PointerMayBecome, MayAppear;
  }

  lemma NoneInvokedAgain(d: Disk, a: Action, before: Disk, b: Action)
    requires Allowed(d, a) && Allowed(before, b) && Inv(before) && Grows(Apply(d, a), before)
    ensures a.PutResult? && b.Invoke? ==> a.key != b.key
    ensures a.PutResult? && a.outcome.OperationFailed? && b.Invoke? ==> a.key.run != b.key.run
    ensures a.PutRun? && a.run.state.IsTerminal() && b.Invoke? ==> a.run.id != b.key.run
  {
    hide ValidPlan, ProjectionsOk, PointerOk, RunsOk, StaleVerdictOf, PointerMayBecome, MayAppear;
    if a.PutResult? && a.outcome.OperationFailed? {
      FailedReceiptStands(before, a.key);
    }
  }

  /**
   Executor discipline. Across any crashes and retries: receipts, plans and run
   verdicts are written once, no operation is executed once its receipt is
   durable, none is executed after any failed receipt of its run, and a run that
   reached a terminal record is never recorded again.
   */
  lemma ExecutorDiscipline(history: seq<Event>, i: nat, j: nat)
    requires Fresh(history) && i < j < |Log(history)|
    ensures var a, b := Log(history)[i], Log(history)[j];
            && (a.PutResult? && b.PutResult? ==> a.key != b.key)
            && (a.PutPlan? && b.PutPlan? ==> a.plan.run.id != b.plan.run.id)
            && (a.PutVerdict? && b.PutVerdict? ==> a.owner != b.owner)
            && (a.PutResult? && b.Invoke? ==> a.key != b.key)
            && (a.PutResult? && a.outcome.OperationFailed? && b.Invoke? ==> a.key.run != b.key.run)
            && (a.PutRun? && a.run.state.IsTerminal() && b.PutRun? ==> a.run.id != b.run.id)
            && (a.PutRun? && a.run.state.IsTerminal() && b.Invoke? ==> a.run.id != b.key.run)
  {
    HistoryKeeps(history);
    var actions := Log(history);
    Between(actions, i, j);
    hide Allowed, Inv, Grows, Guarded, Run, Apply;
    var d, before := Run(EmptyDisk, actions[..i]), Run(EmptyDisk, actions[..j]);
    RecordedOnce(d, actions[i], before, actions[j]);
    NoneInvokedAgain(d, actions[i], before, actions[j]);
  }

  /**
   The pointer advances only from exactly the plan's base version, to the
   persisted reduction of that base under the plan's receipts, all successful.
   */
  lemma PointerAdvance(history: seq<Event>, i: nat)
    requires Fresh(history) && i < |Log(history)|
    requires Log(history)[i].PutPointer? && Log(history)[i].pointer.owner.Some?
    ensures var next := Log(history)[i].pointer;
            var plan := next.owner.value.plan;
            var d := Run(EmptyDisk, Log(history)[..i]);
            && d.pointer.Some? && d.pointer.value.version == plan.run.base
            && next.version == plan.run.version
            && AllReceiptsSucceeded(d, plan)
            && Complete(d, plan)
            && plan.run.base in d.projections && next.version in d.projections
            && (var replayed := Replay(plan, d.projections[plan.run.base], ResultsOf(d, plan));
                replayed.Ok? && replayed.value.0 == d.projections[next.version])
  {
    HistoryKeeps(history);
    GuardedAt(EmptyDisk, Log(history), i);
  }
}
