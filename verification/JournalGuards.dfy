/**
 Every store operation, run from a journal that satisfies the invariant,
 performs only guarded actions.
 */
module JournalGuards {
  import opened Wrappers
  import opened Catalog
  import opened Replaying
  import opened PlanReplay
  import opened Journal
  import opened JournalSafety

  predicate Guarded(d: Disk, actions: seq<Action>)
    decreases |actions|
  {
    actions == [] || (Allowed(d, actions[0]) && Guarded(Apply(d, actions[0]), actions[1..]))
  }

  lemma {:induction false} RunAppend(d: Disk, xs: seq<Action>, ys: seq<Action>)
    ensures Run(d, xs + ys) == Run(Run(d, xs), ys)
    decreases |xs|
  {
    hide Allowed, Apply;
    if xs == [] {
      assert xs + ys == ys;
    } else {
      assert (xs + ys)[1..] == xs[1..] + ys;
      RunAppend(Apply(d, xs[0]), xs[1..], ys);
    }
  }

  lemma {:induction false} GuardedAppend(d: Disk, xs: seq<Action>, ys: seq<Action>)
    requires Guarded(d, xs) && Guarded(Run(d, xs), ys)
    ensures Guarded(d, xs + ys)
    decreases |xs|
  {
    hide Allowed, Apply;
    if xs == [] {
      assert xs + ys == ys;
    } else {
      assert (xs + ys)[1..] == xs[1..] + ys;
      GuardedAppend(Apply(d, xs[0]), xs[1..], ys);
    }
  }

  lemma {:induction false} GuardedPrefix(d: Disk, actions: seq<Action>, n: nat)
    requires Guarded(d, actions) && n <= |actions|
    ensures Guarded(d, actions[..n])
    decreases n
  {
    hide Allowed, Apply;
    if n > 0 {
      assert actions[..n][1..] == actions[1..][..n - 1];
      GuardedPrefix(Apply(d, actions[0]), actions[1..], n - 1);
    }
  }

  lemma {:induction false} GuardedKeeps(d: Disk, actions: seq<Action>)
    requires Inv(d) && Guarded(d, actions)
    ensures Inv(Run(d, actions))
    decreases |actions|
  {
    hide Allowed, Apply, Inv;
    if actions != [] {
      StepKeeps(d, actions[0]);
      GuardedKeeps(Apply(d, actions[0]), actions[1..]);
    }
  }

  /** Every action of the effect is guarded. */
  predicate Sound<T>(d: Disk, e: Effect<T>) {
    Guarded(d, e.actions)
  }

  lemma OneAction(d: Disk, a: Action)
    requires Allowed(d, a)
    ensures Guarded(d, [a]) && Run(d, [a]) == Apply(d, a)
  {
    assert Guarded(Apply(d, a), []);
  }

  lemma TwoActions(d: Disk, a: Action, b: Action)
    requires Allowed(d, a) && Allowed(Apply(d, a), b)
    ensures Guarded(d, [a, b]) && Run(d, [a, b]) == Apply(Apply(d, a), b)
  {
    OneAction(d, a);
    OneAction(Apply(d, a), b);
    GuardedAppend(d, [a], [b]);
    RunAppend(d, [a], [b]);
    assert [a] + [b] == [a, b];
  }

  lemma Chained<T>(d: Disk, actions: seq<Action>, rest: Effect<T>)
    requires Guarded(d, actions) && Sound(Run(d, actions), rest)
    ensures Sound(d, After(actions, rest))
    ensures Run(d, After(actions, rest).actions) == Run(Run(d, actions), rest.actions)
  {
    GuardedAppend(d, actions, rest.actions);
    RunAppend(d, actions, rest.actions);
  }

  // Staging and recording.

  /** After a successful staging the plan and its run are on record. */
  predicate IsStaged(d: Disk, plan: Plan) {
    && plan.run.id in d.plans && d.plans[plan.run.id] == plan
    && plan.run.id in d.runs
  }

  lemma StageRunSound(d: Disk, plan: Plan)
    requires PlansOk(d) && ValidPlan(plan) && plan.run.id in d.plans && d.plans[plan.run.id] == plan
    ensures plan.run.id !in d.runs ==>
              Guarded(d, [] + [PutRun(plan.run)]) && Run(d, [] + [PutRun(plan.run)]) == Apply(d, PutRun(plan.run))
  {
    if plan.run.id !in d.runs {
      OneAction(d, PutRun(plan.run));
      assert [] + [PutRun(plan.run)] == [PutRun(plan.run)];
    }
  }

  lemma StageSound(d: Disk, plan: Plan)
    requires Inv(d)
    ensures Sound(d, StagePlan(d, plan))
    ensures StagePlan(d, plan).result.Ok? ==> IsStaged(Run(d, StagePlan(d, plan).actions), plan)
    ensures var e := Run(d, StagePlan(d, plan).actions);
            && e.pointer == d.pointer && e.projections == d.projections
            && e.results == d.results && e.verdicts == d.verdicts
  {
    hide ValidProjection, StaleVerdictOf, Candidate, PointerMayBecome, MayAppear, PointerOk, ProjectionsOk, ResultsOk;
    var id := plan.run.id;
    if ValidPlan(plan) && !(id in d.plans && d.plans[id] != plan) {
      if id in d.plans {
        StageRunSound(d, plan);
      } else {
        assert id !in d.runs;
        assert Allowed(d, PutPlan(plan));
        assert Allowed(Apply(d, PutPlan(plan)), PutRun(plan.run));
        hide Allowed, PlansOk, RunsOk, ValidPlan;
        TwoActions(d, PutPlan(plan), PutRun(plan.run));
        assert [PutPlan(plan)] + [PutRun(plan.run)] == [PutPlan(plan), PutRun(plan.run)];
      }
    }
  }

  lemma RecordSound(d: Disk, plan: Plan, op: Operation, outcome: Outcome)
    requires Inv(d)
    ensures Sound(d, RecordResult(d, plan, op, outcome))
  {
    StageSound(d, plan);
    var staged := StagePlan(d, plan);
    if staged.result.Ok? {
      var e := Run(d, staged.actions);
      var key := ResultKey(plan.run.id, op);
      if op in plan.operations && key !in e.results {
        OneAction(e, PutResult(key, CanonicalOutcome(outcome)));
      }
      Chained(d, staged.actions, RecordStaged(e, plan, op, outcome));
    }
  }

  // Concluding runs.

  /** Concluding a run only touches that run's own records. */
  predicate OnlyConcludes(d: Disk, e: Disk, id: RunID) {
    && e.plans == d.plans && e.results == d.results && e.projections == d.projections && e.pointer == d.pointer
    && e.runs.Keys - {id} == d.runs.Keys - {id}
    && (forall other | other in d.runs && other != id :: other in e.runs && e.runs[other] == d.runs[other])
    && e.verdicts.Keys - {id} == d.verdicts.Keys - {id}
    && (forall other | other in d.verdicts :: other in e.verdicts && e.verdicts[other] == d.verdicts[other])
  }

  /** When a run may be concluded with this verdict and record. */
  predicate MayConclude(d: Disk, plan: Plan, verdict: Projection, run: SyncRun) {
    && IsStaged(d, plan)
    && Unfinished(d, plan.run.id)
    && SameIdentity(run, plan.run)
    && run.state.IsTerminal()
    && (run.state.RunFailed? ==> !Owns(d, plan.run.id) && StaleVerdictOf(d, plan, verdict))
    && (run.state.RunSucceeded? ==>
          && Owns(d, plan.run.id)
          && d.pointer.value.version in d.projections
          && verdict == d.projections[d.pointer.value.version])
  }

  lemma ConcludeAllowed(d: Disk, plan: Plan, verdict: Projection, run: SyncRun)
    requires MayConclude(d, plan, verdict, run)
    ensures plan.run.id !in d.verdicts ==>
              && Allowed(d, PutVerdict(plan.run.id, verdict))
              && Allowed(Apply(d, PutVerdict(plan.run.id, verdict)), PutRun(run))
    ensures plan.run.id in d.verdicts && d.verdicts[plan.run.id] == verdict ==> Allowed(d, PutRun(run))
  {
    assert run.id == plan.run.id;
  }

  lemma ConcludeEffect(d: Disk, plan: Plan, verdict: Projection, run: SyncRun)
    requires run.id == plan.run.id
    ensures OnlyConcludes(d, Run(d, Conclude(d, plan, verdict, run).actions), plan.run.id)
    ensures Conclude(d, plan, verdict, run).result.Err? ==> Run(d, Conclude(d, plan, verdict, run).actions) == d
    ensures Conclude(d, plan, verdict, run).result.Ok? ==>
              var e := Run(d, Conclude(d, plan, verdict, run).actions);
              && plan.run.id in e.runs && e.runs[plan.run.id] == run
              && plan.run.id in e.verdicts && e.verdicts[plan.run.id] == verdict
  {
    var concluded := Conclude(d, plan, verdict, run);
    if concluded.result.Ok? {
      if plan.run.id in d.verdicts {
        assert [PutRun(run)][1..] == [] && Run(d, [PutRun(run)]) == Apply(d, PutRun(run));
      } else {
        var put := PutVerdict(plan.run.id, verdict);
        RunAppend(d, [put], [PutRun(run)]);
        assert [put] + [PutRun(run)] == [put, PutRun(run)];
        assert [put][1..] == [] && Run(d, [put]) == Apply(d, put);
      }
    }
  }

  lemma ConcludeSound(d: Disk, plan: Plan, verdict: Projection, run: SyncRun)
    requires MayConclude(d, plan, verdict, run)
    ensures Sound(d, Conclude(d, plan, verdict, run))
  {
    ConcludeAllowed(d, plan, verdict, run);
    if Conclude(d, plan, verdict, run).result.Ok? {
      if plan.run.id !in d.verdicts {
        TwoActions(d, PutVerdict(plan.run.id, verdict), PutRun(run));
      } else {
        OneAction(d, PutRun(run));
      }
    }
  }

  // Reconciling.

  lemma OwnerMayConclude(d: Disk, pointer: Pointer, owner: Owner)
    requires d.pointer == Some(pointer) && pointer.owner == Some(owner)
    requires pointer.version in d.projections && OwnerOk(d, pointer, owner)
    requires d.plans[owner.run].run.id == owner.run
    requires SameIdentity(d.runs[owner.run], d.plans[owner.run].run)
    requires !d.runs[owner.run].state.IsTerminal()
    ensures MayConclude(d, owner.plan, d.projections[pointer.version], d.runs[owner.run].(state := RunSucceeded))
  {
  }

  /** What reconciling leaves behind: only the owner's run may have been concluded. */
  predicate Reconciled(d: Disk, e: Disk, pointer: Pointer, ok: bool) {
    match pointer.owner
    case None => e == d
    case Some(owner) =>
      && OnlyConcludes(d, e, owner.run)
      && owner.run in e.runs
      && (ok ==> e.runs[owner.run].state.RunSucceeded?)
  }

  /** For an unfinished owner of a sound pointer only the verdict can still conflict. */
  lemma ReconcileConcludes(d: Disk, pointer: Pointer, owner: Owner)
    requires Inv(d) && d.pointer == Some(pointer) && pointer.owner == Some(owner)
    requires Unfinished(d, owner.run)
    ensures pointer.version in d.projections && owner.run in d.plans
    ensures Reconcile(d, pointer)
         == Conclude(d, owner.plan, d.projections[pointer.version], d.runs[owner.run].(state := RunSucceeded))
  {
    assert OwnerOk(d, pointer, owner);
    CandidateFacts(d, owner.plan, d.projections[pointer.version]);
  }

  lemma FinishedOwnerStays(d: Disk, pointer: Pointer, owner: Owner)
    requires Inv(d) && d.pointer == Some(pointer) && pointer.owner == Some(owner)
    requires !Unfinished(d, owner.run)
    ensures Reconcile(d, pointer) == Returns(())
    ensures owner.run in d.runs && d.runs[owner.run].state.RunSucceeded?
  {
    hide ProjectionsOk, ResultsOk, ReconcileUnfinished, Candidate;
    assert OwnerOk(d, pointer, owner);
    CandidateFacts(d, owner.plan, d.projections[pointer.version]);
  }

  lemma UnfinishedOwnerSound(d: Disk, pointer: Pointer, owner: Owner)
    requires Inv(d) && d.pointer == Some(pointer) && pointer.owner == Some(owner)
    requires Unfinished(d, owner.run)
    ensures Sound(d, Reconcile(d, pointer))
    ensures Reconciled(d, Run(d, Reconcile(d, pointer).actions), pointer, Reconcile(d, pointer).result.Ok?)
  {
    ReconcileConcludes(d, pointer, owner);
    hide Reconcile, Conclude, Candidate, ProjectionsOk, ResultsOk, MayConclude;
    assert OwnerOk(d, pointer, owner);
    OwnerMayConclude(d, pointer, owner);
    var verdict, run := d.projections[pointer.version], d.runs[owner.run].(state := RunSucceeded);
    ConcludeSound(d, owner.plan, verdict, run);
    ConcludeEffect(d, owner.plan, verdict, run);
  }

  lemma ReconcileSound(d: Disk, pointer: Pointer)
    requires Inv(d) && d.pointer == Some(pointer)
    ensures Sound(d, Reconcile(d, pointer))
    ensures Reconciled(d, Run(d, Reconcile(d, pointer).actions), pointer, Reconcile(d, pointer).result.Ok?)
  {
    hide Inv, Unfinished;
    if pointer.owner.Some? {
      var owner := pointer.owner.value;
      if Unfinished(d, owner.run) {
        UnfinishedOwnerSound(d, pointer, owner);
      } else {
        FinishedOwnerStays(d, pointer, owner);
      }
    }
  }

  // Receipts.

  /** Recording receipts of one run touches nothing else. */
  predicate OnlyReceipts(d: Disk, e: Disk, id: RunID) {
    && e == d.(results := e.results)
    && KeepsResults(d, e)
    && (forall key | key in e.results && key !in d.results :: key.run == id)
  }

  predicate SamePending(d: Disk, e: Disk, plan: Plan, ops: seq<Operation>) {
    forall op | op in ops :: HasResult(e, plan, op) <==> HasResult(d, plan, op)
  }

  lemma ReceiptAllowed(e: Disk, plan: Plan, op: Operation, outcome: Outcome)
    requires IsStaged(e, plan) && op in plan.operations && !HasResult(e, plan, op)
    ensures Allowed(e, PutResult(ResultKey(plan.run.id, op), outcome))
    ensures OnlyReceipts(e, Apply(e, PutResult(ResultKey(plan.run.id, op), outcome)), plan.run.id)
  {
  }

  /** Recording one receipt settles its operation and leaves the others as they were. */
  lemma StaleReceiptFirst(d: Disk, e: Disk, plan: Plan, ops: seq<Operation>, a: Action)
    requires IsStaged(e, plan) && ops != [] && Distinct(ops) && ops[0] in plan.operations
    requires SamePending(d, e, plan, ops) && !HasResult(d, plan, ops[0])
    requires a == PutResult(ResultKey(plan.run.id, ops[0]), OperationFailed(StaleBaseProjection))
    ensures Guarded(e, [a]) && Run(e, [a]) == Apply(e, a)
    ensures IsStaged(Apply(e, a), plan) && OnlyReceipts(e, Apply(e, a), plan.run.id)
    ensures HasResult(Apply(e, a), plan, ops[0]) && SamePending(d, Apply(e, a), plan, ops[1..])
  {
    hide ValidPlan;
    assert ops[0] in ops;
    ReceiptAllowed(e, plan, ops[0], OperationFailed(StaleBaseProjection));
    hide Allowed;
    OneAction(e, a);
    forall op | op in ops[1..] ensures op != ops[0] && op in ops {
      var i :| 1 <= i < |ops| && ops[i] == op;
    }
  }

  lemma {:induction false} StaleReceiptsSound(d: Disk, e: Disk, plan: Plan, ops: seq<Operation>)
    requires IsStaged(e, plan)
    requires Distinct(ops) && forall op | op in ops :: op in plan.operations
    requires SamePending(d, e, plan, ops)
    ensures Guarded(e, StaleReceipts(d, plan, ops))
    ensures var f := Run(e, StaleReceipts(d, plan, ops));
            OnlyReceipts(e, f, plan.run.id) && forall op | op in ops :: HasResult(f, plan, op)
    decreases |ops|
  {
    hide Allowed, ValidPlan, Apply;
    if ops != [] {
      var rest := StaleReceipts(d, plan, ops[1..]);
      assert forall op | op in ops[1..] :: op in ops;
      if HasResult(d, plan, ops[0]) {
        StaleReceiptsSound(d, e, plan, ops[1..]);
        assert [] + rest == rest;
        ReceiptsStay(e, Run(e, rest), plan, ops[0]);
      } else {
        var a := PutResult(ResultKey(plan.run.id, ops[0]), OperationFailed(StaleBaseProjection));
        StaleReceiptFirst(d, e, plan, ops, a);
        var next := Apply(e, a);
        StaleReceiptsSound(d, next, plan, ops[1..]);
        hide Guarded, Run, OnlyReceipts;
        GuardedAppend(e, [a], rest);
        RunAppend(e, [a], rest);
        OnlyReceiptsTransitive(e, next, Run(next, rest), plan.run.id);
        ReceiptsStay(next, Run(next, rest), plan, ops[0]);
      }
      assert ops == [ops[0]] + ops[1..];
    }
  }

  lemma ReceiptsStay(d: Disk, e: Disk, plan: Plan, op: Operation)
    requires OnlyReceipts(d, e, plan.run.id) && HasResult(d, plan, op)
    ensures HasResult(e, plan, op)
  {
  }

  lemma AttemptSound(e: Disk, plan: Plan, op: Operation, failed: bool, replies: map<Operation, Reply>)
    requires IsStaged(e, plan) && Unfinished(e, plan.run.id)
    requires e.pointer.Some? && e.pointer.value.version == plan.run.base
    requires op in plan.operations && !HasResult(e, plan, op)
    requires failed == AnyReceiptFailed(e, plan)
    ensures Guarded(e, Attempt(plan, op, failed, replies))
    ensures var f := Run(e, Attempt(plan, op, failed, replies));
            && OnlyReceipts(e, f, plan.run.id)
            && f.results == e.results[ResultKey(plan.run.id, op) := AttemptOutcome(op, failed, replies)]
  {
    var outcome := AttemptOutcome(op, failed, replies);
    var key := ResultKey(plan.run.id, op);
    ReceiptAllowed(e, plan, op, outcome);
    if !failed && op in replies {
      assert Allowed(e, Invoke(key));
      TwoActions(e, Invoke(key), PutResult(key, outcome));
      assert [Invoke(key)] + [PutResult(key, outcome)] == [Invoke(key), PutResult(key, outcome)];
    } else {
      OneAction(e, PutResult(key, outcome));
      assert [] + [PutResult(key, outcome)] == [PutResult(key, outcome)];
    }
  }

  /** Recording the first of a distinct list leaves the rest as it was. */
  lemma PendingTail(d: Disk, e: Disk, f: Disk, plan: Plan, ops: seq<Operation>, outcome: Outcome)
    requires ops != [] && Distinct(ops) && SamePending(d, e, plan, ops)
    requires f.results == e.results[ResultKey(plan.run.id, ops[0]) := outcome]
    ensures SamePending(d, f, plan, ops[1..])
  {
    forall op | op in ops[1..]
      ensures HasResult(f, plan, op) <==> HasResult(d, plan, op)
    {
      var i :| 1 <= i < |ops| && ops[i] == op;
      assert HasResult(e, plan, op) <==> HasResult(d, plan, op);
    }
  }

  lemma OnlyReceiptsTransitive(d: Disk, e: Disk, f: Disk, id: RunID)
    requires OnlyReceipts(d, e, id) && OnlyReceipts(e, f, id)
    ensures OnlyReceipts(d, f, id)
  {
  }

  lemma {:induction false} AttemptsSound(
    d: Disk, e: Disk, plan: Plan, ops: seq<Operation>, failed: bool, replies: map<Operation, Reply>)
    requires IsStaged(e, plan) && Unfinished(e, plan.run.id)
    requires e.pointer.Some? && e.pointer.value.version == plan.run.base
    requires Distinct(ops) && forall op | op in ops :: op in plan.operations
    requires SamePending(d, e, plan, ops)
    requires failed == AnyReceiptFailed(e, plan)
    ensures Guarded(e, Attempts(d, plan, ops, failed, replies))
    ensures OnlyReceipts(e, Run(e, Attempts(d, plan, ops, failed, replies)), plan.run.id)
    ensures forall op | op in ops :: HasResult(Run(e, Attempts(d, plan, ops, failed, replies)), plan, op)
    decreases |ops|
  {
    if ops != [] {
      assert ops == [ops[0]] + ops[1..];
      if HasResult(d, plan, ops[0]) {
        assert HasResult(e, plan, ops[0]);
        AttemptsSound(d, e, plan, ops[1..], failed, replies);
      } else {
        var first := Attempt(plan, ops[0], failed, replies);
        var outcome := AttemptOutcome(ops[0], failed, replies);
        AttemptSound(e, plan, ops[0], failed, replies);
        var f := Run(e, first);
        PendingTail(d, e, f, plan, ops, outcome);
        AttemptRecorded(e, f, plan, ops[0], outcome);
        var later := failed || outcome.OperationFailed?;
        AttemptsSound(d, f, plan, ops[1..], later, replies);
        var rest := Attempts(d, plan, ops[1..], later, replies);
        GuardedAppend(e, first, rest);
        RunAppend(e, first, rest);
        OnlyReceiptsTransitive(e, f, Run(f, rest), plan.run.id);
        assert HasResult(f, plan, ops[0]);
      }
    }
  }

  lemma AttemptRecorded(e: Disk, f: Disk, plan: Plan, op: Operation, outcome: Outcome)
    requires op in plan.operations && !HasResult(e, plan, op)
    requires f.results == e.results[ResultKey(plan.run.id, op) := outcome]
    ensures AnyReceiptFailed(f, plan) <==> AnyReceiptFailed(e, plan) || outcome.OperationFailed?
  {
    if outcome.OperationFailed? {
      assert HasResult(f, plan, op);
    }
    if AnyReceiptFailed(e, plan) {
      var o :| o in plan.operations && HasResult(e, plan, o) && e.results[ResultKey(plan.run.id, o)].OperationFailed?;
      assert HasResult(f, plan, o);
    }
    if AnyReceiptFailed(f, plan) && !outcome.OperationFailed? {
      var o :| o in plan.operations && HasResult(f, plan, o) && f.results[ResultKey(plan.run.id, o)].OperationFailed?;
      assert HasResult(e, plan, o);
    }
  }

  // Failing a stale run.

  lemma StaleFailureSound(d: Disk, plan: Plan, current: Projection, pointer: Pointer)
    requires IsStaged(d, plan) && Distinct(plan.operations)
    requires Unfinished(d, plan.run.id) && !Owns(d, plan.run.id)
    requires VerifiesBase(d, plan, current)
    ensures Sound(d, StaleFailure(d, plan, current, pointer))
  {
    var receipts := StaleReceipts(d, plan, plan.operations);
    StaleReceiptsSound(d, d, plan, plan.operations);
    var e := Run(d, receipts);
    assert Complete(e, plan);
    var concluded := StaleConcluded(e, plan, current, pointer);
    match StaleVerdict(plan, current, ResultsOf(e, plan)) {
      case Err(_) =>
      case Ok(verdict) =>
        ConcludeSound(e, plan, verdict, plan.run.(state := RunFailed));
        ConcludeEffect(e, plan, verdict, plan.run.(state := RunFailed));
    }
    Chained(d, receipts, concluded);
  }
}
