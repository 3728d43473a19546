/**
 Two ends of recovery. A plan that already owns the pointer is finished without
 executing anything; and a wedged pointer stays wedged until it is rolled back.
 */
module JournalCases {
  import opened Wrappers
  import opened Catalog
  import opened Replaying
  import opened PlanReplay
  import opened Journal
  import opened JournalSafety
  import opened JournalGuards
  import opened JournalPublication
  import opened JournalRecovery

  // A plan that owns the pointer.

  predicate OwnsPointer(d: Disk, plan: Plan) {
    d.pointer.Some? && d.pointer.value.owner == Some(Owner(plan.run.id, plan))
  }

  predicate NothingExecuted(actions: seq<Action>) {
    forall a | a in actions :: !a.Invoke? && !a.PutPointer? && !a.PutProjection? && !a.PutResult?
  }

  lemma OwnerIsStaged(d: Disk, plan: Plan)
    requires Inv(d) && OwnsPointer(d, plan)
    ensures StagePlan(d, plan) == Effect([], Ok(()))
    ensures IsStaged(d, plan) && d.pointer.value.version in d.projections
    ensures d.runs[plan.run.id].id == plan.run.id && !d.runs[plan.run.id].state.RunFailed?
    ensures d.runs[plan.run.id].state.RunSucceeded? ==>
              plan.run.id in d.verdicts && d.verdicts[plan.run.id] == d.projections[d.pointer.value.version]
  {
    assert OwnerOk(d, d.pointer.value, d.pointer.value.owner.value);
  }

  /** What executing an owning plan reports. */
  function OwnedExecution(d: Disk): Execution
    requires d.pointer.Some? && d.pointer.value.version in d.projections
  {
    Execution(d.projections[d.pointer.value.version], RunSucceeded, d.pointer.value, false, true)
  }

  /** A disk whose pointer's owner has succeeded with what is served. */
  predicate OwnerSucceeded(d: Disk, plan: Plan, pointer: Pointer, served: Projection) {
    && d.pointer == Some(pointer)
    && plan.run.id in d.runs && d.runs[plan.run.id].state.RunSucceeded?
    && plan.run.id in d.verdicts && d.verdicts[plan.run.id] == served
  }

  lemma OwnerConcludes(d: Disk, plan: Plan, pointer: Pointer, served: Projection, run: SyncRun, concluded: Effect<()>)
    requires run.id == plan.run.id && run.state.RunSucceeded? && d.pointer == Some(pointer)
    requires concluded == Conclude(d, plan, served, run)
    ensures NothingExecuted(concluded.actions)
    ensures concluded.result.Ok? ==> OwnerSucceeded(Run(d, concluded.actions), plan, pointer, served)
  {
    ConcludeEffect(d, plan, served, run);
  }

  lemma OwnerReconciles(d: Disk, plan: Plan, pointer: Pointer, reconciled: Effect<()>)
    requires Inv(d) && OwnsPointer(d, plan) && Unfinished(d, plan.run.id)
    requires d.pointer == Some(pointer) && reconciled == Reconcile(d, pointer)
    ensures NothingExecuted(reconciled.actions)
    ensures pointer.version in d.projections
    ensures reconciled.result.Ok? ==>
              OwnerSucceeded(Run(d, reconciled.actions), plan, pointer, d.projections[pointer.version])
  {
    OwnerIsStaged(d, plan);
    ReconcileConcludes(d, pointer, pointer.owner.value);
    OwnerConcludes(
      d, plan, pointer, d.projections[pointer.version], d.runs[plan.run.id].(state := RunSucceeded), reconciled);
  }

  lemma OwnedUnfinished(
    d: Disk, plan: Plan, current: Projection, pointer: Pointer, replies: map<Operation, Reply>, reconciled: Effect<()>)
    requires Unfinished(d, plan.run.id) && d.pointer == Some(pointer) && pointer.version in d.projections
    requires ValidProjection(current) && current.scope == plan.run.scope && current.version == plan.run.base
    requires reconciled == Reconcile(d, pointer) && (reconciled.result.Err? ==> reconciled.actions == [])
    requires reconciled.result.Ok? ==>
              OwnerSucceeded(Run(d, reconciled.actions), plan, pointer, d.projections[pointer.version])
    ensures ExecuteStaged(d, plan, current, replies)
         == Effect(reconciled.actions,
                   if reconciled.result.Ok? then Ok(OwnedExecution(d)) else Err(reconciled.result.error))
  {
    if reconciled.result.Ok? {
      PersistedReport(Run(d, reconciled.actions), plan, current, pointer, replies);
      assert reconciled.actions + [] == reconciled.actions;
    }
  }

  lemma ReconcileErrs(d: Disk, pointer: Pointer)
    ensures Reconcile(d, pointer).result.Err? ==> Reconcile(d, pointer).actions == []
  {
  }

  lemma PersistedReport(
    d: Disk, plan: Plan, current: Projection, pointer: Pointer, replies: map<Operation, Reply>)
    requires plan.run.id in d.runs && d.runs[plan.run.id].state.RunSucceeded?
    requires plan.run.id in d.verdicts && d.pointer == Some(pointer)
    ensures ExecuteReconciled(d, plan, current, pointer, replies)
         == Returns(Execution(d.verdicts[plan.run.id], RunSucceeded, pointer, false, true))
  {
  }

  /** The report of an owning plan, whatever its run still lacked. */
  ghost predicate ReportsOwned(d: Disk, plan: Plan, e: Effect<Execution>) {
    && NothingExecuted(e.actions)
    && (e.result.Ok? <==> !Wedged(d))
    && d.pointer.Some? && d.pointer.value.version in d.projections
    && (e.result.Ok? ==>
          && e.result.value == OwnedExecution(d)
          && plan.run.id in Run(d, e.actions).runs
          && Run(d, e.actions).runs[plan.run.id].state.RunSucceeded?)
  }

  lemma FinishedReports(d: Disk, plan: Plan, current: Projection, replies: map<Operation, Reply>)
    requires OwnsPointer(d, plan) && d.pointer.value.version in d.projections
    requires plan.run.id in d.runs && d.runs[plan.run.id].state.RunSucceeded?
    requires plan.run.id in d.verdicts && d.verdicts[plan.run.id] == d.projections[d.pointer.value.version]
    requires ValidProjection(current) && current.scope == plan.run.scope && current.version == plan.run.base
    ensures ReportsOwned(d, plan, ExecuteStaged(d, plan, current, replies))
  {
    hide ValidProjection, Reconcile, ExecuteReconciled;
    assert ExecuteStaged(d, plan, current, replies) == Returns(OwnedExecution(d));
  }

  lemma UnfinishedReports(d: Disk, plan: Plan, current: Projection, replies: map<Operation, Reply>)
    requires Inv(d) && OwnsPointer(d, plan) && Unfinished(d, plan.run.id)
    requires ValidProjection(current) && current.scope == plan.run.scope && current.version == plan.run.base
    ensures ReportsOwned(d, plan, ExecuteStaged(d, plan, current, replies))
  {
    hide Inv, ValidProjection, Reconcile, ExecuteStaged, Wedged;
    var pointer := d.pointer.value;
    var reconciled := Reconcile(d, pointer);
    ReconcileOutcome(d, pointer);
    ReconcileErrs(d, pointer);
    OwnerReconciles(d, plan, pointer, reconciled);
    OwnedUnfinished(d, plan, current, pointer, replies, reconciled);
  }

  /**
   Once the pointer has moved to a plan, executing the plan again invokes nothing,
   records no receipt and moves no pointer; it fails only on a wedged owner, and
   otherwise reports success with the identical projection. This covers histories
   with rollbacks as well.
   */
  lemma OwnedRecovery(history: seq<Event>, plan: Plan, current: Projection, replies: map<Operation, Reply>)
    requires Fresh(history) && OwnsPointer(DiskAfter(history), plan)
    requires ValidProjection(current) && current.scope == plan.run.scope && current.version == plan.run.base
    ensures ReportsOwned(DiskAfter(history), plan, Execute(DiskAfter(history), plan, current, replies))
  {
    hide Inv, ValidProjection, ExecuteStaged, StagePlan, ReportsOwned, DiskAfter;
    HistoryKeeps(history);
    var d := DiskAfter(history);
    OwnerIsStaged(d, plan);
    var e := ExecuteStaged(d, plan, current, replies);
    assert [] + e.actions == e.actions;
    if Unfinished(d, plan.run.id) {
      UnfinishedReports(d, plan, current, replies);
    } else {
      FinishedReports(d, plan, current, replies);
    }
  }

  // A wedged journal stays wedged.

  lemma StepKeepsWedge(d: Disk, a: Action)
    requires Wedged(d) && Allowed(d, a) && Forward(d, a)
    ensures Wedged(Apply(d, a))
  {
  }

  lemma {:induction false} ForwardKeepsWedge(d: Disk, actions: seq<Action>)
    requires Wedged(d) && Guarded(d, actions) && ForwardOnly(actions)
    ensures Wedged(Run(d, actions))
    decreases |actions|
  {
    if actions != [] {
      StepKeepsWedge(d, actions[0]);
      ForwardKeepsWedge(Apply(d, actions[0]), actions[1..]);
    }
  }

  lemma CallForward(d: Disk, call: Call)
    requires d.pointer.Some? && !call.CallRollback?
    ensures ForwardOnly(ActionsOf(d, call))
  {
    match call {
      case CallInitialize(initial) =>
      case CallStage(plan) => StageForward(d, plan);
      case CallRecord(plan, op, outcome) => StageForward(d, plan);
      case CallFinalize(plan, current) => FinalizeForward(d, plan, current);
      case CallExecute(plan, current, replies) => ExecuteForward(d, plan, current, replies);
    }
  }

  lemma CallKeepsWedge(d: Disk, event: Event)
    requires Inv(d) && Wedged(d) && StartsFresh(event.call) && !event.call.CallRollback?
    ensures Wedged(Run(d, Performed(d, event)))
  {
    CallSound(d, event.call);
    CallForward(d, event.call);
    PrefixKeepsWedge(d, ActionsOf(d, event.call), event.cut);
  }

  lemma PrefixKeepsWedge(d: Disk, actions: seq<Action>, cut: nat)
    requires Wedged(d) && Guarded(d, actions) && ForwardOnly(actions)
    ensures Wedged(Run(d, if cut < |actions| then actions[..cut] else actions))
  {
    if cut < |actions| {
      GuardedPrefix(d, actions, cut);
      ForwardKeepsWedge(d, actions[..cut]);
    } else {
      ForwardKeepsWedge(d, actions);
    }
  }

  lemma OneMoreEvent(history: seq<Event>, event: Event)
    ensures DiskAfter(history + [event]) == Run(DiskAfter(history), Performed(DiskAfter(history), event))
  {
    assert (history + [event])[..|history|] == history;
    RunAppend(EmptyDisk, Log(history), Performed(DiskAfter(history), event));
  }

  /** No further calls free a wedged pointer, short of a rollback. */
  lemma {:induction false} WedgeIsPermanent(history: seq<Event>, more: seq<Event>)
    requires Fresh(history) && Wedged(DiskAfter(history))
    requires Fresh(more) && WithoutRollback(more)
    ensures Wedged(DiskAfter(history + more))
    decreases |more|
  {
    hide Inv, Wedged, Performed;
    if more == [] {
      assert history + more == history;
    } else {
      var earlier, event := history + more[..|more| - 1], more[|more| - 1];
      WedgeIsPermanent(history, more[..|more| - 1]);
      assert history + more == earlier + [event];
      OneMoreEvent(earlier, event);
      assert event in more && Fresh(earlier);
      HistoryKeeps(earlier);
      CallKeepsWedge(DiskAfter(earlier), event);
    }
  }
}
