/**
 Agreement between the planner and replay: what a plan stages is what replay
 publishes, and one failed result leaves nothing serving.
 */
module PlanReplay {
  import opened Wrappers
  import opened Catalog
  import opened Planner
  import opened Replaying

  // A failed run is a non-serving shadow of the successful one.

  predicate UpToState(left: Resource, right: Resource) {
    left == right.(state := left.state, status := left.status)
  }

  predicate Shadows(f: Projection, p: Projection) {
    && f.scope == p.scope
    && f.version == p.version
    && f.snapshot == p.snapshot
    && f.resources.Keys == p.resources.Keys
    && !f.state.StatePublished?
    && (forall id | id in f.resources ::
          && UpToState(f.resources[id], p.resources[id])
          && !f.resources[id].IsServing()
          && (f.resources[id].state.StatePublished? ==> f.resources[id].status.Ready()))
  }

  lemma ShadowClaim(f: Projection, p: Projection, r: Resource, s: Resource)
    requires Shadows(f, p) && UpToState(s, r) && ClaimResolves(p.resources, r)
    ensures ClaimResolves(f.resources, s)
  {
    if s.claimRecord.Some? {
      var record := s.claimRecord.value;
      forall e | e in record.provenance.Evidence() ensures EvidenceResolves(f.resources, record.source, e) {
        assert EvidenceResolves(p.resources, record.source, e);
      }
    }
  }

  lemma ShadowArtifact(f: Projection, p: Projection, r: Resource, s: Resource)
    requires Shadows(f, p) && UpToState(s, r) && ArtifactResolves(p.resources, r)
    requires !s.IsServing()
    ensures ArtifactResolves(f.resources, s)
  {
    if s.security.Some? {
      var record := s.security.value;
      forall key | key in record.supports ensures MembersResolve(f.resources, record.supports[key]) {
        assert MembersResolve(p.resources, record.supports[key]);
      }
    }
  }

  lemma ShadowValid(f: Projection, p: Projection)
    requires Shadows(f, p) && ValidProjection(p)
    ensures ValidProjection(f)
  {
    forall id | id in f.resources ensures ResourceFits(f, id) {
      assert ResourceFits(p, id);
      ShadowClaim(f, p, p.resources[id], f.resources[id]);
      ShadowArtifact(f, p, p.resources[id], f.resources[id]);
    }
  }

  /** Outcomes decide states and statuses, never which resources appear. */
  lemma {:induction false} ReduceUpToState(
    ops: seq<Operation>, left: map<Operation, Outcome>, right: map<Operation, Outcome>)
    requires Covers(left, ops) && Covers(right, ops)
    requires forall op | op in ops && op.kind.IsTerminal() :: !op.resource.state.StatePublished?
    ensures Reduce(ops, left).targets == Reduce(ops, right).targets
    ensures Reduce(ops, left).retired.Keys == Reduce(ops, right).retired.Keys
    ensures forall id | id in Reduce(ops, left).retired ::
              && UpToState(Reduce(ops, left).retired[id], Reduce(ops, right).retired[id])
              && !Reduce(ops, left).retired[id].state.StatePublished?
  {
    if ops != [] {
      ReduceUpToState(ops[..|ops| - 1], left, right);
    }
  }

  lemma TerminalsNotPublished(plan: Plan, current: Projection)
    requires ReplayablePlan(plan, current)
    ensures forall op | op in plan.operations && op.kind.IsTerminal() :: !op.resource.state.StatePublished?
  {
    forall op | op in plan.operations && op.kind.IsTerminal() ensures !op.resource.state.StatePublished? {
      assert !TargetGroupFits(plan, current, op);
    }
  }

  lemma SettledUpToState(s: Reduction, t: Reduction, version: Version)
    requires s.statuses.Keys == s.targets.Keys && t.statuses.Keys == t.targets.Keys
    requires s.targets == t.targets && s.retired.Keys == t.retired.Keys
    requires forall id | id in s.retired ::
               UpToState(s.retired[id], t.retired[id]) && !s.retired[id].state.StatePublished?
    ensures Settled(s, version, true).Keys == Settled(t, version, false).Keys
    ensures forall id | id in Settled(s, version, true) ::
              && UpToState(Settled(s, version, true)[id], Settled(t, version, false)[id])
              && !Settled(s, version, true)[id].state.StatePublished?
  {
    var f, p := Settled(s, version, true), Settled(t, version, false);
    assert f.Keys == s.targets.Keys + s.retired.Keys;
    assert p.Keys == t.targets.Keys + t.retired.Keys;
    forall id | id in f ensures UpToState(f[id], p[id]) && !f[id].state.StatePublished? {
      if id in s.retired {
        assert UpToState(s.retired[id], t.retired[id]);
      }
    }
  }

  lemma ReducedShadows(
    plan: Plan, current: Projection, good: map<Operation, Outcome>, bad: map<Operation, Outcome>)
    requires forall op | op in plan.operations && op.kind.IsTerminal() :: !op.resource.state.StatePublished?
    requires Covers(good, plan.operations) && Covers(bad, plan.operations)
    requires AllSucceeded(plan.operations, good) && !AllSucceeded(plan.operations, bad)
    ensures Shadows(Reduced(plan, current, bad), Reduced(plan, current, good))
  {
    ReduceUpToState(plan.operations, bad, good);
    SettledUpToState(Reduce(plan.operations, bad), Reduce(plan.operations, good), plan.run.version);
  }

  lemma {:induction false} OutcomesAt(results: seq<OperationResult>, i: nat)
    requires i < |results| && DistinctResults(results)
    ensures Outcomes(results)[results[i].operation] == results[i].outcome
  {
    if i < |results| - 1 {
      OutcomesAt(results[..|results| - 1], i);
    }
  }

  lemma SuccessfulComplete(plan: Plan)
    requires ValidPlan(plan)
    ensures CompleteResults(plan, SuccessfulResults(plan))
    ensures AllSucceeded(plan.operations, Outcomes(SuccessfulResults(plan)))
  {
    var results := SuccessfulResults(plan);
    forall op | op in plan.operations
      ensures op in Outcomes(results) && Outcomes(results)[op].OperationSucceeded?
    {
      var i :| 0 <= i < |plan.operations| && plan.operations[i] == op;
      assert results[i].operation == op;
      OutcomesAt(results, i);
    }
  }

  /** Everything replay asks of the plan and its base, results aside. */
  predicate Applies(plan: Plan, current: Projection) {
    && ValidPlan(plan)
    && ValidProjection(current)
    && plan !in current.applied
    && current.state.StatePublished?
    && current.scope == plan.run.scope
    && current.version == plan.run.base
    && ReplayablePlan(plan, current)
  }

  /** The projection replay returns is the reduction of the results, when valid. */
  lemma ReplayReduces(plan: Plan, current: Projection, results: seq<OperationResult>)
    requires plan !in current.applied
    ensures Replay(plan, current, results).Ok?
       <==> && Applies(plan, current)
            && CompleteResults(plan, results)
            && ValidProjection(Reduced(plan, current, Outcomes(results)))
    ensures Replay(plan, current, results).Ok? ==>
              && Replay(plan, current, results).value.0 == Reduced(plan, current, Outcomes(results))
              && !Replay(plan, current, results).value.1.idempotentNoop
              && Replay(plan, current, results).value.1.runState
                 == (if AllSucceeded(plan.operations, Outcomes(results)) then RunSucceeded else RunFailed)
  {
  }

  lemma ReductionTotal(plan: Plan, current: Projection, results: seq<OperationResult>)
    requires Applies(plan, current)
    requires CompleteResults(plan, SuccessfulResults(plan))
    requires ValidProjection(Reduced(plan, current, Outcomes(SuccessfulResults(plan))))
    requires CompleteResults(plan, results)
    ensures ValidProjection(Reduced(plan, current, Outcomes(results)))
    ensures !AllSucceeded(plan.operations, Outcomes(results)) ==>
              Serving(Reduced(plan, current, Outcomes(results))) == {}
  {
    SuccessfulComplete(plan);
    var good := Outcomes(SuccessfulResults(plan));
    var outcomes := Outcomes(results);
    if AllSucceeded(plan.operations, outcomes) {
      ReducedAgrees(plan, current, outcomes, good);
    } else {
      TerminalsNotPublished(plan, current);
      ReducedShadows(plan, current, good, outcomes);
      ShadowValid(Reduced(plan, current, outcomes), Reduced(plan, current, good));
    }
  }

  lemma ReducedAgrees(
    plan: Plan, current: Projection, left: map<Operation, Outcome>, right: map<Operation, Outcome>)
    requires Covers(left, plan.operations) && Covers(right, plan.operations)
    requires forall op | op in plan.operations :: left[op] == right[op]
    ensures Reduced(plan, current, left) == Reduced(plan, current, right)
  {
    ReduceAgrees(plan.operations, left, right);
    assert ReceiptsOf(plan, left) == ReceiptsOf(plan, right);
  }

  /**
   A plan that replays when everything succeeds replays under every complete
   result set: success publishes, one failure yields a failed projection with
   nothing serving.
   */
  lemma ReplayTotal(plan: Plan, current: Projection, results: seq<OperationResult>)
    requires plan !in current.applied
    requires Replay(plan, current, SuccessfulResults(plan)).Ok?
    requires CompleteResults(plan, results)
    ensures Replay(plan, current, results).Ok?
    ensures var (p, report) := Replay(plan, current, results).value;
            && p.scope == plan.run.scope
            && p.version == plan.run.version
            && p.snapshot == plan.run.snapshot
            && p.applied == current.applied + {plan}
            && !report.idempotentNoop
            && if AllSucceeded(plan.operations, Outcomes(results))
               then p.state.StatePublished? && report.runState.RunSucceeded?
               else p.state.StateFailed? && report.runState.RunFailed? && Serving(p) == {}
  {
    ReplayReduces(plan, current, SuccessfulResults(plan));
    ReplayReduces(plan, current, results);
    ReductionTotal(plan, current, results);
  }

  lemma {:induction false} ReduceAgrees(
    ops: seq<Operation>, left: map<Operation, Outcome>, right: map<Operation, Outcome>)
    requires Covers(left, ops) && Covers(right, ops)
    requires forall op | op in ops :: left[op] == right[op]
    ensures Reduce(ops, left) == Reduce(ops, right)
  {
    if ops != [] {
      ReduceAgrees(ops[..|ops| - 1], left, right);
    }
  }

  // A complete, successful run publishes exactly what the plan stages.

  function Component(ops: seq<Operation>, id: ResourceID, kind: OperationKind): ComponentState {
    if Has(ops, id, kind) then ComponentSucceeded else ComponentPending
  }

  /** The status a resource reaches once the listed operations succeeded. */
  function Progress(ops: seq<Operation>, id: ResourceID): ProjectionStatus {
    ProjectionStatus(
      Component(ops, id, ProjectContent),
      Component(ops, id, ProjectACL),
      Component(ops, id, ProjectIndex),
      Component(ops, id, ProjectGraph),
      Component(ops, id, ProjectArtifact))
  }

  lemma HasExtends(ops: seq<Operation>, id: ResourceID, kind: OperationKind)
    requires ops != []
    ensures Has(ops, id, kind)
       <==> || Has(ops[..|ops| - 1], id, kind)
            || (ops[|ops| - 1].kind == kind && ops[|ops| - 1].resource.id == id)
  {
    var front, last := ops[..|ops| - 1], ops[|ops| - 1];
    assert ops == front + [last];
    assert last in ops;
    if Has(front, id, kind) {
      var op :| op in front && op.kind == kind && op.resource.id == id;
      assert op in ops;
    }
  }

  /** In canonical order nothing of a resource precedes its staging but its supersession. */
  lemma StagedFirst(ops: seq<Operation>, id: ResourceID)
    requires ops != [] && Canonical(ops)
    requires ops[|ops| - 1] .kind.Stage? && ops[|ops| - 1].resource.id == id
    ensures Progress(ops[..|ops| - 1], id) == Pending
  {
    var n := |ops| - 1;
    forall kind | Has(ops[..n], id, kind) ensures kind.Rank() <= 1 {
      var op :| op in ops[..n] && op.kind == kind && op.resource.id == id;
      var i :| 0 <= i < n && ops[i] == op;
      assert !OperationLess(ops[n], ops[i]);
    }
  }

  lemma ProgressStep(ops: seq<Operation>, id: ResourceID)
    requires ops != []
    ensures var front, last := ops[..|ops| - 1], ops[|ops| - 1];
            Progress(ops, id)
            == if last.resource.id == id
               then ApplyComponent(Progress(front, id), last.kind, OperationSucceeded)
               else Progress(front, id)
  {
    HasExtends(ops, id, ProjectContent);
    HasExtends(ops, id, ProjectACL);
    HasExtends(ops, id, ProjectIndex);
    HasExtends(ops, id, ProjectGraph);
    HasExtends(ops, id, ProjectArtifact);
  }

  lemma {:induction false} SuccessfulStatus(ops: seq<Operation>, outcomes: map<Operation, Outcome>, id: ResourceID)
    requires Covers(outcomes, ops) && AllSucceeded(ops, outcomes) && Canonical(ops)
    ensures id in Reduce(ops, outcomes).targets <==> Has(ops, id, Stage)
    ensures id in Reduce(ops, outcomes).targets ==> Reduce(ops, outcomes).statuses[id] == Progress(ops, id)
  {
    if ops != [] {
      var front, last := ops[..|ops| - 1], ops[|ops| - 1];
      SuccessfulStatus(front, outcomes, id);
      HasExtends(ops, id, Stage);
      ProgressStep(ops, id);
      assert outcomes[last] == OperationSucceeded by { assert last in ops; }
      if last.kind.Stage? && last.resource.id == id {
        StagedFirst(ops, id);
      }
    }
  }

  lemma {:induction false} TargetsReduced(ops: seq<Operation>, outcomes: map<Operation, Outcome>, op: Operation)
    requires Covers(outcomes, ops)
    requires op in ops && op.kind.Stage?
    requires forall o | o in ops && o.kind.Stage? && o.resource.id == op.resource.id :: o == op
    ensures op.resource.id in Reduce(ops, outcomes).targets
    ensures Reduce(ops, outcomes).targets[op.resource.id] == op.resource
  {
    var front, last := ops[..|ops| - 1], ops[|ops| - 1];
    assert ops == front + [last];
    if last != op {
      TargetsReduced(front, outcomes, op);
    }
  }

  lemma {:induction false} RetiredReduced(ops: seq<Operation>, outcomes: map<Operation, Outcome>, id: ResourceID)
    requires Covers(outcomes, ops) && AllSucceeded(ops, outcomes)
    ensures id in Reduce(ops, outcomes).retired ==>
              exists op | op in ops :: op.kind.IsTerminal() && op.resource.id == id
                                       && Reduce(ops, outcomes).retired[id] == op.resource
    ensures id !in Reduce(ops, outcomes).retired ==>
              forall op | op in ops && op.kind.IsTerminal() :: op.resource.id != id
  {
    if ops != [] {
      var front, last := ops[..|ops| - 1], ops[|ops| - 1];
      assert ops == front + [last];
      assert last in ops;
      RetiredReduced(front, outcomes, id);
    }
  }

  // The planner's plans.

  /** Resources are indexed by their own identifiers. */
  predicate Keyed(resources: map<ResourceID, Resource>) {
    forall id | id in resources :: resources[id].id == id
  }

  lemma PlanningKeyed(run: SyncRun, current: Projection, desired: seq<Resource>, stale: OperationKind)
    requires Plannable(run, current, desired, stale)
    ensures Keyed(current.resources) && Keyed(TargetMap(run, desired))
    ensures forall id | id in TargetMap(run, desired) ::
              var target := TargetMap(run, desired)[id];
              && target.versions.projection == run.version
              && (target.kind.DerivedArtifact? ==> target.security.Some?)
  {
    forall id | id in current.resources ensures current.resources[id].id == id {
      assert ResourceFits(current, id);
    }
    forall id | id in TargetMap(run, desired)
      ensures var target := TargetMap(run, desired)[id];
              && target.id == id
              && target.versions.projection == run.version
              && (target.kind.DerivedArtifact? ==> target.security.Some?)
    {
      TargetsKeyed(run, desired, id);
      var i :| 0 <= i < |desired| && desired[i].id == id && TargetMap(run, desired)[id] == Target(run, desired[i]);
      assert desired[i] in desired;
    }
  }

  /** The kind and the resource ID determine a planned operation. */
  predicate HasPlannedShape(
    run: SyncRun, current: Projection, targets: map<ResourceID, Resource>, stale: OperationKind, op: Operation)
  {
    var id := op.resource.id;
    if id !in targets then
      id in StaleIDs(current, targets) && op == RetireOperation(run, current, stale, id)
    else if op.kind.Supersede? then
      && id in current.resources
      && Redefines(current, targets[id])
      && op.resource == Superseded(run, current.resources[id])
    else
      op.kind in TargetKinds && op.resource == targets[id]
  }

  lemma PlannedShape(
    run: SyncRun, current: Projection, targets: map<ResourceID, Resource>, stale: OperationKind, op: Operation)
    requires Keyed(current.resources) && Keyed(targets)
    requires op in PlannedOperations(run, current, targets, stale)
    ensures HasPlannedShape(run, current, targets, stale, op)
  {
    if op in AllTargetOperations(run, current, targets) {
      var id :| id in targets && op in TargetOperations(run, current, targets[id]);
      assert op in ComponentOperations(targets[id]) || op in SupersedeOperations(run, current, targets[id]);
    }
  }

  lemma PlanShaped(plan: Plan, current: Projection, targets: map<ResourceID, Resource>, stale: OperationKind)
    requires Keyed(current.resources) && Keyed(targets)
    requires IsPlanFor(plan, plan.run, current, targets, stale)
    ensures forall op | op in plan.operations :: HasPlannedShape(plan.run, current, targets, stale, op)
  {
    forall op | op in plan.operations ensures HasPlannedShape(plan.run, current, targets, stale, op) {
      assert op in (set o | o in plan.operations);
      PlannedShape(plan.run, current, targets, stale, op);
    }
  }

  lemma PlannedComplete(plan: Plan, current: Projection, targets: map<ResourceID, Resource>, stale: OperationKind)
    requires Keyed(current.resources) && Keyed(targets)
    requires IsPlanFor(plan, plan.run, current, targets, stale)
    ensures forall id, kind | id in targets && kind in TargetKinds :: Has(plan.operations, id, kind)
    ensures forall id | id in targets && Redefines(current, targets[id]) :: Has(plan.operations, id, Supersede)
    ensures forall id | id in StaleIDs(current, targets) :: Has(plan.operations, id, stale)
  {
    var planned := PlannedOperations(plan.run, current, targets, stale);
    assert forall op :: op in planned ==> op in plan.operations by {
      assert forall op :: op in planned ==> op in (set o | o in plan.operations);
    }
    forall id, kind | id in targets && kind in TargetKinds ensures Has(plan.operations, id, kind) {
      var op := Operation(kind, targets[id]);
      assert op in TargetOperations(plan.run, current, targets[id]);
      assert op in planned;
    }
    forall id | id in targets && Redefines(current, targets[id]) ensures Has(plan.operations, id, Supersede) {
      var op := Operation(Supersede, Superseded(plan.run, current.resources[targets[id].id]));
      assert op in TargetOperations(plan.run, current, targets[id]);
      assert op in planned;
    }
    forall id | id in StaleIDs(current, targets) ensures Has(plan.operations, id, stale) {
      assert RetireOperation(plan.run, current, stale, id) in planned;
    }
  }

  lemma PlannedGroup(
    plan: Plan, current: Projection, targets: map<ResourceID, Resource>, stale: OperationKind, op: Operation)
    requires stale.IsTerminal()
    requires Keyed(current.resources) && Keyed(targets)
    requires forall o | o in plan.operations :: HasPlannedShape(plan.run, current, targets, stale, o)
    requires forall id, kind | id in targets && kind in TargetKinds :: Has(plan.operations, id, kind)
    requires forall id | id in targets && Redefines(current, targets[id]) :: Has(plan.operations, id, Supersede)
    requires op in plan.operations && op.resource.id in targets
    ensures HasTarget(plan.operations, op.resource.id)
    ensures TargetGroupFits(plan, current, op)
  {
    var id := op.resource.id;
    assert TargetKinds[0] == Stage;
    assert Has(plan.operations, id, Stage);
    assert HasPlannedShape(plan.run, current, targets, stale, op);
    if Has(plan.operations, id, Supersede) {
      var o :| o in plan.operations && o.kind.Supersede? && o.resource.id == id;
      assert HasPlannedShape(plan.run, current, targets, stale, o);
    }
  }

  lemma PlannedRetirement(
    plan: Plan, current: Projection, targets: map<ResourceID, Resource>, stale: OperationKind, op: Operation)
    requires stale.IsTerminal()
    requires Keyed(current.resources)
    requires forall o | o in plan.operations :: HasPlannedShape(plan.run, current, targets, stale, o)
    requires op in plan.operations && op.resource.id !in targets
    ensures !HasTarget(plan.operations, op.resource.id)
    ensures TerminalGroupFits(plan, current, op)
  {
    var id := op.resource.id;
    forall o | o in plan.operations && o.resource.id == id ensures o.kind == stale {
      assert HasPlannedShape(plan.run, current, targets, stale, o);
    }
    assert HasPlannedShape(plan.run, current, targets, stale, op);
  }

  lemma PlannedKinds(plan: Plan, current: Projection, targets: map<ResourceID, Resource>, stale: OperationKind)
    requires Keyed(current.resources) && Keyed(targets)
    requires forall o | o in plan.operations :: HasPlannedShape(plan.run, current, targets, stale, o)
    requires Distinct(plan.operations)
    ensures KindsUnique(plan.operations) && TargetsAgree(plan.operations)
  {
    var ops := plan.operations;
    forall i, j | 0 <= i < j < |ops| && ops[i].resource.id == ops[j].resource.id
      ensures ops[i].kind != ops[j].kind
      ensures ops[i].kind.IsTarget() && ops[j].kind.IsTarget() ==> ops[i].resource == ops[j].resource
    {
      assert HasPlannedShape(plan.run, current, targets, stale, ops[i]);
      assert HasPlannedShape(plan.run, current, targets, stale, ops[j]);
    }
  }

  lemma PlannedReplayable(plan: Plan, current: Projection, targets: map<ResourceID, Resource>, stale: OperationKind)
    requires stale.IsTerminal()
    requires Keyed(current.resources) && Keyed(targets)
    requires IsPlanFor(plan, plan.run, current, targets, stale)
    ensures ReplayablePlan(plan, current)
  {
    var ops := plan.operations;
    PlannedComplete(plan, current, targets, stale);
    PlanShaped(plan, current, targets, stale);
    PlannedKinds(plan, current, targets, stale);
    forall op | op in ops
      ensures if HasTarget(ops, op.resource.id) then TargetGroupFits(plan, current, op)
              else TerminalGroupFits(plan, current, op)
    {
      if op.resource.id in targets {
        PlannedGroup(plan, current, targets, stale, op);
      } else {
        PlannedRetirement(plan, current, targets, stale, op);
      }
    }
    forall id | id in Live(current) ensures exists op | op in ops :: op.resource.id == id {
      assert Stage in TargetKinds by { assert TargetKinds[0] == Stage; }
      assert if id in targets then Has(ops, id, Stage) else Has(ops, id, stale);
    }
  }

  lemma AppliedIrrelevant(p: Projection, q: Projection)
    requires q == p.(applied := q.applied, receipts := q.receipts)
    ensures ValidProjection(p) ==> ValidProjection(q)
  {
    if ValidProjection(p) {
      forall id | id in q.resources ensures ResourceFits(q, id) {
        assert ResourceFits(p, id);
      }
    }
  }

  lemma ProgressComplete(ops: seq<Operation>, id: ResourceID)
    requires forall kind | kind in TargetKinds :: Has(ops, id, kind)
    ensures Progress(ops, id) == Succeeded
  {
    assert TargetKinds[1] == ProjectContent && TargetKinds[2] == ProjectACL && TargetKinds[3] == ProjectIndex
        && TargetKinds[4] == ProjectGraph && TargetKinds[5] == ProjectArtifact;
  }

  lemma SuccessfulTarget(
    plan: Plan, current: Projection, targets: map<ResourceID, Resource>, stale: OperationKind,
    outcomes: map<Operation, Outcome>, id: ResourceID)
    requires stale.IsTerminal()
    requires forall op | op in plan.operations :: HasPlannedShape(plan.run, current, targets, stale, op)
    requires forall id, kind | id in targets && kind in TargetKinds :: Has(plan.operations, id, kind)
    requires Canonical(plan.operations)
    requires Covers(outcomes, plan.operations) && AllSucceeded(plan.operations, outcomes)
    ensures var s := Reduce(plan.operations, outcomes);
            && (id in s.targets <==> id in targets)
            && (id in s.targets ==> s.targets[id] == targets[id] && s.statuses[id] == Succeeded)
  {
    var ops := plan.operations;
    SuccessfulStatus(ops, outcomes, id);
    forall op | op in ops && op.kind.Stage?
      ensures op.resource.id in targets && op.resource == targets[op.resource.id]
    {
      assert HasPlannedShape(plan.run, current, targets, stale, op);
    }
    hide Reduce, Progress, Canonical, AllSucceeded, HasPlannedShape;
    if id in targets {
      assert Stage in TargetKinds;
      var op :| op in ops && op.kind.Stage? && op.resource.id == id;
      TargetsReduced(ops, outcomes, op);
      ProgressComplete(ops, id);
    }
  }

  lemma SuccessfulRetirement(
    plan: Plan, current: Projection, targets: map<ResourceID, Resource>, stale: OperationKind,
    outcomes: map<Operation, Outcome>, id: ResourceID)
    requires stale.IsTerminal()
    requires forall op | op in plan.operations :: HasPlannedShape(plan.run, current, targets, stale, op)
    requires forall id | id in StaleIDs(current, targets) :: Has(plan.operations, id, stale)
    requires Covers(outcomes, plan.operations) && AllSucceeded(plan.operations, outcomes)
    ensures var s := Reduce(plan.operations, outcomes);
            && (id in s.retired <==> id in StaleIDs(current, targets))
            && (id in s.retired ==> s.retired[id] == Retired(plan.run, current.resources[id], stale))
  {
    var ops := plan.operations;
    RetiredReduced(ops, outcomes, id);
    if id in Reduce(ops, outcomes).retired {
      var op :| op in ops && op.kind.IsTerminal() && op.resource.id == id
             && Reduce(ops, outcomes).retired[id] == op.resource;
      assert HasPlannedShape(plan.run, current, targets, stale, op);
    } else {
      assert !Has(ops, id, stale);
    }
  }

  lemma SuccessfulResources(
    plan: Plan, current: Projection, targets: map<ResourceID, Resource>, stale: OperationKind,
    outcomes: map<Operation, Outcome>)
    requires stale.IsTerminal()
    requires Keyed(current.resources) && Keyed(targets)
    requires forall id | id in targets :: targets[id].versions.projection == plan.run.version
    requires IsPlanFor(plan, plan.run, current, targets, stale)
    requires Covers(outcomes, plan.operations) && AllSucceeded(plan.operations, outcomes)
    ensures Reduced(plan, current, outcomes).resources == Replacement(plan.run, current, targets, stale).resources
  {
    hide Retired, Settle, ReplacedOver, SettledOver, HasPlannedShape, Settled, Replacement, PlannedOperations, ValidOperation;
    PlannedComplete(plan, current, targets, stale);
    PlanShaped(plan, current, targets, stale);
    var s := Reduce(plan.operations, outcomes);
    var q := Replacement(plan.run, current, targets, stale).resources;
    forall id
      ensures id in s.targets <==> id in targets
      ensures id in s.targets ==> s.targets[id] == targets[id] && s.statuses[id] == Succeeded
      ensures id in s.retired <==> id in StaleIDs(current, targets)
      ensures id in s.retired ==> s.retired[id] == Retired(plan.run, current.resources[id], stale)
    {
      SuccessfulTarget(plan, current, targets, stale, outcomes, id);
      SuccessfulRetirement(plan, current, targets, stale, outcomes, id);
    }
    SettledSuccess(plan.run, current, targets, stale, s);
  }

  lemma SettledSuccess(
    run: SyncRun, current: Projection, targets: map<ResourceID, Resource>, stale: OperationKind, s: Reduction)
    requires s.statuses.Keys == s.targets.Keys
    requires s.targets == targets && s.retired.Keys == StaleIDs(current, targets)
    requires forall id | id in s.targets :: s.statuses[id] == Succeeded
    requires forall id | id in s.retired :: s.retired[id] == Retired(run, current.resources[id], stale)
    requires forall id | id in targets :: targets[id].versions.projection == run.version
    ensures Settled(s, run.version, false) == Replacement(run, current, targets, stale).resources
  {
    var p, q := Settled(s, run.version, false), Replacement(run, current, targets, stale).resources;
    ReplacementAt(run, current, targets, stale);
    hide Retired, Replacement, StaleIDs;
    forall id | id in p ensures p[id] == q[id] {
      assert p[id] == SettledAt(s, run.version, false, id);
      if id in s.retired {
        RetiredVersion(run, current.resources[id], stale);
      }
    }
  }

  lemma ReplacementAt(
    run: SyncRun, current: Projection, targets: map<ResourceID, Resource>, stale: OperationKind)
    ensures var q := Replacement(run, current, targets, stale).resources;
            && q.Keys == targets.Keys + StaleIDs(current, targets)
            && (forall id | id in targets :: q[id] == Published(targets[id]))
            && (forall id | id in StaleIDs(current, targets) :: q[id] == Retired(run, current.resources[id], stale))
  {
  }

  lemma RetiredVersion(run: SyncRun, r: Resource, stale: OperationKind)
    ensures Retired(run, r, stale).versions.projection == run.version
  {
  }

  predicate PublishesAll(p: Projection, targets: map<ResourceID, Resource>) {
    forall id | id in targets :: id in p.resources && p.resources[id] == Published(targets[id])
  }

  lemma ReplacementServes(run: SyncRun, current: Projection, desired: seq<Resource>, stale: OperationKind)
    requires Plannable(run, current, desired, stale) && stale.IsTerminal()
    ensures Serving(Replacement(run, current, TargetMap(run, desired), stale)) == TargetMap(run, desired).Keys
    ensures Terminal(Replacement(run, current, TargetMap(run, desired), stale))
         == StaleIDs(current, TargetMap(run, desired))
    ensures PublishesAll(Replacement(run, current, TargetMap(run, desired), stale), TargetMap(run, desired))
  {
    hide Plannable, ValidProjection;
    PlanningKeyed(run, current, desired, stale);
    var targets := TargetMap(run, desired);
    var p := Replacement(run, current, targets, stale);
    forall id | id in p.resources
      ensures p.resources[id].IsServing() <==> id in targets
      ensures p.resources[id].state.IsTerminal() <==> id in StaleIDs(current, targets)
    {
      if id in targets {
        assert p.resources[id] == Published(targets[id]);
      }
    }
  }

  /** The successful reduction of a planner's plan is the validated replacement. */
  lemma PlanReduces(plan: Plan, current: Projection, desired: seq<Resource>, stale: OperationKind)
    requires stale.IsTerminal()
    requires Plannable(plan.run, current, desired, stale)
    requires IsPlanFor(plan, plan.run, current, TargetMap(plan.run, desired), stale)
    requires plan !in current.applied
    ensures Applies(plan, current)
    ensures CompleteResults(plan, SuccessfulResults(plan))
    ensures var p := Reduced(plan, current, Outcomes(SuccessfulResults(plan)));
            && ValidProjection(p)
            && p.resources == Replacement(plan.run, current, TargetMap(plan.run, desired), stale).resources
  {
    var targets := TargetMap(plan.run, desired);
    PlanningKeyed(plan.run, current, desired, stale);
    PlannedReplayable(plan, current, targets, stale);
    SuccessfulComplete(plan);
    var good := Outcomes(SuccessfulResults(plan));
    SuccessfulResources(plan, current, targets, stale, good);
    AppliedIrrelevant(Replacement(plan.run, current, targets, stale), Reduced(plan, current, good));
  }

  lemma SameServing(p: Projection, q: Projection)
    requires p.resources == q.resources
    ensures Serving(p) == Serving(q) && Terminal(p) == Terminal(q)
  {
  }

  lemma PlanServes(
    plan: Plan, current: Projection, desired: seq<Resource>, stale: OperationKind, results: seq<OperationResult>)
    requires stale.IsTerminal()
    requires Plannable(plan.run, current, desired, stale)
    requires IsPlanFor(plan, plan.run, current, TargetMap(plan.run, desired), stale)
    requires plan !in current.applied
    requires CompleteResults(plan, results) && AllSucceeded(plan.operations, Outcomes(results))
    ensures var p := Reduced(plan, current, Outcomes(results));
            var targets := TargetMap(plan.run, desired);
            && Serving(p) == targets.Keys
            && Terminal(p) == Live(current) - targets.Keys
            && PublishesAll(p, targets)
  {
    var targets := TargetMap(plan.run, desired);
    PlanReduces(plan, current, desired, stale);
    SuccessfulComplete(plan);
    ReducedAgrees(plan, current, Outcomes(results), Outcomes(SuccessfulResults(plan)));
    ReplacementServes(plan.run, current, desired, stale);
    SameServing(Reduced(plan, current, Outcomes(results)), Replacement(plan.run, current, targets, stale));
  }

  /**
   Every plan the planner produces passes the replay preflight and replays under
   every complete result set. All successes serve exactly the desired resources
   and retire exactly the other live ones; any failure leaves nothing serving.
   */
  lemma PlanReplayAgreement(
    plan: Plan, current: Projection, desired: seq<Resource>, stale: OperationKind, results: seq<OperationResult>)
    requires stale.IsTerminal()
    requires Plannable(plan.run, current, desired, stale)
    requires IsPlanFor(plan, plan.run, current, TargetMap(plan.run, desired), stale)
    requires plan !in current.applied
    requires CompleteResults(plan, results)
    ensures ReplayablePlan(plan, current)
    ensures Replay(plan, current, results).Ok?
    ensures var (p, report) := Replay(plan, current, results).value;
            var targets := TargetMap(plan.run, desired);
            if AllSucceeded(plan.operations, Outcomes(results)) then
              && report.runState.RunSucceeded?
              && p.state.StatePublished?
              && Serving(p) == targets.Keys
              && Terminal(p) == Live(current) - targets.Keys
              && PublishesAll(p, targets)
            else
              report.runState.RunFailed? && p.state.StateFailed? && Serving(p) == {}
  {
    PlanReduces(plan, current, desired, stale);
    ReplayReduces(plan, current, SuccessfulResults(plan));
    ReplayReduces(plan, current, results);
    ReplayTotal(plan, current, results);
    if AllSucceeded(plan.operations, Outcomes(results)) {
      PlanServes(plan, current, desired, stale, results);
    }
  }

  /**
   Replaying a plan onto its own result, with any results at all, returns that
   projection unchanged and reports the run state it ended in.
   */
  lemma ReplayIdempotent(
    plan: Plan, current: Projection, results: seq<OperationResult>, again: seq<OperationResult>)
    requires plan !in current.applied
    requires Replay(plan, current, results).Ok?
    ensures var (p, report) := Replay(plan, current, results).value;
            Replay(plan, p, again) == Ok((p, Report(report.runState, true, {})))
  {
    ReplayReduces(plan, current, results);
    var p := Reduced(plan, current, Outcomes(results));
    AppliedState(plan, current, Outcomes(results));
    assert plan in p.applied;
  }

  lemma AppliedState(plan: Plan, current: Projection, outcomes: map<Operation, Outcome>)
    requires Covers(outcomes, plan.operations)
    ensures AppliedRunState(Reduced(plan, current, outcomes), plan)
         == Ok(if AllSucceeded(plan.operations, outcomes) then RunSucceeded else RunFailed)
  {
    var receipts := Reduced(plan, current, outcomes).receipts;
    forall op | op in plan.operations
      ensures IdOf(plan.run, op) in receipts
      ensures receipts[IdOf(plan.run, op)] == Receipt(plan.run.key, outcomes[op])
    {
      assert IdOf(plan.run, op) in ReceiptsOf(plan, outcomes);
    }
  }
}
