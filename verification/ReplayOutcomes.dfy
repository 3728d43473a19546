/**
 What replay makes of each resource, read off the plan and the results: which of them
 fail, which stay staged, how far each component got, and which receipts are kept.
 */
module ReplayOutcomes {
  import opened Wrappers
  import opened Catalog
  import opened Planner
  import opened Replaying
  import opened PlanReplay

  // The statement.

  /** Some operation of the resource failed. */
  predicate FailedFor(ops: seq<Operation>, outcomes: map<Operation, Outcome>, id: ResourceID)
    requires Covers(outcomes, ops)
  {
    exists op | op in ops :: op.resource.id == id && outcomes[op].OperationFailed?
  }

  const ComponentKinds: set<OperationKind> := {ProjectContent, ProjectACL, ProjectIndex, ProjectGraph, ProjectArtifact}

  function ComponentOf(status: ProjectionStatus, kind: OperationKind): ComponentState {
    match kind
    case ProjectContent => status.content
    case ProjectACL => status.acl
    case ProjectIndex => status.index
    case ProjectGraph => status.graph
    case ProjectArtifact => status.artifacts
    case _ => ComponentPending
  }

  /** The component failed or succeeded as its own operation did. */
  predicate FollowsOperation(
    ops: seq<Operation>, outcomes: map<Operation, Outcome>, id: ResourceID, kind: OperationKind, state: ComponentState)
    requires Covers(outcomes, ops)
  {
    forall op | op in ops && op.kind == kind && op.resource.id == id ::
      state == if outcomes[op].OperationFailed? then ComponentFailed else ComponentSucceeded
  }

  /** A staged resource at the new version: published, failed on its own, or held back with the run. */
  predicate TargetEnds(plan: Plan, outcomes: map<Operation, Outcome>, staged: Operation, r: Resource, published: bool)
    requires Covers(outcomes, plan.operations)
  {
    var id := staged.resource.id;
    && r == staged.resource.(versions := r.versions, state := r.state, status := r.status)
    && r.versions == staged.resource.versions.(projection := plan.run.version)
    && r.state == (if published then StatePublished
                   else if FailedFor(plan.operations, outcomes, id) then StateFailed
                   else StateStaged)
    && forall kind | kind in ComponentKinds ::
         && Has(plan.operations, id, kind)
         && FollowsOperation(plan.operations, outcomes, id, kind, ComponentOf(r.status, kind))
  }

  /** A retired resource at the new version: as planned, unless its own operation failed. */
  predicate RetiredEnds(plan: Plan, outcomes: map<Operation, Outcome>, terminal: Operation, r: Resource)
    requires terminal in outcomes
  {
    && r == terminal.resource.(versions := r.versions, state := r.state)
    && r.versions == terminal.resource.versions.(projection := plan.run.version)
    && r.state == (if outcomes[terminal].OperationFailed? then StateFailed else terminal.resource.state)
  }

  // The reduction, operation by operation.

  lemma {:induction false} FailuresReduced(ops: seq<Operation>, outcomes: map<Operation, Outcome>, id: ResourceID)
    requires Covers(outcomes, ops)
    ensures id in Reduce(ops, outcomes).failures <==> FailedFor(ops, outcomes, id)
  {
    if ops != [] {
      var front, last := ops[..|ops| - 1], ops[|ops| - 1];
      assert ops == front + [last];
      FailuresReduced(front, outcomes, id);
      assert last in ops;
    }
  }

  lemma {:induction false} TerminalReduced(ops: seq<Operation>, outcomes: map<Operation, Outcome>, op: Operation)
    requires Covers(outcomes, ops) && op in ops && op.kind.IsTerminal()
    requires forall o | o in ops && o.kind.IsTerminal() && o.resource.id == op.resource.id :: o == op
    ensures op.resource.id in Reduce(ops, outcomes).retired
    ensures Reduce(ops, outcomes).retired[op.resource.id]
         == if outcomes[op].OperationFailed? then op.resource.(state := StateFailed) else op.resource
  {
    var front, last := ops[..|ops| - 1], ops[|ops| - 1];
    assert ops == front + [last];
    if last != op {
      TerminalReduced(front, outcomes, op);
    }
  }

  lemma {:induction false} KeysReduced(ops: seq<Operation>, outcomes: map<Operation, Outcome>, id: ResourceID)
    requires Covers(outcomes, ops)
    ensures id in Reduce(ops, outcomes).targets <==> Has(ops, id, Stage)
    ensures id in Reduce(ops, outcomes).retired <==> Has(ops, id, Revoke) || Has(ops, id, Tombstone)
  {
    if ops != [] {
      KeysReduced(ops[..|ops| - 1], outcomes, id);
      HasExtends(ops, id, Stage);
      HasExtends(ops, id, Revoke);
      HasExtends(ops, id, Tombstone);
    }
  }

  predicate Reached(
    ops: seq<Operation>, outcomes: map<Operation, Outcome>, id: ResourceID, kind: OperationKind, state: ComponentState)
    requires Covers(outcomes, ops)
  {
    FollowsOperation(ops, outcomes, id, kind, state) && (!Has(ops, id, kind) ==> state.ComponentPending?)
  }

  lemma NoneBeforeStage(ops: seq<Operation>, id: ResourceID, kind: OperationKind)
    requires ops != [] && Canonical(ops) && kind in ComponentKinds
    requires ops[|ops| - 1].kind.Stage? && ops[|ops| - 1].resource.id == id
    ensures !Has(ops, id, kind)
  {
    StagedFirst(ops, id);
    HasExtends(ops, id, kind);
  }

  lemma ComponentMoves(before: ProjectionStatus, moved: OperationKind, outcome: Outcome, kind: OperationKind)
    requires kind in ComponentKinds
    ensures ComponentOf(ApplyComponent(before, moved, outcome), kind)
         == if moved == kind then (if outcome.OperationFailed? then ComponentFailed else ComponentSucceeded)
            else ComponentOf(before, kind)
  {
  }

  lemma OtherLast(
    ops: seq<Operation>, outcomes: map<Operation, Outcome>, id: ResourceID, kind: OperationKind, state: ComponentState)
    requires ops != [] && Covers(outcomes, ops) && Reached(ops[..|ops| - 1], outcomes, id, kind, state)
    requires !(ops[|ops| - 1].kind == kind && ops[|ops| - 1].resource.id == id)
    ensures Reached(ops, outcomes, id, kind, state)
  {
    HasExtends(ops, id, kind);
    assert ops == ops[..|ops| - 1] + [ops[|ops| - 1]];
  }

  lemma OwnLast(ops: seq<Operation>, outcomes: map<Operation, Outcome>, last: Operation)
    requires ops != [] && Covers(outcomes, ops) && KindsUnique(ops) && last == ops[|ops| - 1]
    ensures Reached(ops, outcomes, last.resource.id, last.kind,
                    if outcomes[last].OperationFailed? then ComponentFailed else ComponentSucceeded)
  {
    assert last in ops;
    forall op | op in ops && op.kind == last.kind && op.resource.id == last.resource.id ensures op == last {
      SameOperation(ops, op, last);
    }
  }

  /** One more operation moves at most the component it projects. */
  lemma ReachedStep(
    ops: seq<Operation>, outcomes: map<Operation, Outcome>, id: ResourceID, kind: OperationKind,
    before: ProjectionStatus)
    requires ops != [] && Covers(outcomes, ops) && KindsUnique(ops) && kind in ComponentKinds
    requires Reached(ops[..|ops| - 1], outcomes, id, kind, ComponentOf(before, kind))
    ensures var last := ops[|ops| - 1];
            var after := if last.resource.id == id then ApplyComponent(before, last.kind, outcomes[last]) else before;
            Reached(ops, outcomes, id, kind, ComponentOf(after, kind))
  {
    hide KindsUnique, Reached, ApplyComponent, ComponentOf;
    var last := ops[|ops| - 1];
    ComponentMoves(before, last.kind, outcomes[last], kind);
    if last.resource.id == id && last.kind == kind {
      OwnLast(ops, outcomes, last);
    } else {
      OtherLast(ops, outcomes, id, kind, ComponentOf(before, kind));
    }
  }

  lemma {:induction false} StatusReduced(
    ops: seq<Operation>, outcomes: map<Operation, Outcome>, id: ResourceID, kind: OperationKind)
    requires Covers(outcomes, ops) && Canonical(ops) && KindsUnique(ops) && kind in ComponentKinds
    ensures id in Reduce(ops, outcomes).statuses ==>
              Reached(ops, outcomes, id, kind, ComponentOf(Reduce(ops, outcomes).statuses[id], kind))
  {
    if ops != [] && id in Reduce(ops, outcomes).statuses {
      var front, last := ops[..|ops| - 1], ops[|ops| - 1];
      StatusReduced(front, outcomes, id, kind);
      if last.kind.Stage? && last.resource.id == id {
        NoneBeforeStage(ops, id, kind);
      } else {
        ReachedStep(ops, outcomes, id, kind, Reduce(front, outcomes).statuses[id]);
      }
    }
  }

  // What the preflight leaves of one resource's operations.

  lemma TargetIsComplete(plan: Plan, current: Projection, op: Operation)
    requires ReplayablePlan(plan, current) && op in plan.operations && HasTarget(plan.operations, op.resource.id)
    ensures !op.kind.IsTerminal() && Has(plan.operations, op.resource.id, Stage)
    ensures forall kind | kind in ComponentKinds :: Has(plan.operations, op.resource.id, kind)
  {
    assert TargetGroupFits(plan, current, op);
    assert TargetKinds[0] == Stage;
    assert TargetKinds[1] == ProjectContent && TargetKinds[2] == ProjectACL && TargetKinds[3] == ProjectIndex
        && TargetKinds[4] == ProjectGraph && TargetKinds[5] == ProjectArtifact;
  }

  lemma SameOperation(ops: seq<Operation>, a: Operation, b: Operation)
    requires KindsUnique(ops) && a in ops && b in ops && a.resource.id == b.resource.id && a.kind == b.kind
    ensures a == b
  {
    var i :| 0 <= i < |ops| && ops[i] == a;
    var j :| 0 <= j < |ops| && ops[j] == b;
  }

  lemma TerminalIsAlone(plan: Plan, current: Projection, op: Operation)
    requires ReplayablePlan(plan, current) && op in plan.operations && op.kind.IsTerminal()
    ensures forall o | o in plan.operations && o.resource.id == op.resource.id :: o == op
  {
    if HasTarget(plan.operations, op.resource.id) {
      TargetIsComplete(plan, current, op);
    }
    forall o | o in plan.operations && o.resource.id == op.resource.id ensures o == op {
      assert TerminalGroupFits(plan, current, o) && TerminalGroupFits(plan, current, op);
      SameOperation(plan.operations, o, op);
    }
  }

  lemma StageOf(plan: Plan, current: Projection, id: ResourceID) returns (staged: Operation)
    requires ReplayablePlan(plan, current) && HasTarget(plan.operations, id)
    ensures staged in plan.operations && staged.kind.Stage? && staged.resource.id == id
    ensures forall o | o in plan.operations && o.kind.Stage? && o.resource.id == id :: o == staged
    ensures !Has(plan.operations, id, Revoke) && !Has(plan.operations, id, Tombstone)
    ensures forall kind | kind in ComponentKinds :: Has(plan.operations, id, kind)
  {
    var target :| target in plan.operations && target.kind.IsTarget() && target.resource.id == id;
    TargetIsComplete(plan, current, target);
    staged :| staged in plan.operations && staged.kind.Stage? && staged.resource.id == id;
    forall o | o in plan.operations && o.kind.Stage? && o.resource.id == id ensures o == staged {
      SameOperation(plan.operations, o, staged);
    }
    forall o | o in plan.operations && o.resource.id == id ensures !o.kind.IsTerminal() {
      TargetIsComplete(plan, current, o);
    }
  }

  // The theorems.

  /** A status some component of which failed has a failed operation behind it. */
  lemma FailedStatusFails(ops: seq<Operation>, outcomes: map<Operation, Outcome>, id: ResourceID, status: ProjectionStatus)
    requires Covers(outcomes, ops) && status.Failed()
    requires forall kind | kind in ComponentKinds :: Reached(ops, outcomes, id, kind, ComponentOf(status, kind))
    ensures FailedFor(ops, outcomes, id)
  {
    var kind :| kind in ComponentKinds && ComponentOf(status, kind).ComponentFailed?;
    assert Has(ops, id, kind);
  }

  lemma TargetReplayed(plan: Plan, current: Projection, outcomes: map<Operation, Outcome>, staged: Operation)
    requires ReplayablePlan(plan, current) && Canonical(plan.operations) && Covers(outcomes, plan.operations)
    requires staged in plan.operations && staged.kind.Stage?
    ensures staged.resource.id in Reduced(plan, current, outcomes).resources
    ensures TargetEnds(plan, outcomes, staged, Reduced(plan, current, outcomes).resources[staged.resource.id],
                       AllSucceeded(plan.operations, outcomes))
  {
    hide ReplayablePlan, Canonical, Reduce, Reached, FollowsOperation, FailedFor, SettledAt, TargetEnds, Reduced, Has;
    StageIsTarget(plan.operations, staged);
    var found := StageOf(plan, current, staged.resource.id);
    StagedReduced(plan, current, outcomes, staged);
    ReducedAt(plan, current, outcomes, staged.resource.id);
    TargetSettled(plan, outcomes, staged, Reduce(plan.operations, outcomes));
  }

  lemma StageIsTarget(ops: seq<Operation>, staged: Operation)
    requires staged in ops && staged.kind.Stage?
    ensures HasTarget(ops, staged.resource.id)
  {
  }

  lemma ReducedAt(plan: Plan, current: Projection, outcomes: map<Operation, Outcome>, id: ResourceID)
    requires Covers(outcomes, plan.operations)
    ensures var s := Reduce(plan.operations, outcomes);
            id in s.targets.Keys + s.retired.Keys ==>
              && id in Reduced(plan, current, outcomes).resources
              && Reduced(plan, current, outcomes).resources[id]
                 == SettledAt(s, plan.run.version, !AllSucceeded(plan.operations, outcomes), id)
  {
    hide SettledAt, AllSucceeded;
  }

  lemma StagedReduced(plan: Plan, current: Projection, outcomes: map<Operation, Outcome>, staged: Operation)
    requires ReplayablePlan(plan, current) && Canonical(plan.operations) && Covers(outcomes, plan.operations)
    requires staged in plan.operations && staged.kind.Stage? && HasTarget(plan.operations, staged.resource.id)
    ensures var s, id := Reduce(plan.operations, outcomes), staged.resource.id;
            && id in s.targets && s.targets[id] == staged.resource && id !in s.retired
            && (id in s.failures <==> FailedFor(plan.operations, outcomes, id))
            && (s.statuses[id].Failed() ==> FailedFor(plan.operations, outcomes, id))
            && forall kind | kind in ComponentKinds ::
                 Reached(plan.operations, outcomes, id, kind, ComponentOf(s.statuses[id], kind))
  {
    var ops, id := plan.operations, staged.resource.id;
    var found := StageOf(plan, current, id);
    assert KindsUnique(ops);
    hide ReplayablePlan, Canonical, KindsUnique, Reduce, Reached, FollowsOperation, FailedFor;
    TargetsReduced(ops, outcomes, staged);
    KeysReduced(ops, outcomes, id);
    FailuresReduced(ops, outcomes, id);
    var s := Reduce(ops, outcomes);
    forall kind | kind in ComponentKinds ensures Reached(ops, outcomes, id, kind, ComponentOf(s.statuses[id], kind)) {
      StatusReduced(ops, outcomes, id, kind);
    }
    if s.statuses[id].Failed() {
      FailedStatusFails(ops, outcomes, id, s.statuses[id]);
    }
  }

  lemma TargetSettled(plan: Plan, outcomes: map<Operation, Outcome>, staged: Operation, s: Reduction)
    requires Covers(outcomes, plan.operations) && s.statuses.Keys == s.targets.Keys
    requires var id := staged.resource.id;
             && id in s.targets && s.targets[id] == staged.resource && id !in s.retired
             && (id in s.failures <==> FailedFor(plan.operations, outcomes, id))
             && (s.statuses[id].Failed() ==> FailedFor(plan.operations, outcomes, id))
             && forall kind | kind in ComponentKinds ::
                  && Has(plan.operations, id, kind)
                  && Reached(plan.operations, outcomes, id, kind, ComponentOf(s.statuses[id], kind))
    ensures var r := SettledAt(s, plan.run.version, !AllSucceeded(plan.operations, outcomes), staged.resource.id);
            TargetEnds(plan, outcomes, staged, r, AllSucceeded(plan.operations, outcomes))
  {
    hide FollowsOperation, Has, FailedFor, AllSucceeded;
  }

  lemma RetiredReplayed(plan: Plan, current: Projection, outcomes: map<Operation, Outcome>, terminal: Operation)
    requires ReplayablePlan(plan, current) && Covers(outcomes, plan.operations)
    requires terminal in plan.operations && terminal.kind.IsTerminal()
    ensures terminal.resource.id in Reduced(plan, current, outcomes).resources
    ensures RetiredEnds(plan, outcomes, terminal, Reduced(plan, current, outcomes).resources[terminal.resource.id])
  {
    TerminalIsAlone(plan, current, terminal);
    hide ReplayablePlan;
    TerminalReduced(plan.operations, outcomes, terminal);
  }

  /**
   Replaying any plan, planned or not: each staged and each retired resource ends as its
   own operations and the fate of the run say, and nothing else is in the projection.
   */
  lemma ReplayedResources(plan: Plan, current: Projection, results: seq<OperationResult>)
    requires plan !in current.applied && Replay(plan, current, results).Ok?
    ensures var p, outcomes := Replay(plan, current, results).value.0, Outcomes(results);
            && Covers(outcomes, plan.operations)
            && (p.state.StatePublished? <==> forall op | op in plan.operations :: outcomes[op].OperationSucceeded?)
            && (forall id :: id in p.resources <==> exists op :: op in plan.operations && op.resource.id == id)
            && (forall op | op in plan.operations && op.kind.Stage? ::
                  TargetEnds(plan, outcomes, op, p.resources[op.resource.id], p.state.StatePublished?))
            && (forall op | op in plan.operations && op.kind.IsTerminal() ::
                  RetiredEnds(plan, outcomes, op, p.resources[op.resource.id]))
  {
    ReplayReduces(plan, current, results);
    var outcomes := Outcomes(results);
    var p := Reduced(plan, current, outcomes);
    hide ValidProjection, ReplayablePlan, TargetEnds, RetiredEnds, Outcomes, Canonical, ValidOperation;
    forall id ensures id in p.resources <==> exists op :: op in plan.operations && op.resource.id == id {
      ReplayedKeys(plan, current, outcomes, id);
    }
    forall op | op in plan.operations && op.kind.Stage?
      ensures TargetEnds(plan, outcomes, op, p.resources[op.resource.id], p.state.StatePublished?)
    {
      TargetReplayed(plan, current, outcomes, op);
    }
    forall op | op in plan.operations && op.kind.IsTerminal()
      ensures RetiredEnds(plan, outcomes, op, p.resources[op.resource.id])
    {
      RetiredReplayed(plan, current, outcomes, op);
    }
  }

  lemma ReplayedKeys(plan: Plan, current: Projection, outcomes: map<Operation, Outcome>, id: ResourceID)
    requires ReplayablePlan(plan, current) && Covers(outcomes, plan.operations)
    ensures id in Reduced(plan, current, outcomes).resources
       <==> exists op :: op in plan.operations && op.resource.id == id
  {
    KeysReduced(plan.operations, outcomes, id);
    if op :| op in plan.operations && op.resource.id == id {
      if HasTarget(plan.operations, id) {
        TargetIsComplete(plan, current, op);
      } else {
        assert TerminalGroupFits(plan, current, op);
        assert Has(plan.operations, id, op.kind);
      }
    }
  }

  /** Replay adds a receipt for each operation of the plan and keeps the others it finds. */
  lemma ReceiptsKept(plan: Plan, current: Projection, results: seq<OperationResult>, id: OperationID)
    requires plan !in current.applied && Replay(plan, current, results).Ok?
    ensures var p, outcomes := Replay(plan, current, results).value.0, Outcomes(results);
            var own := id.run == plan.run.id && id.version == plan.run.version && id.operation in plan.operations;
            && Covers(outcomes, plan.operations)
            && (own ==> id in p.receipts && p.receipts[id] == Receipt(plan.run.key, outcomes[id.operation]))
            && (!own ==> (id in p.receipts <==> id in current.receipts))
            && (!own && id in current.receipts ==> p.receipts[id] == current.receipts[id])
  {
    ReplayReduces(plan, current, results);
    hide ValidProjection, ReplayablePlan, Outcomes, Settled;
    assert id == IdOf(plan.run, id.operation) <==> id.run == plan.run.id && id.version == plan.run.version;
  }
}
