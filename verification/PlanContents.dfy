/**
 What a plan holds and what it publishes, field by field of the base and the desired
 resources, and what the replay preflight lets through.
 */
module PlanContents {
  import opened Wrappers
  import opened Catalog
  import opened Planner
  import opened Replaying
  import opened PlanReplay

  // Definitions.

  /** Everything that defines a resource is the same: what it says, who may see it, what it rests on. */
  predicate AgreeOnContent(left: Resource, right: Resource) {
    && left.id == right.id && left.kind == right.kind && left.scope == right.scope
    && left.authzObject == right.authzObject && left.authzResource == right.authzResource
    && left.digest == right.digest && left.sensitivity == right.sensitivity && left.domain == right.domain
    && left.versions.content == right.versions.content && left.versions.acl == right.versions.acl
    && left.versions.index == right.versions.index && left.versions.graph == right.versions.graph
    && left.deps == right.deps
  }

  /** State, status, security record and projection version do not define a resource; all else does. */
  lemma DefinitionFields(left: Resource, right: Resource)
    ensures SameDefinition(left, right)
       <==> && AgreeOnContent(left, right)
            && left.versions.source == right.versions.source && left.claimRecord == right.claimRecord
  {
    var l, r := Definition(left), Definition(right);
    if AgreeOnContent(left, right) && left.versions.source == right.versions.source
       && left.claimRecord == right.claimRecord {
      assert l.versions == r.versions;
      assert l == r;
    }
  }

  predicate Redefined(current: Projection, d: Resource) {
    && d.id in current.resources
    && var previous := current.resources[d.id];
       !(&& AgreeOnContent(previous, d)
         && previous.versions.source == d.versions.source && previous.claimRecord == d.claimRecord)
  }

  // The operations of a plan.

  function Bound(run: SyncRun, r: Resource): ResourceVersions {
    ResourceVersions(run.snapshot.version, r.versions.content, r.versions.acl, r.versions.index, r.versions.graph,
                     run.version)
  }

  /** The desired resource at the new version, nothing of it projected yet. */
  predicate Stages(run: SyncRun, op: Operation, d: Resource) {
    && op.kind in {Stage, ProjectContent, ProjectACL, ProjectIndex, ProjectGraph, ProjectArtifact, Publish}
    && op.resource == d.(versions := Bound(run, d), state := StateStaged, status := Pending)
  }

  /** The resource of the base without its records, in the state it is retired to. */
  predicate Retires(run: SyncRun, op: Operation, previous: Resource, kind: OperationKind, state: LifecycleState) {
    && op.kind == kind
    && op.resource == previous.(versions := Bound(run, previous), claimRecord := None, security := None, state := state)
  }

  ghost predicate Planned(run: SyncRun, current: Projection, desired: seq<Resource>, stale: OperationKind, op: Operation) {
    || (exists d | d in desired :: Stages(run, op, d))
    || (exists d | d in desired :: Redefined(current, d) && d.id in current.resources
                                   && Retires(run, op, current.resources[d.id], Supersede, StateSuperseded))
    || (exists id | id in current.resources ::
          && !current.resources[id].state.IsTerminal() && (forall d | d in desired :: d.id != id)
          && Retires(run, op, current.resources[id], stale, if stale.Revoke? then StateRevoked else StateTombstoned))
  }

  lemma TargetOf(run: SyncRun, current: Projection, desired: seq<Resource>, stale: OperationKind, d: Resource)
    requires Plannable(run, current, desired, stale) && d in desired
    ensures d.id in TargetMap(run, desired)
    ensures TargetMap(run, desired)[d.id] == d.(versions := Bound(run, d), state := StateStaged, status := Pending)
    ensures Redefines(current, TargetMap(run, desired)[d.id]) <==> Redefined(current, d)
  {
    var i :| 0 <= i < |desired| && desired[i] == d;
    TargetMapAt(run, desired, i);
    assert Acceptable(run, d);
    hide Plannable, Acceptable;
    assert Target(run, d).versions == Bound(run, d);
    if d.id in current.resources {
      DefinitionFields(current.resources[d.id], Target(run, d));
    }
  }

  lemma SomeDesired(run: SyncRun, desired: seq<Resource>, id: ResourceID)
    ensures id in TargetMap(run, desired) <==> exists d | d in desired :: d.id == id
  {
    if d :| d in desired && d.id == id {
      var i :| 0 <= i < |desired| && desired[i] == d;
      assert desired[i].id == id;
    }
  }

  lemma StagesTarget(run: SyncRun, op: Operation, target: Resource)
    ensures op in ComponentOperations(target) <==>
              && op.kind in {Stage, ProjectContent, ProjectACL, ProjectIndex, ProjectGraph, ProjectArtifact, Publish}
              && op.resource == target
  {
    assert forall kind :: kind in TargetKinds <==>
                            kind in {Stage, ProjectContent, ProjectACL, ProjectIndex, ProjectGraph, ProjectArtifact, Publish}
    by {
      assert TargetKinds[0] == Stage && TargetKinds[1] == ProjectContent && TargetKinds[2] == ProjectACL
          && TargetKinds[3] == ProjectIndex && TargetKinds[4] == ProjectGraph && TargetKinds[5] == ProjectArtifact
          && TargetKinds[6] == Publish;
    }
    if op.kind in TargetKinds && op.resource == target {
      assert op == Operation(op.kind, target);
    }
  }

  lemma PlannedForTarget(
    run: SyncRun, current: Projection, desired: seq<Resource>, stale: OperationKind, op: Operation, d: Resource)
    requires Plannable(run, current, desired, stale) && stale.IsTerminal() && d in desired
    ensures op in TargetOperations(run, current, TargetMap(run, desired)[d.id]) <==>
              || Stages(run, op, d)
              || (Redefined(current, d) && d.id in current.resources
                  && Retires(run, op, current.resources[d.id], Supersede, StateSuperseded))
  {
    hide Plannable, Redefined, SameDefinition, TargetMap, Retires, ComponentOperations;
    TargetOf(run, current, desired, stale, d);
    var target := TargetMap(run, desired)[d.id];
    StagesTarget(run, op, target);
    if d.id in current.resources {
      SupersessionFields(run, current.resources[d.id], op);
    }
  }

  lemma SupersessionFields(run: SyncRun, previous: Resource, op: Operation)
    ensures op == Operation(Supersede, Superseded(run, previous)) <==>
              Retires(run, op, previous, Supersede, StateSuperseded)
  {
  }

  /** A plan holds exactly the operations the base and the desired resources call for. */
  lemma PlannedByFields(plan: Plan, current: Projection, desired: seq<Resource>, stale: OperationKind, op: Operation)
    requires Plannable(plan.run, current, desired, stale) && stale.IsTerminal()
    requires IsPlanFor(plan, plan.run, current, TargetMap(plan.run, desired), stale)
    ensures op in plan.operations <==> Planned(plan.run, current, desired, stale, op)
  {
    hide Plannable, TargetMap, PlannedOperations, Stages, Retires, Redefined, TargetOperations, StaleIDs;
    var run, targets := plan.run, TargetMap(plan.run, desired);
    InPlan(plan, current, targets, stale, op);
    hide IsPlanFor;
    MembersOfPlan(run, current, targets, stale, op);
    StagedByFields(run, current, desired, stale, op);
    RetiredByFields(run, current, desired, stale, op);
  }

  lemma InPlan(plan: Plan, current: Projection, targets: map<ResourceID, Resource>, stale: OperationKind, op: Operation)
    requires IsPlanFor(plan, plan.run, current, targets, stale)
    ensures op in plan.operations <==> op in PlannedOperations(plan.run, current, targets, stale)
  {
    hide PlannedOperations, ValidPlan;
    assert op in plan.operations <==> op in (set o | o in plan.operations);
  }

  lemma StagedByFields(run: SyncRun, current: Projection, desired: seq<Resource>, stale: OperationKind, op: Operation)
    requires Plannable(run, current, desired, stale) && stale.IsTerminal()
    ensures var targets := TargetMap(run, desired);
            (exists id | id in targets :: op in TargetOperations(run, current, targets[id])) <==>
              || (exists d | d in desired :: Stages(run, op, d))
              || (exists d | d in desired :: Redefined(current, d) && d.id in current.resources
                                             && Retires(run, op, current.resources[d.id], Supersede, StateSuperseded))
  {
    hide Plannable, TargetMap, Stages, Retires, Redefined, TargetOperations;
    var targets := TargetMap(run, desired);
    forall d | d in desired
      ensures d.id in targets
      ensures op in TargetOperations(run, current, targets[d.id]) <==>
                || Stages(run, op, d)
                || (Redefined(current, d) && d.id in current.resources
                    && Retires(run, op, current.resources[d.id], Supersede, StateSuperseded))
    {
      TargetOf(run, current, desired, stale, d);
      PlannedForTarget(run, current, desired, stale, op, d);
    }
    if id :| id in targets && op in TargetOperations(run, current, targets[id]) {
      SomeDesired(run, desired, id);
    }
  }

  lemma RetiredByFields(run: SyncRun, current: Projection, desired: seq<Resource>, stale: OperationKind, op: Operation)
    requires stale.IsTerminal()
    ensures (exists id | id in current.resources ::
               && !current.resources[id].state.IsTerminal() && id !in TargetMap(run, desired)
               && op == RetireOperation(run, current, stale, id))
       <==> (exists id | id in current.resources ::
               && !current.resources[id].state.IsTerminal() && (forall d | d in desired :: d.id != id)
               && Retires(run, op, current.resources[id], stale, if stale.Revoke? then StateRevoked else StateTombstoned))
  {
    hide TargetMap, Retires, RetireOperation;
    forall id | id in current.resources
      ensures op == RetireOperation(run, current, stale, id) <==>
                Retires(run, op, current.resources[id], stale, if stale.Revoke? then StateRevoked else StateTombstoned)
      ensures id in TargetMap(run, desired) <==> exists d | d in desired :: d.id == id
    {
      RetirementFields(run, current, stale, op, id);
      SomeDesired(run, desired, id);
    }
  }

  lemma RetirementFields(run: SyncRun, current: Projection, stale: OperationKind, op: Operation, id: ResourceID)
    requires id in current.resources && stale.IsTerminal()
    ensures op == RetireOperation(run, current, stale, id) <==>
              Retires(run, op, current.resources[id], stale, if stale.Revoke? then StateRevoked else StateTombstoned)
  {
  }

  lemma MembersOfPlan(
    run: SyncRun, current: Projection, targets: map<ResourceID, Resource>, stale: OperationKind, op: Operation)
    ensures op in PlannedOperations(run, current, targets, stale) <==>
              || (exists id | id in targets :: op in TargetOperations(run, current, targets[id]))
              || (exists id | id in current.resources ::
                    && !current.resources[id].state.IsTerminal() && id !in targets
                    && op == RetireOperation(run, current, stale, id))
  {
    hide TargetOperations;
  }

  const KindOrder := [Supersede, Stage, ProjectContent, ProjectACL, ProjectIndex, ProjectGraph, ProjectArtifact, Publish,
                      Revoke, Tombstone]

  /** Operations go by resource, and those of one resource from supersession to publication. */
  lemma PlanInOrder(plan: Plan, i: nat, j: nat)
    requires ValidPlan(plan) && i < j < |plan.operations|
    ensures var a, b := plan.operations[i], plan.operations[j];
            || a.resource.id < b.resource.id
            || (a.resource.id == b.resource.id
                && exists m, n :: 0 <= m <= n < |KindOrder| && KindOrder[m] == a.kind && KindOrder[n] == b.kind)
  {
    var a, b := plan.operations[i], plan.operations[j];
    assert !OperationLess(b, a);
    KindAt(a.kind);
    KindAt(b.kind);
  }

  lemma KindAt(kind: OperationKind)
    ensures kind.Rank() < |KindOrder| && KindOrder[kind.Rank()] == kind
  {
  }

  // What success publishes.

  /** Every desired resource as it is, published and ready; every other live one retired; nothing else. */
  ghost predicate Publishes(run: SyncRun, current: Projection, desired: seq<Resource>, stale: OperationKind, p: Projection) {
    && (forall d | d in desired :: d.id in p.resources
          && p.resources[d.id] == d.(versions := Bound(run, d), state := StatePublished, status := Succeeded))
    && (forall id :: id in p.resources <==>
          (exists d | d in desired :: d.id == id)
          || (id in current.resources && !current.resources[id].state.IsTerminal()))
    && (forall id | id in current.resources && !current.resources[id].state.IsTerminal()
                    && (forall d | d in desired :: d.id != id) ::
          id in p.resources
          && p.resources[id] == current.resources[id].(
               versions := Bound(run, current.resources[id]), claimRecord := None, security := None,
               state := if stale.Revoke? then StateRevoked else StateTombstoned))
  }

  /** A successful run of a plan publishes exactly what was desired, field by field. */
  lemma PublishedByFields(
    plan: Plan, current: Projection, desired: seq<Resource>, stale: OperationKind, results: seq<OperationResult>)
    requires Plannable(plan.run, current, desired, stale) && stale.IsTerminal()
    requires IsPlanFor(plan, plan.run, current, TargetMap(plan.run, desired), stale)
    requires plan !in current.applied
    requires CompleteResults(plan, results) && AllSucceeded(plan.operations, Outcomes(results))
    ensures Replay(plan, current, results).Ok?
    ensures Publishes(plan.run, current, desired, stale, Replay(plan, current, results).value.0)
  {
    hide Plannable, IsPlanFor, Replay, CompleteResults, AllSucceeded, Outcomes, TargetMap, Replacement, Publishes;
    PlanReplayAgreement(plan, current, desired, stale, results);
    SuccessIsReplacement(plan, current, desired, stale, results);
    ReplacementPublishes(plan.run, current, desired, stale, Replay(plan, current, results).value.0);
  }

  lemma ReplacementPublishes(
    run: SyncRun, current: Projection, desired: seq<Resource>, stale: OperationKind, p: Projection)
    requires Plannable(run, current, desired, stale) && stale.IsTerminal()
    requires p.resources == Replacement(run, current, TargetMap(run, desired), stale).resources
    ensures Publishes(run, current, desired, stale, p)
  {
    var targets := TargetMap(run, desired);
    hide Plannable, TargetMap, Replacement, Redefines, Redefined;
    ReplacementAt(run, current, targets, stale);
    forall d | d in desired
      ensures d.id in targets
      ensures Published(targets[d.id]) == d.(versions := Bound(run, d), state := StatePublished, status := Succeeded)
    {
      TargetOf(run, current, desired, stale, d);
    }
    forall id ensures id in targets <==> exists d | d in desired :: d.id == id {
      SomeDesired(run, desired, id);
    }
    forall id | id in current.resources
      ensures Retired(run, current.resources[id], stale) == current.resources[id].(
                versions := Bound(run, current.resources[id]), claimRecord := None, security := None,
                state := if stale.Revoke? then StateRevoked else StateTombstoned)
    {
    }
    hide Published, Retired, Bound;
  }

  lemma SuccessIsReplacement(
    plan: Plan, current: Projection, desired: seq<Resource>, stale: OperationKind, results: seq<OperationResult>)
    requires Plannable(plan.run, current, desired, stale) && stale.IsTerminal()
    requires IsPlanFor(plan, plan.run, current, TargetMap(plan.run, desired), stale)
    requires plan !in current.applied
    requires CompleteResults(plan, results) && AllSucceeded(plan.operations, Outcomes(results))
    requires Replay(plan, current, results).Ok?
    ensures Replay(plan, current, results).value.0.resources
         == Replacement(plan.run, current, TargetMap(plan.run, desired), stale).resources
  {
    hide Plannable, IsPlanFor, Replay, Reduced, Replacement, TargetMap;
    PlanReduces(plan, current, desired, stale);
    ReplayReduces(plan, current, results);
    CompleteCovers(plan, results);
    CompleteCovers(plan, SuccessfulResults(plan));
    SuccessfulComplete(plan);
    ReducedAgrees(plan, current, Outcomes(results), Outcomes(SuccessfulResults(plan)));
  }

  lemma CompleteCovers(plan: Plan, results: seq<OperationResult>)
    requires CompleteResults(plan, results)
    ensures Covers(Outcomes(results), plan.operations)
  {
  }

  // What the preflight lets through.

  /** One operation retires a live resource of the base as it was defined there. */
  predicate RetiresLive(current: Projection, op: Operation) {
    && (op.kind.Revoke? || op.kind.Tombstone?)
    && op.resource.id in current.resources
    && var previous := current.resources[op.resource.id];
       && !previous.state.IsTerminal()
       && AgreeOnContent(previous, op.resource) && op.resource.claimRecord.None?
       && op.resource.state == (if op.kind.Revoke? then StateRevoked else StateTombstoned)
  }

  /** The operation supersedes what the base has, or stages the target. */
  predicate InTargetGroup(run: SyncRun, current: Projection, target: Resource, op: Operation) {
    if op.kind.Supersede? then
      && target.id in current.resources
      && Retires(run, op, current.resources[target.id], Supersede, StateSuperseded)
    else
      op.resource == target && !op.kind.Revoke? && !op.kind.Tombstone?
  }

  /** All seven operations stage the same resource, with a supersession exactly if it is redefined. */
  ghost predicate StagesAll(plan: Plan, current: Projection, id: ResourceID) {
    exists target: Resource ::
      && target.id == id
      && (forall kind | kind in {Stage, ProjectContent, ProjectACL, ProjectIndex, ProjectGraph, ProjectArtifact, Publish} ::
            Operation(kind, target) in plan.operations)
      && (Redefined(current, target) <==> exists op :: op in plan.operations && op.kind.Supersede? && op.resource.id == id)
      && forall op | op in plan.operations && op.resource.id == id ::
           InTargetGroup(plan.run, current, target, op)
  }

  lemma TargetPasses(plan: Plan, current: Projection, id: ResourceID)
    requires ReplayablePlan(plan, current) && HasTarget(plan.operations, id)
    ensures StagesAll(plan, current, id)
  {
    var staged :| staged in plan.operations && staged.kind.IsTarget() && staged.resource.id == id;
    var target := staged.resource;
    assert TargetGroupFits(plan, current, staged);
    forall op | op in plan.operations && op.resource.id == id
      ensures TargetGroupFits(plan, current, op) && (op.kind.IsTarget() ==> op.resource == target)
    {
      SameTarget(plan.operations, op, staged);
    }
    hide ReplayablePlan, TargetGroupFits;
    forall kind | kind in TargetKinds ensures Operation(kind, target) in plan.operations {
      KindPresent(plan, current, staged, kind);
    }
    AllTargetKinds();
    if id in current.resources {
      DefinitionFields(current.resources[id], target);
    }
    OthersFit(plan, current, staged);
  }

  lemma AllTargetKinds()
    ensures forall kind :: kind in TargetKinds <==>
              kind in {Stage, ProjectContent, ProjectACL, ProjectIndex, ProjectGraph, ProjectArtifact, Publish}
  {
    assert TargetKinds[0] == Stage && TargetKinds[1] == ProjectContent && TargetKinds[2] == ProjectACL
        && TargetKinds[3] == ProjectIndex && TargetKinds[4] == ProjectGraph && TargetKinds[5] == ProjectArtifact
        && TargetKinds[6] == Publish;
  }

  lemma SameTarget(ops: seq<Operation>, a: Operation, b: Operation)
    requires TargetsAgree(ops) && a in ops && b in ops && a.resource.id == b.resource.id
    requires b.kind.IsTarget()
    ensures a.kind.IsTarget() ==> a.resource == b.resource
  {
    var i :| 0 <= i < |ops| && ops[i] == a;
    var j :| 0 <= j < |ops| && ops[j] == b;
  }

  lemma KindPresent(plan: Plan, current: Projection, staged: Operation, kind: OperationKind)
    requires TargetGroupFits(plan, current, staged) && kind in TargetKinds
    requires forall op | op in plan.operations && op.resource.id == staged.resource.id ::
               op.kind.IsTarget() ==> op.resource == staged.resource
    ensures Operation(kind, staged.resource) in plan.operations
  {
    AllTargetKinds();
    var op :| op in plan.operations && op.kind == kind && op.resource.id == staged.resource.id;
    assert op == Operation(kind, staged.resource);
  }

  lemma OthersFit(plan: Plan, current: Projection, staged: Operation)
    requires staged in plan.operations && staged.kind.IsTarget()
    requires forall op | op in plan.operations && op.resource.id == staged.resource.id ::
               TargetGroupFits(plan, current, op) && (op.kind.IsTarget() ==> op.resource == staged.resource)
    ensures forall op | op in plan.operations && op.resource.id == staged.resource.id ::
              InTargetGroup(plan.run, current, staged.resource, op)
    ensures Redefines(current, staged.resource) <==>
              exists op :: op in plan.operations && op.kind.Supersede? && op.resource.id == staged.resource.id
  {
    forall op | op in plan.operations && op.resource.id == staged.resource.id
      ensures InTargetGroup(plan.run, current, staged.resource, op)
    {
      assert TargetGroupFits(plan, current, op);
    }
    assert TargetGroupFits(plan, current, staged);
  }

  lemma TerminalPasses(plan: Plan, current: Projection, op: Operation)
    requires ReplayablePlan(plan, current) && op in plan.operations && !HasTarget(plan.operations, op.resource.id)
    ensures RetiresLive(current, op)
    ensures forall o | o in plan.operations && o.resource.id == op.resource.id :: o == op
  {
    assert TerminalGroupFits(plan, current, op);
    forall o | o in plan.operations && o.resource.id == op.resource.id ensures o == op {
      assert TerminalGroupFits(plan, current, o);
      var i :| 0 <= i < |plan.operations| && plan.operations[i] == o;
      var j :| 0 <= j < |plan.operations| && plan.operations[j] == op;
    }
    var previous := current.resources[op.resource.id];
    DefinitionFields(
      previous.(versions := previous.versions.(source := op.resource.versions.source), claimRecord := None), op.resource);
  }

  /**
   Whatever plan replay accepts, planned here or not, accounts for every live resource
   of its base and either stages a resource completely or retires it once.
   */
  lemma PreflightGuarantees(plan: Plan, current: Projection)
    requires ReplayablePlan(plan, current)
    ensures forall id | id in current.resources && !current.resources[id].state.IsTerminal() ::
              exists op :: op in plan.operations && op.resource.id == id
    ensures forall op | op in plan.operations ::
              || StagesAll(plan, current, op.resource.id)
              || (RetiresLive(current, op)
                  && forall o | o in plan.operations && o.resource.id == op.resource.id :: o == op)
  {
    forall id | id in current.resources && !current.resources[id].state.IsTerminal()
      ensures exists op :: op in plan.operations && op.resource.id == id
    {
      assert id in Live(current);
    }
    hide ReplayablePlan, StagesAll, RetiresLive;
    forall op | op in plan.operations
      ensures || StagesAll(plan, current, op.resource.id)
              || (RetiresLive(current, op)
                  && forall o | o in plan.operations && o.resource.id == op.resource.id :: o == op)
    {
      if HasTarget(plan.operations, op.resource.id) {
        TargetPasses(plan, current, op.resource.id);
      } else {
        TerminalPasses(plan, current, op);
      }
    }
  }
}
