/**
 Full reconciliation planning: from a published base and the desired resources
 to a canonical operation list.
 */
module Planner {
  import opened Wrappers
  import opened Catalog

  datatype PlanError =
    | InvalidRun
    | InvalidBase
    | BaseMismatch
    | InvalidDesired
    | ChunkBoundary
    | InvalidReplacement
    | InvalidPlan
    | UnknownResource
    | NoServingSupport

  /** A desired resource as the plan stages it. */
  function Target(run: SyncRun, r: Resource): Resource {
    r.(versions := r.versions.(projection := run.version), state := StateStaged, status := Pending)
  }

  predicate Acceptable(run: SyncRun, r: Resource) {
    && r.scope == run.scope
    && r.domain == run.snapshot.domain
    && r.versions.source == run.snapshot.version
    && (r.versions.projection == 0 || r.versions.projection == run.version)
    && (r.kind.DerivedArtifact? ==> r.deps != {} && r.security.Some?)
    && ValidResource(Target(run, r))
  }

  predicate DistinctIDs(resources: seq<Resource>) {
    forall i, j | 0 <= i < j < |resources| :: resources[i].id != resources[j].id
  }

  function TargetMap(run: SyncRun, desired: seq<Resource>): (targets: map<ResourceID, Resource>)
    ensures forall id :: id in targets <==> exists i :: 0 <= i < |desired| && desired[i].id == id
  {
    if desired == [] then map[]
    else
      var last := desired[|desired| - 1];
      TargetMap(run, desired[..|desired| - 1])[last.id := Target(run, last)]
  }

  /** What becomes of a live resource the desired set no longer holds. */
  function Retired(run: SyncRun, r: Resource, stale: OperationKind): Resource {
    r.(versions := r.versions.(source := run.snapshot.version, projection := run.version),
       claimRecord := None,
       security := None,
       state := if stale.Revoke? then StateRevoked else StateTombstoned)
  }

  function Superseded(run: SyncRun, r: Resource): Resource {
    r.(versions := r.versions.(source := run.snapshot.version, projection := run.version),
       claimRecord := None,
       security := None,
       state := StateSuperseded)
  }

  predicate ChunkBoundaries(targets: map<ResourceID, Resource>) {
    forall id | id in targets && targets[id].kind.Chunk? ::
      var chunk := targets[id];
      && chunk.authzResource in targets
      && targets[chunk.authzResource].kind.Document?
      && InheritsBoundary(chunk, targets[chunk.authzResource])
  }

  /** Live resources of the base the plan has to retire. */
  function StaleIDs(current: Projection, targets: map<ResourceID, Resource>): set<ResourceID> {
    Live(current) - targets.Keys
  }

  function Published(r: Resource): Resource {
    r.(state := StatePublished, status := Succeeded)
  }

  /** What becomes of one resource when every operation succeeds. */
  function ReplacedAt(
    run: SyncRun, current: Projection, targets: map<ResourceID, Resource>, stale: OperationKind, id: ResourceID)
    : Resource
    requires id in targets.Keys + StaleIDs(current, targets)
  {
    if id in targets then Published(targets[id]) else Retired(run, current.resources[id], stale)
  }

  function ReplacedOver(
    run: SyncRun, current: Projection, targets: map<ResourceID, Resource>, stale: OperationKind, ids: set<ResourceID>)
    : (resources: map<ResourceID, Resource>)
    requires ids <= targets.Keys + StaleIDs(current, targets)
    ensures resources.Keys == ids
    ensures forall id | id in ids :: resources[id] == ReplacedAt(run, current, targets, stale, id)
  {
    if ids == {} then map[]
    else
      var id := Least(ids);
      ReplacedOver(run, current, targets, stale, ids - {id})[id := ReplacedAt(run, current, targets, stale, id)]
  }

  /** The projection the plan leads to when every operation succeeds. */
  function Replacement(run: SyncRun, current: Projection, targets: map<ResourceID, Resource>, stale: OperationKind)
    : Projection
  {
    Projection(
      run.scope, run.version, run.snapshot, StatePublished,
      ReplacedOver(run, current, targets, stale, targets.Keys + StaleIDs(current, targets)),
      {}, map[])
  }

  const TargetKinds: seq<OperationKind> :=
    [Stage, ProjectContent, ProjectACL, ProjectIndex, ProjectGraph, ProjectArtifact, Publish]

  predicate Redefines(current: Projection, target: Resource) {
    target.id in current.resources && !SameDefinition(current.resources[target.id], target)
  }

  function ComponentOperations(target: Resource): set<Operation> {
    set kind | kind in TargetKinds :: Operation(kind, target)
  }

  function SupersedeOperations(run: SyncRun, current: Projection, target: Resource): set<Operation> {
    if Redefines(current, target) then
      {Operation(Supersede, Superseded(run, current.resources[target.id]))}
    else
      {}
  }

  /** The operations planned for one target. */
  function TargetOperations(run: SyncRun, current: Projection, target: Resource): set<Operation> {
    ComponentOperations(target) + SupersedeOperations(run, current, target)
  }

  function AllTargetOperations(run: SyncRun, current: Projection, targets: map<ResourceID, Resource>)
    : set<Operation>
  {
    set id, op | id in targets && op in TargetOperations(run, current, targets[id]) :: op
  }

  function RetireOperation(run: SyncRun, current: Projection, stale: OperationKind, id: ResourceID): Operation
    requires id in current.resources
  {
    Operation(stale, Retired(run, current.resources[id], stale))
  }

  function RetireOperations(
    run: SyncRun, current: Projection, targets: map<ResourceID, Resource>, stale: OperationKind): set<Operation>
  {
    set id | id in StaleIDs(current, targets) :: RetireOperation(run, current, stale, id)
  }

  function PlannedOperations(
    run: SyncRun, current: Projection, targets: map<ResourceID, Resource>, stale: OperationKind): set<Operation>
  {
    AllTargetOperations(run, current, targets) + RetireOperations(run, current, targets, stale)
  }

  predicate Plannable(run: SyncRun, current: Projection, desired: seq<Resource>, stale: OperationKind) {
    && ValidRun(run)
    && run.state.RunStaged?
    && ValidProjection(current)
    && current.state.StatePublished?
    && current.scope == run.scope
    && current.version == run.base
    && current.snapshot.domain == run.snapshot.domain
    && (forall r | r in desired :: Acceptable(run, r))
    && DistinctIDs(desired)
    && ChunkBoundaries(TargetMap(run, desired))
    && ValidProjection(Replacement(run, current, TargetMap(run, desired), stale))
  }

  /** `plan` is the canonical plan that takes `current` to the desired resources. */
  predicate IsPlanFor(
    plan: Plan, run: SyncRun, current: Projection, targets: map<ResourceID, Resource>, stale: OperationKind)
  {
    && plan.run == run
    && ValidPlan(plan)
    && (set op | op in plan.operations) == PlannedOperations(run, current, targets, stale)
  }

  // Sorting.

  function Insert(op: Operation, sorted: seq<Operation>): (r: seq<Operation>)
    ensures forall x :: x in r <==> x == op || x in sorted
    ensures Canonical(sorted) ==> Canonical(r)
    ensures Distinct(sorted) && op !in sorted ==> Distinct(r)
  {
    if sorted == [] then [op]
    else if !OperationLess(sorted[0], op) then
      [op] + sorted
    else
      var rest := Insert(op, sorted[1..]);
      InsertBehind(op, sorted, rest);
      [sorted[0]] + rest
  }

  lemma InsertBehind(op: Operation, sorted: seq<Operation>, rest: seq<Operation>)
    requires sorted != [] && OperationLess(sorted[0], op)
    requires forall x :: x in rest <==> x == op || x in sorted[1..]
    requires Canonical(sorted) ==> Canonical(rest)
    requires Distinct(sorted) && op !in sorted ==> Distinct(rest)
    ensures forall x :: x in [sorted[0]] + rest <==> x == op || x in sorted
    ensures Canonical(sorted) ==> Canonical([sorted[0]] + rest)
    ensures Distinct(sorted) && op !in sorted ==> Distinct([sorted[0]] + rest)
  {
    assert sorted == [sorted[0]] + sorted[1..];
    if Canonical(sorted) {
      forall i | 0 <= i < |rest| ensures !OperationLess(rest[i], sorted[0]) {
        assert rest[i] in rest;
      }
    }
    if Distinct(sorted) && op !in sorted {
      assert sorted[0] !in rest;
    }
  }

  /** Canonical order of a list of operations. */
  function Sort(ops: seq<Operation>): (r: seq<Operation>)
    ensures forall x :: x in r <==> x in ops
    ensures Canonical(r)
    ensures Distinct(ops) ==> Distinct(r)
  {
    if ops == [] then []
    else
      assert ops == [ops[0]] + ops[1..];
      Insert(ops[0], Sort(ops[1..]))
  }

  // Planning.

  lemma TargetMapExtend(run: SyncRun, desired: seq<Resource>, i: nat)
    requires i < |desired|
    ensures TargetMap(run, desired[..i + 1]) == TargetMap(run, desired[..i])[desired[i].id := Target(run, desired[i])]
  {
    assert desired[..i + 1][..i] == desired[..i];
  }

  /** With distinct IDs every desired resource is its own target. */
  lemma {:induction false} TargetMapAt(run: SyncRun, desired: seq<Resource>, i: nat)
    requires i < |desired| && DistinctIDs(desired)
    ensures desired[i].id in TargetMap(run, desired)
    ensures TargetMap(run, desired)[desired[i].id] == Target(run, desired[i])
  {
    if i < |desired| - 1 {
      TargetMapAt(run, desired[..|desired| - 1], i);
    }
  }

  lemma TargetsKeyed(run: SyncRun, desired: seq<Resource>, id: ResourceID)
    requires DistinctIDs(desired) && id in TargetMap(run, desired)
    ensures exists i :: 0 <= i < |desired| && desired[i].id == id && TargetMap(run, desired)[id] == Target(run, desired[i])
  {
    var i :| 0 <= i < |desired| && desired[i].id == id;
    TargetMapAt(run, desired, i);
  }

  lemma TargetValid(run: SyncRun, r: Resource, kind: OperationKind)
    requires Acceptable(run, r) && kind in TargetKinds
    ensures ValidOperation(Operation(kind, Target(run, r)), run)
  {
  }

  /** Rebinding a resource of the base to the run keeps it a valid resource. */
  lemma ReboundValid(run: SyncRun, current: Projection, id: ResourceID, kind: OperationKind)
    requires ValidRun(run) && ValidProjection(current)
    requires current.scope == run.scope && current.snapshot.domain == run.snapshot.domain
    requires id in current.resources
    ensures ValidOperation(Operation(Supersede, Superseded(run, current.resources[id])), run)
    ensures kind.IsTerminal() ==> ValidOperation(Operation(kind, Retired(run, current.resources[id], kind)), run)
  {
    assert ResourceFits(current, id);
  }

  lemma PlannedTargetValid(run: SyncRun, current: Projection, desired: seq<Resource>, op: Operation)
    requires ValidRun(run) && ValidProjection(current)
    requires current.scope == run.scope && current.snapshot.domain == run.snapshot.domain
    requires DistinctIDs(desired) && forall r | r in desired :: Acceptable(run, r)
    requires op in AllTargetOperations(run, current, TargetMap(run, desired))
    ensures ValidOperation(op, run)
  {
    var targets := TargetMap(run, desired);
    var id :| id in targets && op in TargetOperations(run, current, targets[id]);
    TargetsKeyed(run, desired, id);
    var i :| 0 <= i < |desired| && desired[i].id == id && targets[id] == Target(run, desired[i]);
    assert desired[i] in desired;
    if op in ComponentOperations(targets[id]) {
      var kind :| kind in TargetKinds && op == Operation(kind, targets[id]);
      TargetValid(run, desired[i], kind);
    } else {
      assert op in SupersedeOperations(run, current, targets[id]);
      ReboundValid(run, current, targets[id].id, Supersede);
    }
  }

  /** Every planned operation is bound to its run: plan validation never rejects. */
  lemma PlannedValid(
    run: SyncRun, current: Projection, desired: seq<Resource>, stale: OperationKind, op: Operation)
    requires Plannable(run, current, desired, stale)
    requires stale.IsTerminal()
    requires op in PlannedOperations(run, current, TargetMap(run, desired), stale)
    ensures ValidOperation(op, run)
  {
    var targets := TargetMap(run, desired);
    if op in AllTargetOperations(run, current, targets) {
      PlannedTargetValid(run, current, desired, op);
    } else {
      assert op in RetireOperations(run, current, targets, stale);
      var id :| id in StaleIDs(current, targets) && op == RetireOperation(run, current, stale, id);
      ReboundValid(run, current, id, stale);
    }
  }

  predicate Keyed(current: Projection) {
    forall id | id in current.resources :: current.resources[id].id == id
  }

  /** Appends one target's operations in rank order. */
  method PlanTarget(run: SyncRun, current: Projection, target: Resource) returns (ops: seq<Operation>)
    requires Keyed(current)
    ensures (set op | op in ops) == TargetOperations(run, current, target)
    ensures Distinct(ops)
    ensures forall op | op in ops :: op.resource.id == target.id
  {
    ops := [];
    if Redefines(current, target) {
      ops := [Operation(Supersede, Superseded(run, current.resources[target.id]))];
    }
    ghost var head := ops;
    for i := 0 to |TargetKinds|
      invariant |ops| == |head| + i && ops[..|head|] == head
      invariant forall j | 0 <= j < i :: ops[|head| + j] == Operation(TargetKinds[j], target)
    {
      ops := ops + [Operation(TargetKinds[i], target)];
    }
    var planned := TargetOperations(run, current, target);
    forall op | op in planned ensures op in ops {
      if op in head {
        assert op == ops[0];
      } else {
        var kind :| kind in TargetKinds && op == Operation(kind, target);
        var j :| 0 <= j < |TargetKinds| && TargetKinds[j] == kind;
        assert ops[|head| + j] == op;
      }
    }
    forall op | op in ops ensures op in planned {
      var k :| 0 <= k < |ops| && ops[k] == op;
      if k >= |head| {
        assert ops[|head| + (k - |head|)] == Operation(TargetKinds[k - |head|], target);
      }
    }
    forall j, k | 0 <= j < k < |ops| ensures ops[j] != ops[k] {
      assert ops[k] == Operation(TargetKinds[k - |head|], target);
      if j >= |head| {
        assert ops[|head| + (j - |head|)] == Operation(TargetKinds[j - |head|], target);
      }
    }
  }

  /** A target is staged once: its id is new exactly when the list stays without repetition. */
  lemma StagedOnce(run: SyncRun, desired: seq<Resource>, i: nat)
    requires i < |desired| && DistinctIDs(desired[..i])
    ensures desired[i].id in TargetMap(run, desired[..i]) ==> !DistinctIDs(desired)
    ensures desired[i].id !in TargetMap(run, desired[..i]) ==> DistinctIDs(desired[..i + 1])
  {
    hide Target;
    if desired[i].id in TargetMap(run, desired[..i]) {
      var j :| 0 <= j < i && desired[..i][j].id == desired[i].id;
      assert desired[j].id == desired[i].id;
    } else {
      forall j | 0 <= j < i ensures desired[j].id != desired[i].id {
        assert desired[..i][j].id in TargetMap(run, desired[..i]);
      }
    }
  }

  /** Validates the desired resources and indexes their staged form. */
  method StageTargets(run: SyncRun, desired: seq<Resource>) returns (targets: Option<map<ResourceID, Resource>>)
    ensures targets.Some? <==> DistinctIDs(desired) && forall r | r in desired :: Acceptable(run, r)
    ensures targets.Some? ==> targets.value == TargetMap(run, desired)
  {
    assert desired[..0] == [] && DistinctIDs([]);
    hide Acceptable, Target, DistinctIDs;
    var staged: map<ResourceID, Resource> := map[];
    for i := 0 to |desired|
      invariant staged == TargetMap(run, desired[..i])
      invariant forall j | 0 <= j < i :: Acceptable(run, desired[j])
      invariant DistinctIDs(desired[..i])
    {
      var r := desired[i];
      if !Acceptable(run, r) {
        return None;
      }
      StagedOnce(run, desired, i);
      if r.id in staged {
        return None;
      }
      TargetMapExtend(run, desired, i);
      staged := staged[r.id := Target(run, r)];
    }
    assert desired[..|desired|] == desired;
    return Some(staged);
  }

  lemma AssembledPlan(
    run: SyncRun, current: Projection, desired: seq<Resource>, stale: OperationKind, ops: seq<Operation>)
    requires Plannable(run, current, desired, stale) && stale.IsTerminal()
    requires (set op | op in ops) == PlannedOperations(run, current, TargetMap(run, desired), stale)
    requires Distinct(ops)
    ensures IsPlanFor(Plan(run, Sort(ops)), run, current, TargetMap(run, desired), stale)
  {
    var planned := PlannedOperations(run, current, TargetMap(run, desired), stale);
    var sorted := Sort(ops);
    forall op | op in sorted ensures ValidOperation(op, run) {
      assert op in planned;
      PlannedValid(run, current, desired, stale, op);
    }
    assert (set op | op in sorted) == (set op | op in ops);
  }

  method PlanResources(run: SyncRun, current: Projection, desired: seq<Resource>, stale: OperationKind)
    returns (result: Result<Plan, PlanError>)
    requires stale.IsTerminal()
    ensures result.Ok? <==> Plannable(run, current, desired, stale)
    ensures result.Err? ==> !result.error.NoServingSupport?
    ensures result.Ok? ==> IsPlanFor(result.value, run, current, TargetMap(run, desired), stale)
  {
    if !ValidRun(run) || !run.state.RunStaged? {
      return Err(InvalidRun);
    }
    if !ValidProjection(current) || !current.state.StatePublished? {
      return Err(InvalidBase);
    }
    if current.scope != run.scope || current.version != run.base || current.snapshot.domain != run.snapshot.domain {
      return Err(BaseMismatch);
    }
    var staged := StageTargets(run, desired);
    if staged.None? {
      return Err(InvalidDesired);
    }
    var targets := staged.value;
    if !ChunkBoundaries(targets) {
      return Err(ChunkBoundary);
    }
    if !ValidProjection(Replacement(run, current, targets, stale)) {
      return Err(InvalidReplacement);
    }
    forall id | id in current.resources ensures current.resources[id].id == id {
      assert ResourceFits(current, id);
    }
    var ops := CollectOperations(run, current, desired, targets, stale);
    var plan := Plan(run, Sort(ops));
    AssembledPlan(run, current, desired, stale, ops);
    if !ValidPlan(plan) {
      return Err(InvalidPlan);
    }
    return Ok(plan);
  }

  /** Two lists without repetition that share no resource make one. */
  lemma ApartDistinct(ops: seq<Operation>, added: seq<Operation>)
    requires Distinct(ops) && Distinct(added)
    requires forall op, more | op in ops && more in added :: op.resource.id != more.resource.id
    ensures Distinct(ops + added)
  {
    var all := ops + added;
    forall i, j | 0 <= i < j < |all| ensures all[i] != all[j] {
      if i < |ops| <= j {
        assert all[i] in ops && all[j] in added;
      }
    }
  }

  /** The list holds the operations of the first i desired resources, each of them once. */
  ghost predicate TargetsCollected(
    run: SyncRun, current: Projection, desired: seq<Resource>, targets: map<ResourceID, Resource>, i: nat,
    ops: seq<Operation>)
    requires i <= |desired| && forall j | 0 <= j < |desired| :: desired[j].id in targets
  {
    && (forall j, op | 0 <= j < i && op in TargetOperations(run, current, targets[desired[j].id]) :: op in ops)
    && (forall op | op in ops ::
          exists j :: 0 <= j < i && desired[j].id == op.resource.id
                      && op in TargetOperations(run, current, targets[desired[j].id]))
    && Distinct(ops)
  }

  lemma CollectTarget(
    run: SyncRun, current: Projection, desired: seq<Resource>, targets: map<ResourceID, Resource>, i: nat,
    ops: seq<Operation>, added: seq<Operation>)
    requires i < |desired| && DistinctIDs(desired) && forall j | 0 <= j < |desired| :: desired[j].id in targets
    requires TargetsCollected(run, current, desired, targets, i, ops)
    requires (set op | op in added) == TargetOperations(run, current, targets[desired[i].id]) && Distinct(added)
    requires forall op | op in added :: op.resource.id == desired[i].id
    ensures TargetsCollected(run, current, desired, targets, i + 1, ops + added)
  {
    hide TargetOperations, Distinct;
    forall j, op | 0 <= j < i + 1 && op in TargetOperations(run, current, targets[desired[j].id])
      ensures op in ops + added
    {
      if j == i {
        assert op in (set more | more in added);
      }
    }
    forall op | op in ops + added
      ensures exists j :: 0 <= j < i + 1 && desired[j].id == op.resource.id
                          && op in TargetOperations(run, current, targets[desired[j].id])
    {
      if op in added {
        assert op in (set more | more in added);
        assert desired[i].id == op.resource.id;
      }
    }
    ApartDistinct(ops, added);
  }

  /** The operations that stage, publish and project the desired resources. */
  method CollectTargetOperations(
    run: SyncRun, current: Projection, desired: seq<Resource>, targets: map<ResourceID, Resource>)
    returns (ops: seq<Operation>)
    requires Keyed(current)
    requires DistinctIDs(desired) && targets == TargetMap(run, desired)
    ensures (set op | op in ops) == AllTargetOperations(run, current, targets)
    ensures forall op | op in ops :: op.resource.id in targets
    ensures Distinct(ops)
  {
    ops := [];
    for i := 0 to |desired|
      invariant TargetsCollected(run, current, desired, targets, i, ops)
    {
      TargetMapAt(run, desired, i);
      var added := PlanTarget(run, current, targets[desired[i].id]);
      CollectTarget(run, current, desired, targets, i, ops, added);
      ops := ops + added;
    }
    CollectedTargets(run, current, desired, targets, ops);
  }

  /** The operation list before sorting: targets first, then retirements. */
  method CollectOperations(
    run: SyncRun, current: Projection, desired: seq<Resource>, targets: map<ResourceID, Resource>,
    stale: OperationKind)
    returns (ops: seq<Operation>)
    requires stale.IsTerminal()
    requires Keyed(current)
    requires DistinctIDs(desired) && targets == TargetMap(run, desired)
    ensures (set op | op in ops) == PlannedOperations(run, current, targets, stale)
    ensures Distinct(ops)
  {
    var staged := CollectTargetOperations(run, current, desired, targets);
    var retired := CollectRetirements(run, current, targets, stale);
    ApartDistinct(staged, retired);
    ops := staged + retired;
  }

  method CollectRetirements(
    run: SyncRun, current: Projection, targets: map<ResourceID, Resource>, stale: OperationKind)
    returns (ops: seq<Operation>)
    requires stale.IsTerminal()
    requires Keyed(current)
    ensures (set op | op in ops) == RetireOperations(run, current, targets, stale)
    ensures forall op | op in ops :: op.resource.id !in targets
    ensures Distinct(ops)
  {
    ops := [];
    var rest := StaleIDs(current, targets);
    while rest != {}
      invariant rest <= StaleIDs(current, targets)
      invariant forall op | op in ops ::
                  && op.resource.id in StaleIDs(current, targets) - rest
                  && op == RetireOperation(run, current, stale, op.resource.id)
      invariant forall id | id in StaleIDs(current, targets) - rest :: RetireOperation(run, current, stale, id) in ops
      invariant Distinct(ops)
    {
      var id :| id in rest;
      rest := rest - {id};
      ops := ops + [RetireOperation(run, current, stale, id)];
    }
  }

  lemma CollectedTargets(
    run: SyncRun, current: Projection, desired: seq<Resource>, targets: map<ResourceID, Resource>, ops: seq<Operation>)
    requires targets == TargetMap(run, desired)
    requires TargetsCollected(run, current, desired, targets, |desired|, ops)
    ensures (set op | op in ops) == AllTargetOperations(run, current, targets)
    ensures forall op | op in ops :: op.resource.id in targets
  {
    hide TargetOperations, Target;
    forall op | op in AllTargetOperations(run, current, targets) ensures op in ops {
      var id :| id in targets && op in TargetOperations(run, current, targets[id]);
      var j :| 0 <= j < |desired| && desired[j].id == id;
    }
    forall op | op in ops ensures op.resource.id in targets && op in AllTargetOperations(run, current, targets) {
      var j :| 0 <= j < |desired| && desired[j].id == op.resource.id
               && op in TargetOperations(run, current, targets[desired[j].id]);
    }
  }
}
