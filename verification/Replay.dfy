/**
 Replay reduces a complete set of operation results into a new immutable
 projection value.
 */
module Replaying {
  import opened Wrappers
  import opened Catalog
  import opened Planner

  datatype ReplayError =
    | InvalidReplayInput
    | MissingReceipt
    | WrongBase
    | InconsistentPlan
    | IncompleteResults
    | InvalidReplayedProjection

  datatype Report = Report(runState: RunState, idempotentNoop: bool, applied: set<Operation>)

  // The replay preflight.

  predicate Has(ops: seq<Operation>, id: ResourceID, kind: OperationKind) {
    exists op | op in ops :: op.kind == kind && op.resource.id == id
  }

  predicate HasTarget(ops: seq<Operation>, id: ResourceID) {
    exists op | op in ops :: op.kind.IsTarget() && op.resource.id == id
  }

  predicate KindsUnique(ops: seq<Operation>) {
    forall i, j | 0 <= i < j < |ops| ::
      ops[i].resource.id == ops[j].resource.id ==> ops[i].kind != ops[j].kind
  }

  predicate TargetsAgree(ops: seq<Operation>) {
    forall i, j | 0 <= i < j < |ops| ::
      ops[i].resource.id == ops[j].resource.id && ops[i].kind.IsTarget() && ops[j].kind.IsTarget()
      ==> ops[i].resource == ops[j].resource
  }

  predicate SameTerminalDefinition(previous: Resource, terminal: Resource) {
    SameDefinition(
      previous.(versions := previous.versions.(source := terminal.versions.source), claimRecord := None),
      terminal)
  }

  predicate IsLive(current: Projection, id: ResourceID) {
    id in current.resources && !current.resources[id].state.IsTerminal()
  }

  /** A group without targets retires a live resource, exactly once. */
  predicate TerminalGroupFits(plan: Plan, current: Projection, op: Operation) {
    && op.kind.IsTerminal()
    && !Has(plan.operations, op.resource.id, if op.kind.Revoke? then Tombstone else Revoke)
    && IsLive(current, op.resource.id)
    && op.resource.state == (if op.kind.Revoke? then StateRevoked else StateTombstoned)
    && SameTerminalDefinition(current.resources[op.resource.id], op.resource)
  }

  /** A group with targets is complete and supersedes exactly when it redefines. */
  predicate TargetGroupFits(plan: Plan, current: Projection, op: Operation) {
    var id := op.resource.id;
    && !op.kind.IsTerminal()
    && (forall kind | kind in TargetKinds :: Has(plan.operations, id, kind))
    && (op.kind.IsTarget() ==> (Redefines(current, op.resource) <==> Has(plan.operations, id, Supersede)))
    && (op.kind.Supersede? ==> id in current.resources && op.resource == Superseded(plan.run, current.resources[id]))
  }

  predicate ReplayablePlan(plan: Plan, current: Projection) {
    && KindsUnique(plan.operations)
    && TargetsAgree(plan.operations)
    && (forall op | op in plan.operations ::
          if HasTarget(plan.operations, op.resource.id)
          then TargetGroupFits(plan, current, op)
          else TerminalGroupFits(plan, current, op))
    && (forall id | id in Live(current) :: exists op | op in plan.operations :: op.resource.id == id)
  }

  // Reduction.

  function ApplyComponent(status: ProjectionStatus, kind: OperationKind, outcome: Outcome): ProjectionStatus {
    var state := if outcome.OperationFailed? then ComponentFailed else ComponentSucceeded;
    match kind
    case ProjectContent => status.(content := state)
    case ProjectACL => status.(acl := state)
    case ProjectIndex => status.(index := state)
    case ProjectGraph => status.(graph := state)
    case ProjectArtifact => status.(artifacts := state)
    case _ => status
  }

  datatype Reduction = Reduction(
    targets: map<ResourceID, Resource>,
    retired: map<ResourceID, Resource>,
    statuses: map<ResourceID, ProjectionStatus>,
    failures: set<ResourceID>)

  const NoReduction := Reduction(map[], map[], map[], {})

  function Step(s: Reduction, op: Operation, outcome: Outcome): Reduction {
    var id := op.resource.id;
    var targets := if op.kind.Stage? then s.targets[id := op.resource] else s.targets;
    var staged := if op.kind.Stage? then s.statuses[id := Pending] else s.statuses;
    var statuses := if id in staged then staged[id := ApplyComponent(staged[id], op.kind, outcome)] else staged;
    var retired :=
      if !op.kind.IsTerminal() then s.retired
      else if outcome.OperationFailed? then s.retired[id := op.resource.(state := StateFailed)]
      else s.retired[id := op.resource];
    Reduction(targets, retired, statuses, if outcome.OperationFailed? then s.failures + {id} else s.failures)
  }

  predicate Covers(outcomes: map<Operation, Outcome>, ops: seq<Operation>) {
    forall op | op in ops :: op in outcomes
  }

  function Reduce(ops: seq<Operation>, outcomes: map<Operation, Outcome>): (s: Reduction)
    requires Covers(outcomes, ops)
    ensures s.statuses.Keys == s.targets.Keys
  {
    if ops == [] then NoReduction
    else
      var last := ops[|ops| - 1];
      Step(Reduce(ops[..|ops| - 1], outcomes), last, outcomes[last])
  }

  predicate AllSucceeded(ops: seq<Operation>, outcomes: map<Operation, Outcome>)
    requires Covers(outcomes, ops)
  {
    forall op | op in ops :: outcomes[op].OperationSucceeded?
  }

  /** How one target ends up, given its status and whether the run failed. */
  function Settle(r: Resource, version: Version, status: ProjectionStatus, runFailed: bool, direct: bool): Resource {
    r.(versions := r.versions.(projection := version),
       status := status,
       state := if !runFailed then StatePublished
                else if status.Failed() || direct then StateFailed
                else StateStaged)
  }

  /** What becomes of one resource of the plan; retirement decides over staging. */
  function SettledAt(s: Reduction, version: Version, failed: bool, id: ResourceID): Resource
    requires s.statuses.Keys == s.targets.Keys && id in s.targets.Keys + s.retired.Keys
  {
    if id in s.retired then s.retired[id].(versions := s.retired[id].versions.(projection := version))
    else Settle(s.targets[id], version, s.statuses[id], failed, id in s.failures)
  }

  function SettledOver(s: Reduction, version: Version, failed: bool, ids: set<ResourceID>)
    : (settled: map<ResourceID, Resource>)
    requires s.statuses.Keys == s.targets.Keys && ids <= s.targets.Keys + s.retired.Keys
    ensures settled.Keys == ids
    ensures forall id | id in ids :: settled[id] == SettledAt(s, version, failed, id)
  {
    if ids == {} then map[]
    else
      var id := Least(ids);
      SettledOver(s, version, failed, ids - {id})[id := SettledAt(s, version, failed, id)]
  }

  /** The resources of the replayed projection. */
  function Settled(s: Reduction, version: Version, failed: bool): map<ResourceID, Resource>
    requires s.statuses.Keys == s.targets.Keys
  {
    SettledOver(s, version, failed, s.targets.Keys + s.retired.Keys)
  }

  function Reduced(plan: Plan, current: Projection, outcomes: map<Operation, Outcome>): Projection
    requires Covers(outcomes, plan.operations)
  {
    var s := Reduce(plan.operations, outcomes);
    var failed := !AllSucceeded(plan.operations, outcomes);
    Projection(
      plan.run.scope, plan.run.version, plan.run.snapshot,
      if failed then StateFailed else StatePublished,
      Settled(s, plan.run.version, failed),
      current.applied + {plan},
      current.receipts + ReceiptsOf(plan, outcomes))
  }

  function IdOf(run: SyncRun, op: Operation): OperationID {
    OperationID(run.id, run.version, op)
  }

  function ReceiptsFor(run: SyncRun, ops: seq<Operation>, outcomes: map<Operation, Outcome>)
    : (receipts: map<OperationID, Receipt>)
    requires Covers(outcomes, ops)
    ensures forall op | op in ops ::
              IdOf(run, op) in receipts && receipts[IdOf(run, op)] == Receipt(run.key, outcomes[op])
    ensures forall id | id in receipts :: id.operation in ops && id == IdOf(run, id.operation)
  {
    if ops == [] then map[]
    else
      var last := ops[|ops| - 1];
      ReceiptsFor(run, ops[..|ops| - 1], outcomes)[IdOf(run, last) := Receipt(run.key, outcomes[last])]
  }

  function ReceiptsOf(plan: Plan, outcomes: map<Operation, Outcome>): map<OperationID, Receipt>
    requires Covers(outcomes, plan.operations)
  {
    ReceiptsFor(plan.run, plan.operations, outcomes)
  }

  function Outcomes(results: seq<OperationResult>): (outcomes: map<Operation, Outcome>)
    ensures forall op :: op in outcomes <==> exists i :: 0 <= i < |results| && results[i].operation == op
  {
    if results == [] then map[]
    else
      var last := results[|results| - 1];
      Outcomes(results[..|results| - 1])[last.operation := last.outcome]
  }

  predicate DistinctResults(results: seq<OperationResult>) {
    forall i, j | 0 <= i < j < |results| :: results[i].operation != results[j].operation
  }

  predicate CompleteResults(plan: Plan, results: seq<OperationResult>) {
    && DistinctResults(results)
    && |results| == |plan.operations|
    && Covers(Outcomes(results), plan.operations)
  }

  /** The run state recorded in a projection that already lists the plan. */
  function AppliedRunState(current: Projection, plan: Plan): Result<RunState, ReplayError> {
    if forall op | op in plan.operations ::
        IdOf(plan.run, op) in current.receipts && current.receipts[IdOf(plan.run, op)].runKey == plan.run.key
    then
      if exists op | op in plan.operations :: current.receipts[IdOf(plan.run, op)].outcome.OperationFailed?
      then Ok(RunFailed)
      else Ok(RunSucceeded)
    else Err(MissingReceipt)
  }

  function Replay(plan: Plan, current: Projection, results: seq<OperationResult>)
    : Result<(Projection, Report), ReplayError>
  {
    if !ValidPlan(plan) || !ValidProjection(current) then Err(InvalidReplayInput)
    else if plan in current.applied then
      match AppliedRunState(current, plan)
      case Err(e) => Err(e)
      case Ok(state) => Ok((current, Report(state, true, {})))
    else if !current.state.StatePublished? || current.scope != plan.run.scope || current.version != plan.run.base then
      Err(WrongBase)
    else if !ReplayablePlan(plan, current) then Err(InconsistentPlan)
    else if !CompleteResults(plan, results) then Err(IncompleteResults)
    else
      var outcomes := Outcomes(results);
      var projection := Reduced(plan, current, outcomes);
      if !ValidProjection(projection) then Err(InvalidReplayedProjection)
      else
        Ok((projection,
            Report(if AllSucceeded(plan.operations, outcomes) then RunSucceeded else RunFailed,
                   false, set op | op in plan.operations)))
  }

  function SuccessfulResults(plan: Plan): seq<OperationResult> {
    seq(|plan.operations|, i requires 0 <= i < |plan.operations| =>
      OperationResult(plan.operations[i], OperationSucceeded))
  }

  lemma OutcomesExtend(results: seq<OperationResult>, i: nat)
    requires i < |results|
    ensures Outcomes(results[..i + 1]) == Outcomes(results[..i])[results[i].operation := results[i].outcome]
  {
    assert results[..i + 1][..i] == results[..i];
  }

  lemma Repeated(results: seq<OperationResult>, i: nat)
    requires i < |results|
    ensures results[i].operation in Outcomes(results[..i]) ==> !DistinctResults(results)
    ensures results[i].operation !in Outcomes(results[..i]) && DistinctResults(results[..i]) ==>
              DistinctResults(results[..i + 1])
  {
    if results[i].operation in Outcomes(results[..i]) {
      var j :| 0 <= j < i && results[..i][j].operation == results[i].operation;
      assert results[j].operation == results[i].operation;
    } else {
      forall j | 0 <= j < i ensures results[j].operation != results[i].operation {
        assert results[..i][j] == results[j];
      }
    }
  }

  /** Indexes the results by operation, rejecting a repeated one. */
  method IndexResults(results: seq<OperationResult>) returns (indexed: Option<map<Operation, Outcome>>)
    ensures indexed.Some? <==> DistinctResults(results)
    ensures indexed.Some? ==> indexed.value == Outcomes(results) && |indexed.value| == |results|
  {
    var byOperation: map<Operation, Outcome> := map[];
    for i := 0 to |results|
      invariant byOperation == Outcomes(results[..i]) && |byOperation| == i
      invariant DistinctResults(results[..i])
    {
      Repeated(results, i);
      if results[i].operation in byOperation {
        return None;
      }
      OutcomesExtend(results, i);
      byOperation := byOperation[results[i].operation := results[i].outcome];
    }
    assert results[..|results|] == results;
    return Some(byOperation);
  }

  lemma ReceiptsExtend(run: SyncRun, ops: seq<Operation>, last: Operation, outcomes: map<Operation, Outcome>)
    requires Covers(outcomes, ops) && last in outcomes
    ensures Covers(outcomes, ops + [last])
    ensures ReceiptsOf(Plan(run, ops + [last]), outcomes)
         == ReceiptsOf(Plan(run, ops), outcomes)[IdOf(run, last) := Receipt(run.key, outcomes[last])]
  {
    assert (ops + [last])[..|ops|] == ops;
  }

  lemma ReduceExtend(ops: seq<Operation>, last: Operation, outcomes: map<Operation, Outcome>)
    requires Covers(outcomes, ops) && last in outcomes
    ensures Covers(outcomes, ops + [last])
    ensures Reduce(ops + [last], outcomes) == Step(Reduce(ops, outcomes), last, outcomes[last])
    ensures AllSucceeded(ops + [last], outcomes) <==>
              AllSucceeded(ops, outcomes) && outcomes[last].OperationSucceeded?
  {
    assert (ops + [last])[..|ops|] == ops;
  }

  /** One pass over the operations: their reduction, receipts and overall outcome. */
  method ReduceOperations(plan: Plan, outcomes: map<Operation, Outcome>)
    returns (reduction: Reduction, receipts: map<OperationID, Receipt>, runFailed: bool, missing: bool)
    ensures missing <==> !Covers(outcomes, plan.operations)
    ensures !missing ==>
              && reduction == Reduce(plan.operations, outcomes)
              && receipts == ReceiptsOf(plan, outcomes)
              && (runFailed <==> !AllSucceeded(plan.operations, outcomes))
  {
    reduction, receipts, runFailed, missing := NoReduction, map[], false, false;
    for i := 0 to |plan.operations|
      invariant Covers(outcomes, plan.operations[..i])
      invariant reduction == Reduce(plan.operations[..i], outcomes)
      invariant receipts == ReceiptsOf(Plan(plan.run, plan.operations[..i]), outcomes)
      invariant runFailed <==> !AllSucceeded(plan.operations[..i], outcomes)
    {
      var op := plan.operations[i];
      if op !in outcomes {
        missing := true;
        return;
      }
      assert plan.operations[..i + 1] == plan.operations[..i] + [op];
      ReduceExtend(plan.operations[..i], op, outcomes);
      ReceiptsExtend(plan.run, plan.operations[..i], op, outcomes);
      reduction := Step(reduction, op, outcomes[op]);
      receipts := receipts[IdOf(plan.run, op) := Receipt(plan.run.key, outcomes[op])];
      runFailed := runFailed || outcomes[op].OperationFailed?;
    }
    assert plan.operations[..|plan.operations|] == plan.operations;
  }

  method ReplayResults(plan: Plan, current: Projection, results: seq<OperationResult>)
    returns (replayed: Result<(Projection, Report), ReplayError>)
    ensures replayed == Replay(plan, current, results)
  {
    if !ValidPlan(plan) || !ValidProjection(current) {
      return Err(InvalidReplayInput);
    }
    if plan in current.applied {
      match AppliedRunState(current, plan)
      case Err(e) => return Err(e);
      case Ok(state) => return Ok((current, Report(state, true, {})));
    }
    if !current.state.StatePublished? || current.scope != plan.run.scope || current.version != plan.run.base {
      return Err(WrongBase);
    }
    if !ReplayablePlan(plan, current) {
      return Err(InconsistentPlan);
    }
    var indexed := IndexResults(results);
    if indexed.None? || |indexed.value| != |plan.operations| {
      return Err(IncompleteResults);
    }
    var reduction, receipts, runFailed, missing := ReduceOperations(plan, indexed.value);
    if missing {
      return Err(IncompleteResults);
    }
    var projection := Projection(
      plan.run.scope, plan.run.version, plan.run.snapshot,
      if runFailed then StateFailed else StatePublished,
      Settled(reduction, plan.run.version, runFailed),
      current.applied + {plan},
      current.receipts + receipts);
    if !ValidProjection(projection) {
      return Err(InvalidReplayedProjection);
    }
    return Ok((projection, Report(if runFailed then RunFailed else RunSucceeded, false,
                                  set op | op in plan.operations)));
  }
}
