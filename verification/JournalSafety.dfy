/**
 Crash safety and executor discipline. Every action of every store operation is
 guarded, guarded actions keep the journal invariant, and so every history of
 operations, each cut after any prefix of its actions, keeps it too.
 */
module JournalSafety {
  import opened Wrappers
  import opened Catalog
  import opened Replaying
  import opened PlanReplay
  import opened Journal

  // The invariant.

  /** `p` is what the plan's receipts, all successful, reduce its base to. */
  predicate Candidate(d: Disk, plan: Plan, p: Projection) {
    && plan.run.base in d.projections
    && plan !in d.projections[plan.run.base].applied
    && AllReceiptsSucceeded(d, plan)
    && Complete(d, plan)
    && Replay(plan, d.projections[plan.run.base], ResultsOf(d, plan)).Ok?
    && Replay(plan, d.projections[plan.run.base], ResultsOf(d, plan)).value.0 == p
  }

  predicate PlansOk(d: Disk) {
    forall id | id in d.plans :: d.plans[id].run.id == id && ValidPlan(d.plans[id])
  }

  predicate RunsOk(d: Disk) {
    forall id | id in d.runs ::
      && id in d.plans
      && SameIdentity(d.runs[id], d.plans[id].run)
      && (d.runs[id].state.IsTerminal() ==> id in d.verdicts)
  }

  predicate ResultsOk(d: Disk) {
    forall key | key in d.results :: key.run in d.plans && key.operation in d.plans[key.run].operations
  }

  /** No persisted projection lists a plan based on its own version. */
  predicate ProjectionsOk(d: Disk) {
    forall version | version in d.projections ::
      var p := d.projections[version];
      && p.version == version
      && ValidProjection(p)
      && p.state.StatePublished?
      && (forall plan | plan in p.applied :: plan.run.base != version)
  }

  predicate OwnerOk(d: Disk, pointer: Pointer, owner: Owner)
    requires pointer.version in d.projections
  {
    && owner.run in d.plans
    && owner.run in d.runs
    && d.plans[owner.run] == owner.plan
    && owner.plan.run.version == pointer.version
    && !d.runs[owner.run].state.RunFailed?
    && Candidate(d, owner.plan, d.projections[pointer.version])
    && (d.runs[owner.run].state.RunSucceeded? ==>
          owner.run in d.verdicts && d.verdicts[owner.run] == d.projections[pointer.version])
  }

  /** Every ancestor of the serving version stays persisted. */
  predicate AncestorsPersisted(d: Disk, p: Projection) {
    forall plan | plan in p.applied :: plan.run.base in d.projections
  }

  predicate PointerOk(d: Disk) {
    d.pointer.Some? ==>
      var pointer := d.pointer.value;
      && pointer.version in d.projections
      && pointer == Named(d.projections[pointer.version], pointer.owner)
      && AncestorsPersisted(d, d.projections[pointer.version])
      && (pointer.owner.Some? ==> OwnerOk(d, pointer, pointer.owner.value))
  }

  predicate Inv(d: Disk) {
    PlansOk(d) && RunsOk(d) && ResultsOk(d) && ProjectionsOk(d) && PointerOk(d)
  }

  // The guards.

  predicate Owns(d: Disk, id: RunID) {
    d.pointer.Some? && d.pointer.value.owner.Some? && d.pointer.value.owner.value.run == id
  }

  predicate Unfinished(d: Disk, id: RunID) {
    id in d.runs && !d.runs[id].state.IsTerminal()
  }

  /** A run that owns the pointer has to be finished before the pointer moves on. */
  predicate OwnerSettled(d: Disk) {
    d.pointer.Some? && d.pointer.value.owner.Some? ==> !Unfinished(d, d.pointer.value.owner.value.run)
  }

  /** The verdict of a run that does not get to serve. */
  predicate StaleVerdictOf(d: Disk, plan: Plan, verdict: Projection) {
    && plan.run.base in d.projections
    && Complete(d, plan)
    && StaleVerdict(plan, d.projections[plan.run.base], ResultsOf(d, plan)) == Ok(verdict)
  }

  predicate RunMayBecome(d: Disk, id: RunID, state: RunState) {
    match state
    case RunStaged => id !in d.runs
    case RunRunning => Unfinished(d, id)
    case RunSucceeded =>
      && Unfinished(d, id)
      && Owns(d, id)
      && id in d.verdicts
      && d.pointer.value.version in d.projections
      && d.verdicts[id] == d.projections[d.pointer.value.version]
    case RunFailed => Unfinished(d, id) && !Owns(d, id) && id in d.verdicts
  }

  predicate PointerMayBecome(d: Disk, next: Pointer) {
    && next.version in d.projections
    && next == Named(d.projections[next.version], next.owner)
    && match (d.pointer, next.owner)
       case (None, None) => d.projections[next.version].applied == {}
       case (None, Some(_)) => false
       case (Some(pointer), None) =>
         pointer.owner.Some? && next.version == pointer.owner.value.plan.run.base
       case (Some(pointer), Some(Owner(id, plan))) =>
         && plan.run.base == pointer.version
         && plan.run.version == next.version
         && id in d.plans && d.plans[id] == plan
         && Unfinished(d, id)
         && OwnerSettled(d)
         && Candidate(d, plan, d.projections[next.version])
  }

  predicate MayAppear(d: Disk, p: Projection) {
    if d.pointer.None? then p.applied == {}
    else exists id | id in d.plans :: d.plans[id].run.base == d.pointer.value.version && Candidate(d, d.plans[id], p)
  }

  predicate Allowed(d: Disk, a: Action) {
    match a
    case PutPlan(plan) => plan.run.id !in d.plans && ValidPlan(plan)
    case PutRun(run) =>
      run.id in d.plans && SameIdentity(run, d.plans[run.id].run) && RunMayBecome(d, run.id, run.state)
    case PutResult(key, _) =>
      key.run in d.plans && key.operation in d.plans[key.run].operations && key !in d.results
    case PutVerdict(owner, verdict) =>
      && Unfinished(d, owner)
      && owner !in d.verdicts
      && owner in d.plans
      && (Owns(d, owner) || StaleVerdictOf(d, d.plans[owner], verdict))
    case PutProjection(p) =>
      p.version !in d.projections && ValidProjection(p) && p.state.StatePublished? && MayAppear(d, p)
    case PutPointer(next) => PointerMayBecome(d, next)
    case RemoveProjection(version) =>
      && d.pointer.Some? && d.pointer.value.owner.None?
      && d.pointer.value.version in d.projections
      && version != d.pointer.value.version
      && forall plan | plan in d.projections[d.pointer.value.version].applied :: plan.run.base != version
    case Invoke(key) =>
      && Unfinished(d, key.run)
      && key.run in d.plans
      && key.operation in d.plans[key.run].operations
      && key !in d.results
      && !AnyReceiptFailed(d, d.plans[key.run])
      && d.pointer.Some? && d.pointer.value.version == d.plans[key.run].run.base
  }

  // Guarded actions keep the invariant.

  lemma OutcomesOfResults(d: Disk, plan: Plan)
    requires ValidPlan(plan) && Complete(d, plan)
    ensures CompleteResults(plan, ResultsOf(d, plan))
    ensures forall op | op in plan.operations ::
              Outcomes(ResultsOf(d, plan))[op] == d.results[ResultKey(plan.run.id, op)]
    ensures AllSucceeded(plan.operations, Outcomes(ResultsOf(d, plan))) <==> AllReceiptsSucceeded(d, plan)
  {
    var results := ResultsOf(d, plan);
    assert DistinctResults(results);
    forall op | op in plan.operations
      ensures op in Outcomes(results) && Outcomes(results)[op] == d.results[ResultKey(plan.run.id, op)]
    {
      var i :| 0 <= i < |plan.operations| && plan.operations[i] == op;
      assert results[i].operation == op;
      OutcomesAt(results, i);
    }
    assert AllSucceeded(plan.operations, Outcomes(results)) <==> AllReceiptsSucceeded(d, plan) by {
      forall op | op in plan.operations ensures HasResult(d, plan, op) {
      }
    }
  }

  lemma CandidateFacts(d: Disk, plan: Plan, p: Projection)
    requires Candidate(d, plan, p)
    ensures ValidPlan(plan)
    ensures p.scope == plan.run.scope && p.version == plan.run.version && p.snapshot == plan.run.snapshot
    ensures p.applied == d.projections[plan.run.base].applied + {plan}
    ensures p.state.StatePublished? && ValidProjection(p)
    ensures Replay(plan, d.projections[plan.run.base], ResultsOf(d, plan)).value.1.runState.RunSucceeded?
  {
    ReplayReduces(plan, d.projections[plan.run.base], ResultsOf(d, plan));
    OutcomesOfResults(d, plan);
  }

  lemma ResultsFrame(d: Disk, e: Disk, plan: Plan)
    requires Complete(d, plan)
    requires forall op | op in plan.operations ::
               HasResult(e, plan, op) && e.results[ResultKey(plan.run.id, op)] == d.results[ResultKey(plan.run.id, op)]
    ensures Complete(e, plan) && ResultsOf(e, plan) == ResultsOf(d, plan)
  {
  }

  predicate KeepsResults(d: Disk, e: Disk) {
    forall key | key in d.results :: key in e.results && e.results[key] == d.results[key]
  }

  lemma CandidateFrame(d: Disk, e: Disk, plan: Plan, p: Projection)
    requires Candidate(d, plan, p)
    requires KeepsResults(d, e)
    requires plan.run.base in e.projections && e.projections[plan.run.base] == d.projections[plan.run.base]
    ensures Candidate(e, plan, p)
  {
    assert forall op | op in plan.operations :: HasResult(d, plan, op);
    ResultsFrame(d, e, plan);
  }

  lemma OwnerFrame(d: Disk, e: Disk, pointer: Pointer, owner: Owner)
    requires pointer.version in d.projections && OwnerOk(d, pointer, owner)
    requires KeepsResults(d, e)
    requires forall version | version in d.projections ::
               version in e.projections && e.projections[version] == d.projections[version]
    requires owner.run in e.plans && e.plans[owner.run] == d.plans[owner.run]
    requires owner.run in e.runs && !e.runs[owner.run].state.RunFailed?
    requires e.runs[owner.run].state.RunSucceeded? ==>
               owner.run in e.verdicts && e.verdicts[owner.run] == d.projections[pointer.version]
    ensures OwnerOk(e, pointer, owner)
  {
    CandidateFrame(d, e, owner.plan, d.projections[pointer.version]);
  }

  /** Growing the records around it keeps the serving pointer sound. */
  lemma PointerFrame(d: Disk, e: Disk)
    requires PointerOk(d) && e.pointer == d.pointer
    requires KeepsResults(d, e)
    requires forall version | version in d.projections ::
               version in e.projections && e.projections[version] == d.projections[version]
    requires forall id | id in d.plans :: id in e.plans && e.plans[id] == d.plans[id]
    requires d.pointer.Some? && d.pointer.value.owner.Some? ==>
               var pointer, id := d.pointer.value, d.pointer.value.owner.value.run;
               && id in e.runs && !e.runs[id].state.RunFailed?
               && (e.runs[id].state.RunSucceeded? ==>
                     id in e.verdicts && e.verdicts[id] == d.projections[pointer.version])
    ensures PointerOk(e)
  {
    if d.pointer.Some? && d.pointer.value.owner.Some? {
      OwnerFrame(d, e, d.pointer.value, d.pointer.value.owner.value);
    }
  }

  lemma KeepsPlan(d: Disk, plan: Plan)
    requires Inv(d) && Allowed(d, PutPlan(plan))
    ensures Inv(Apply(d, PutPlan(plan)))
  {
    var e := Apply(d, PutPlan(plan));
    PointerFrame(d, e);
  }

  lemma KeepsRun(d: Disk, run: SyncRun)
    requires Inv(d) && Allowed(d, PutRun(run))
    ensures Inv(Apply(d, PutRun(run)))
  {
    hide ValidProjection, ValidPlan, Candidate, AncestorsPersisted;
    var e := Apply(d, PutRun(run));
    PointerFrame(d, e);
  }

  lemma KeepsResult(d: Disk, key: ResultKey, outcome: Outcome)
    requires Inv(d) && Allowed(d, PutResult(key, outcome))
    ensures Inv(Apply(d, PutResult(key, outcome)))
  {
    hide ValidProjection, ValidPlan, Candidate, AncestorsPersisted;
    var e := Apply(d, PutResult(key, outcome));
    PointerFrame(d, e);
  }

  lemma KeepsVerdict(d: Disk, owner: RunID, verdict: Projection)
    requires Inv(d) && Unfinished(d, owner) && owner !in d.verdicts
    ensures Inv(Apply(d, PutVerdict(owner, verdict)))
  {
    hide ValidProjection, ValidPlan, Candidate, AncestorsPersisted;
    var e := Apply(d, PutVerdict(owner, verdict));
    PointerFrame(d, e);
  }

  lemma FreshLineage(d: Disk, p: Projection)
    requires Inv(d) && Allowed(d, PutProjection(p))
    ensures forall plan | plan in p.applied :: plan.run.base != p.version
  {
    if p.applied != {} {
      var id :| id in d.plans && d.plans[id].run.base == d.pointer.value.version && Candidate(d, d.plans[id], p);
      CandidateFacts(d, d.plans[id], p);
      forall plan | plan in p.applied ensures plan.run.base != p.version {
        if plan != d.plans[id] {
          assert plan in d.projections[d.pointer.value.version].applied;
        }
      }
    }
  }

  lemma KeepsProjection(d: Disk, p: Projection)
    requires Inv(d) && Allowed(d, PutProjection(p))
    ensures Inv(Apply(d, PutProjection(p)))
  {
    hide ValidProjection, ValidPlan, Replay;
    var e := Apply(d, PutProjection(p));
    FreshLineage(d, p);
    PointerFrame(d, e);
  }

  /** A candidate's ancestors are its base and the base's ancestors. */
  lemma CandidateAncestors(d: Disk, plan: Plan, p: Projection)
    requires Candidate(d, plan, p)
    ensures AncestorsPersisted(d, d.projections[plan.run.base]) <==> AncestorsPersisted(d, p)
  {
    CandidateFacts(d, plan, p);
  }

  lemma KeepsAdvance(d: Disk, e: Disk, next: Pointer, owner: Owner)
    requires e == d.(pointer := Some(next)) && next.owner == Some(owner)
    requires next.version in d.projections && next == Named(d.projections[next.version], next.owner)
    requires owner.plan.run.base in d.projections
    requires AncestorsPersisted(d, d.projections[owner.plan.run.base])
    requires owner.plan.run.version == next.version
    requires owner.run in d.plans && d.plans[owner.run] == owner.plan && Unfinished(d, owner.run)
    requires Candidate(d, owner.plan, d.projections[next.version])
    ensures PointerOk(e)
  {
    CandidateAncestors(d, owner.plan, d.projections[next.version]);
    CandidateFrame(d, e, owner.plan, d.projections[next.version]);
    assert OwnerOk(e, next, owner);
    assert AncestorsPersisted(e, e.projections[next.version]);
  }

  lemma KeepsRestored(d: Disk, e: Disk, next: Pointer, owner: Owner)
    requires d.pointer.Some? && d.pointer.value.owner == Some(owner) && next.owner.None?
    requires d.pointer.value.version in d.projections && OwnerOk(d, d.pointer.value, owner)
    requires AncestorsPersisted(d, d.projections[d.pointer.value.version])
    requires e == d.(pointer := Some(next))
    requires next.version in d.projections && next == Named(d.projections[next.version], next.owner)
    requires next.version == owner.plan.run.base
    ensures PointerOk(e)
  {
    CandidateAncestors(d, owner.plan, d.projections[d.pointer.value.version]);
    assert AncestorsPersisted(e, e.projections[next.version]);
  }

  lemma KeepsPointer(d: Disk, next: Pointer)
    requires Inv(d) && Allowed(d, PutPointer(next))
    ensures Inv(Apply(d, PutPointer(next)))
  {
    hide ValidProjection, ValidPlan, Replay;
    if d.pointer.Some? {
      if next.owner.Some? {
        KeepsAdvance(d, Apply(d, PutPointer(next)), next, next.owner.value);
      } else {
        KeepsRestored(d, Apply(d, PutPointer(next)), next, d.pointer.value.owner.value);
      }
    }
  }

  lemma KeepsRemoval(d: Disk, version: Version)
    requires Inv(d) && Allowed(d, RemoveProjection(version))
    ensures Inv(Apply(d, RemoveProjection(version)))
  {
    hide ValidProjection, ValidPlan, Replay;
  }

  lemma StepKeeps(d: Disk, a: Action)
    requires Inv(d) && Allowed(d, a)
    ensures Inv(Apply(d, a))
  {
    match a
    case PutProjection(p) => KeepsProjection(d, p);
    case PutPointer(next) => KeepsPointer(d, next);
    case RemoveProjection(version) => KeepsRemoval(d, version);
    case PutPlan(plan) => KeepsPlan(d, plan);
    case PutRun(run) => KeepsRun(d, run);
    case PutResult(key, outcome) => KeepsResult(d, key, outcome);
    case PutVerdict(owner, verdict) => KeepsVerdict(d, owner, verdict);
    case Invoke(_) =>
  }
}
