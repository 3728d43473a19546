/**
 Revocation planning: the worklist that closes a revocation request under
 support-aware invalidation, and the rebinding of what is carried forward.
 */
module Revocation {
  import opened Wrappers
  import opened Catalog
  import opened Planner
  import opened Replaying
  import opened PlanReplay

  /** What a resource is reached from: a chunk without dependencies follows its document. */
  function Edges(r: Resource): set<ResourceID> {
    if r.kind.Chunk? && r.deps == {} then {r.authzResource} else r.deps
  }

  predicate Available(
    identity: ResourceIdentity, selected: set<ResourceID>, resources: map<ResourceID, Resource>)
  {
    identity.id in resources && resources[identity.id].IsServing() && identity.id !in selected
  }

  predicate GroupAvailable(group: SupportGroup, selected: set<ResourceID>, resources: map<ResourceID, Resource>) {
    group.complete && forall identity | identity in group.resources :: Available(identity, selected, resources)
  }

  predicate Invalidated(r: Resource, selected: set<ResourceID>, resources: map<ResourceID, Resource>) {
    if !r.kind.DerivedArtifact? || r.security.None? then
      exists edge | edge in Edges(r) :: edge in selected
    else
      var record := r.security.value;
      match record.mode
      case AnySupport =>
        forall key | key in record.supports :: !GroupAvailable(record.supports[key], selected, resources)
      case AllRequired =>
        exists key, identity | key in record.supports && identity in record.supports[key].resources ::
          !Available(identity, selected, resources)
  }

  /** Nothing reached from the selection is left out although the selection invalidates it. */
  predicate Closed(selected: set<ResourceID>, resources: map<ResourceID, Resource>) {
    forall id | id in resources && id !in selected && Edges(resources[id]) * selected != {} ::
      !Invalidated(resources[id], selected, resources)
  }

  predicate ClosedOver(
    selected: set<ResourceID>, requested: set<ResourceID>, resources: map<ResourceID, Resource>)
  {
    requested <= selected && Closed(selected, resources)
  }

  /** The least closed selection above the request. */
  ghost predicate IsClosure(
    selected: set<ResourceID>, requested: set<ResourceID>, resources: map<ResourceID, Resource>)
  {
    && ClosedOver(selected, requested, resources)
    && forall other :: ClosedOver(other, requested, resources) ==> selected <= other
  }

  /** The outcome of the worklist does not depend on the order it works in. */
  lemma ClosureUnique(
    left: set<ResourceID>, right: set<ResourceID>, requested: set<ResourceID>, resources: map<ResourceID, Resource>)
    requires IsClosure(left, requested, resources) && IsClosure(right, requested, resources)
    ensures left == right
  {
    assert ClosedOver(right, requested, resources);
  }

  lemma InvalidationMonotone(
    r: Resource, small: set<ResourceID>, large: set<ResourceID>, resources: map<ResourceID, Resource>)
    requires small <= large && Invalidated(r, small, resources)
    ensures Invalidated(r, large, resources)
  {
    if r.kind.DerivedArtifact? && r.security.Some? {
      var record := r.security.value;
      forall key | key in record.supports && GroupAvailable(record.supports[key], large, resources)
        ensures GroupAvailable(record.supports[key], small, resources)
      {
        forall identity | identity in record.supports[key].resources
          ensures Available(identity, small, resources)
        {
          assert Available(identity, large, resources);
        }
      }
      if record.mode.AllRequired? {
        var key, identity :| key in record.supports && identity in record.supports[key].resources
                          && !Available(identity, small, resources);
        assert !Available(identity, large, resources);
      }
    }
  }

  /** Selecting one more resource only invalidates what it is an edge of. */
  lemma InvalidationLocal(
    p: Projection, id: ResourceID, selected: set<ResourceID>, added: ResourceID)
    requires ValidProjection(p) && id in p.resources && added !in Edges(p.resources[id])
    ensures Invalidated(p.resources[id], selected + {added}, p.resources)
        ==> Invalidated(p.resources[id], selected, p.resources)
  {
    var r := p.resources[id];
    assert ResourceFits(p, id);
    if r.kind.DerivedArtifact? && r.security.Some? {
      var record := r.security.value;
      forall key, identity | key in record.supports && identity in record.supports[key].resources
        ensures Available(identity, selected, p.resources) <==> Available(identity, selected + {added}, p.resources)
      {
        assert identity.id in record.Members();
      }
      forall key | key in record.supports && GroupAvailable(record.supports[key], selected, p.resources)
        ensures GroupAvailable(record.supports[key], selected + {added}, p.resources)
      {
        forall identity | identity in record.supports[key].resources
          ensures Available(identity, selected + {added}, p.resources)
        {
          assert Available(identity, selected, p.resources);
        }
      }
    }
  }

  function Dependents(resources: map<ResourceID, Resource>, id: ResourceID): set<ResourceID> {
    set dependent | dependent in resources && id in Edges(resources[dependent])
  }

  /** Everything still to be examined is waiting in the queue. */
  predicate Pursued(
    selected: set<ResourceID>, queue: seq<ResourceID>, waiting: set<ResourceID>, resources: map<ResourceID, Resource>)
  {
    forall id | && id in resources && id !in selected && id !in waiting
                && Edges(resources[id]) * selected != {}
                && Invalidated(resources[id], selected, resources) ::
      exists edge | edge in Edges(resources[id]) :: edge in queue
  }

  lemma SelectionStep(
    p: Projection, requested: set<ResourceID>, selected: set<ResourceID>, queue: seq<ResourceID>,
    waiting: set<ResourceID>, id: ResourceID, from: ResourceID)
    requires ValidProjection(p)
    requires id in p.resources && id !in selected && from in selected && from in Edges(p.resources[id])
    requires Invalidated(p.resources[id], selected, p.resources)
    requires Pursued(selected, queue, waiting + {id}, p.resources)
    ensures Pursued(selected + {id}, queue + [id], waiting, p.resources)
    ensures forall other :: ClosedOver(other, requested, p.resources) && selected <= other ==> id in other
  {
    hide ValidProjection, Invalidated;
    forall next | && next in p.resources && next !in selected + {id} && next !in waiting
                  && Edges(p.resources[next]) * (selected + {id}) != {}
                  && Invalidated(p.resources[next], selected + {id}, p.resources)
      ensures exists edge | edge in Edges(p.resources[next]) :: edge in queue + [id]
    {
      if Edges(p.resources[next]) * selected != {} && Invalidated(p.resources[next], selected, p.resources) {
        var edge :| edge in Edges(p.resources[next]) && edge in queue;
        assert edge in queue + [id];
      } else {
        if id !in Edges(p.resources[next]) {
          InvalidationLocal(p, next, selected, id);
        }
        assert id in queue + [id];
      }
    }
    forall other | ClosedOver(other, requested, p.resources) && selected <= other ensures id in other {
      InvalidationMonotone(p.resources[id], selected, other, p.resources);
      assert from in Edges(p.resources[id]) * other;
    }
  }

  /** A dependent that is not newly selected needs no pursuit. */
  lemma NothingToPursue(
    p: Projection, selected: set<ResourceID>, queue: seq<ResourceID>, waiting: set<ResourceID>, id: ResourceID)
    requires id in p.resources && (id in selected || !Invalidated(p.resources[id], selected, p.resources))
    requires Pursued(selected, queue, waiting + {id}, p.resources)
    ensures Pursued(selected, queue, waiting, p.resources)
  {
  }

  /** Selects what the selection of `id` newly invalidates. */
  method Propagate(
    p: Projection, ghost request: set<ResourceID>, id: ResourceID, before: set<ResourceID>, rest: seq<ResourceID>)
    returns (selected: set<ResourceID>, queue: seq<ResourceID>)
    requires ValidProjection(p)
    requires id in before && before <= p.resources.Keys && forall next | next in rest :: next in before
    requires Pursued(before, rest, Dependents(p.resources, id), p.resources)
    requires forall other :: ClosedOver(other, request, p.resources) ==> before <= other
    ensures before <= selected <= p.resources.Keys && forall next | next in queue :: next in selected
    ensures selected == before ==> queue == rest
    ensures Pursued(selected, queue, {}, p.resources)
    ensures forall other :: ClosedOver(other, request, p.resources) ==> selected <= other
  {
    hide ValidProjection, Invalidated, Pursued, ClosedOver;
    selected, queue := before, rest;
    var waiting := Dependents(p.resources, id);
    while waiting != {}
      invariant waiting <= Dependents(p.resources, id)
      invariant before <= selected <= p.resources.Keys
      invariant forall next | next in queue :: next in selected
      invariant Pursued(selected, queue, waiting, p.resources)
      invariant forall other :: ClosedOver(other, request, p.resources) ==> selected <= other
      invariant selected == before ==> queue == rest
      decreases waiting
    {
      var dependent :| dependent in waiting;
      assert waiting == (waiting - {dependent}) + {dependent};
      waiting := waiting - {dependent};
      if dependent !in selected && Invalidated(p.resources[dependent], selected, p.resources) {
        SelectionStep(p, request, selected, queue, waiting, dependent, id);
        selected := selected + {dependent};
        queue := queue + [dependent];
      } else {
        NothingToPursue(p, selected, queue, waiting, dependent);
      }
    }
  }

  lemma PursuedWithout(
    selected: set<ResourceID>, queue: seq<ResourceID>, resources: map<ResourceID, Resource>)
    requires queue != [] && Pursued(selected, queue, {}, resources)
    ensures Pursued(selected, queue[1..], Dependents(resources, queue[0]), resources)
  {
    assert queue == [queue[0]] + queue[1..];
  }

  lemma PursuedClosed(selected: set<ResourceID>, resources: map<ResourceID, Resource>)
    requires Pursued(selected, [], {}, resources)
    ensures Closed(selected, resources)
  {
  }

  method IndexRequest(requested: seq<ResourceID>) returns (result: Option<set<ResourceID>>)
    ensures result.Some? <==> Distinct(requested)
    ensures result.Some? ==> result.value == set id | id in requested
  {
    var selected: set<ResourceID> := {};
    for i := 0 to |requested|
      invariant selected == set id | id in requested[..i]
      invariant Distinct(requested[..i])
    {
      if requested[i] in selected {
        return None;
      }
      selected := selected + {requested[i]};
    }
    assert requested[..|requested|] == requested;
    return Some(selected);
  }

  /** The worklist. Over a valid base it ends with the closure of the request. */
  method SelectRevocations(p: Projection, requested: seq<ResourceID>)
    returns (result: Result<set<ResourceID>, PlanError>)
    requires ValidProjection(p)
    ensures result.Ok? <==> Distinct(requested) && forall id | id in requested :: id in p.resources
    ensures result.Ok? ==> IsClosure(result.value, (set id | id in requested), p.resources)
    ensures result.Ok? ==> result.value <= p.resources.Keys
  {
    var indexed := IndexRequest(requested);
    if indexed.None? {
      return Err(InvalidDesired);
    }
    var selected := indexed.value;
    if !(selected <= p.resources.Keys) {
      return Err(UnknownResource);
    }
    ghost var request := selected;
    var queue := requested;
    while queue != []
      invariant request <= selected <= p.resources.Keys
      invariant forall id | id in queue :: id in selected
      invariant Pursued(selected, queue, {}, p.resources)
      invariant forall other :: ClosedOver(other, request, p.resources) ==> selected <= other
      decreases p.resources.Keys - selected, |queue|
    {
      PursuedWithout(selected, queue, p.resources);
      selected, queue := Propagate(p, request, queue[0], selected, queue[1..]);
    }
    PursuedClosed(selected, p.resources);
    return Ok(selected);
  }

  // What is carried forward.

  function RebindEvidence(run: SyncRun, e: EvidenceRef): EvidenceRef {
    e.(versions := e.versions.(source := run.snapshot.version, projection := run.version),
       document := e.document.(source := run.snapshot.version, projection := run.version))
  }

  function RebindClaim(run: SyncRun, record: ClaimRecord): ClaimRecord {
    record.(
    source := record.source.(source := run.snapshot.version, projection := run.version),
    provenance := record.provenance.(
    supports := map key | key in record.provenance.supports ::
      record.provenance.supports[key].(
      evidence := set e | e in record.provenance.supports[key].evidence :: RebindEvidence(run, e))))
  }

  function RebindGroup(version: Version, group: SupportGroup): SupportGroup {
    group.(resources := set identity | identity in group.resources ::
      identity.(versions := identity.versions.(projection := version)))
  }

  /** The support groups a rebound security record keeps. */
  function KeptGroups(
    record: SecurityRecord, version: Version, selected: set<ResourceID>, resources: map<ResourceID, Resource>)
    : map<nat, SupportGroup>
  {
    map key | key in record.supports
            && (record.mode.AnySupport? ==> GroupAvailable(record.supports[key], selected, resources)) ::
      RebindGroup(version, record.supports[key])
  }

  function Rebound(
    r: Resource, record: SecurityRecord, selected: set<ResourceID>, resources: map<ResourceID, Resource>)
    : SecurityRecord
  {
    record.(supports := KeptGroups(record, r.versions.projection, selected, resources),
            artifact := r.Identity(),
            watermark := r.versions.projection)
  }

  function RebindSecurity(
    r: Resource, record: SecurityRecord, selected: set<ResourceID>, resources: map<ResourceID, Resource>)
    : Result<Resource, PlanError>
  {
    var rebound := Rebound(r, record, selected, resources);
    if rebound.supports == map[] then Err(NoServingSupport)
    else if !ValidSecurityRecord(rebound) then Err(InvalidDesired)
    else Ok(r.(deps := rebound.Members(), security := Some(rebound)))
  }

  /** A carried-forward resource as the revocation plan desires it. */
  function CarryForward(
    run: SyncRun, r: Resource, selected: set<ResourceID>, resources: map<ResourceID, Resource>)
    : Result<Resource, PlanError>
  {
    var moved := r.(versions := r.versions.(projection := run.version));
    var claimed :=
      if r.kind.Claim? && r.claimRecord.Some?
      then moved.(claimRecord := Some(RebindClaim(run, r.claimRecord.value)))
      else moved;
    if r.kind.DerivedArtifact? && r.security.Some?
    then RebindSecurity(claimed, r.security.value, selected, resources)
    else Ok(claimed)
  }

  predicate IsCarried(p: Projection, selected: set<ResourceID>, id: ResourceID) {
    id in Live(p) && id !in selected && !p.resources[id].IsQuarantined()
  }

  /** Some group is available where any suffices, all members where all are required. */
  predicate Supported(record: SecurityRecord, selected: set<ResourceID>, resources: map<ResourceID, Resource>) {
    match record.mode
    case AnySupport =>
      exists key | key in record.supports :: GroupAvailable(record.supports[key], selected, resources)
    case AllRequired =>
      forall key, identity | key in record.supports && identity in record.supports[key].resources ::
        Available(identity, selected, resources)
  }

  lemma UntouchedSupport(
    r: Resource, record: SecurityRecord, selected: set<ResourceID>, resources: map<ResourceID, Resource>)
    requires r.kind.DerivedArtifact? && r.security == Some(record) && r.IsServing()
    requires ArtifactResolves(resources, r)
    requires Edges(r) * selected == {}
    ensures Supported(record, selected, resources)
  {
    forall key, identity | key in record.supports && identity in record.supports[key].resources
      ensures identity.id !in selected
    {
      assert identity.id in record.Members();
      assert identity.id !in Edges(r) * selected;
    }
    if record.mode.AnySupport? {
      var key :| key in record.supports && record.supports[key].complete
              && MembersServing(resources, record.supports[key]);
      forall identity | identity in record.supports[key].resources
        ensures Available(identity, selected, resources)
      {
      }
    } else {
      forall key, identity | key in record.supports && identity in record.supports[key].resources
        ensures Available(identity, selected, resources)
      {
        assert MembersServing(resources, record.supports[key]);
      }
    }
  }

  /**
   Over a valid published base every artifact the closure spares keeps its
   support: one available group where any suffices, every group where all are
   required.
   */
  lemma CarriedSupport(p: Projection, requested: set<ResourceID>, selected: set<ResourceID>, id: ResourceID)
    requires ValidProjection(p) && p.state.StatePublished?
    requires IsClosure(selected, requested, p.resources)
    requires IsCarried(p, selected, id)
    requires p.resources[id].kind.DerivedArtifact? && p.resources[id].security.Some?
    ensures Supported(p.resources[id].security.value, selected, p.resources)
  {
    var r := p.resources[id];
    assert ResourceFits(p, id);
    if Edges(r) * selected != {} {
      assert !Invalidated(r, selected, p.resources);
    } else {
      UntouchedSupport(r, r.security.value, selected, p.resources);
    }
  }

  lemma ReboundGroup(record: SecurityRecord, rebound: SecurityRecord, group: SupportGroup)
    requires ValidGroup(record, group)
    requires rebound.mode == record.mode && rebound.artifact.id == record.artifact.id && rebound.watermark > 0
    ensures ValidGroup(rebound, RebindGroup(rebound.watermark, group))
  {
    var moved := RebindGroup(rebound.watermark, group);
    var identity :| identity in group.resources;
    assert identity.(versions := identity.versions.(projection := rebound.watermark)) in moved.resources;
  }

  lemma KeptNonempty(
    r: Resource, record: SecurityRecord, selected: set<ResourceID>, resources: map<ResourceID, Resource>)
    requires record.supports != map[]
    requires Supported(record, selected, resources)
    ensures Rebound(r, record, selected, resources).supports != map[]
  {
    var kept := KeptGroups(record, r.versions.projection, selected, resources);
    if record.mode.AnySupport? {
      var key :| key in record.supports && GroupAvailable(record.supports[key], selected, resources);
      assert key in kept;
    } else {
      var key :| key in record.supports;
      assert key in kept;
    }
  }

  lemma RebindTotal(
    r: Resource, record: SecurityRecord, selected: set<ResourceID>, resources: map<ResourceID, Resource>)
    requires ValidSecurityRecord(record)
    requires ValidIdentity(r.Identity()) && r.kind.DerivedArtifact? && r.id == record.artifact.id
    requires Supported(record, selected, resources)
    ensures RebindSecurity(r, record, selected, resources).Ok?
  {
    KeptNonempty(r, record, selected, resources);
    var rebound := Rebound(r, record, selected, resources);
    forall key | key in rebound.supports ensures ValidGroup(rebound, rebound.supports[key]) {
      assert rebound.supports[key] == RebindGroup(rebound.watermark, record.supports[key]);
      ReboundGroup(record, rebound, record.supports[key]);
    }
  }

  /** So rebinding never reports that no serving support group is left. */
  lemma CarryForwardTotal(
    run: SyncRun, p: Projection, requested: set<ResourceID>, selected: set<ResourceID>, id: ResourceID)
    requires ValidRun(run)
    requires ValidProjection(p) && p.state.StatePublished?
    requires IsClosure(selected, requested, p.resources)
    requires IsCarried(p, selected, id)
    ensures CarryForward(run, p.resources[id], selected, p.resources).Ok?
    ensures CarryForward(run, p.resources[id], selected, p.resources).value.id == id
  {
    hide ValidSecurityRecord;
    assert ResourceFits(p, id);
    var r := p.resources[id];
    if r.kind.DerivedArtifact? && r.security.Some? {
      CarriedSupport(p, requested, selected, id);
      RebindTotal(r.(versions := r.versions.(projection := run.version)), r.security.value, selected, p.resources);
    }
  }

  /** What a revocation request has to satisfy before anything is planned. */
  predicate Revocable(run: SyncRun, current: Projection, requested: seq<ResourceID>) {
    && ValidRun(run)
    && ValidProjection(current) && current.state.StatePublished?
    && Distinct(requested) && forall id | id in requested :: id in current.resources
  }

  /** What is neither selected nor terminal nor quarantined, rebound to the new run. */
  ghost predicate CarriesForward(run: SyncRun, current: Projection, selected: set<ResourceID>, desired: seq<Resource>) {
    && DistinctIDs(desired)
    && (forall id :: IsCarried(current, selected, id) <==> exists r | r in desired :: r.id == id)
    && (forall r | r in desired ::
          IsCarried(current, selected, r.id)
          && CarryForward(run, current.resources[r.id], selected, current.resources) == Ok(r))
  }

  /** The complete revocation plan: revoke the closure, carry the rest forward. */
  method PlanRevocations(run: SyncRun, current: Projection, requested: seq<ResourceID>)
    returns (result: Result<Plan, PlanError>, ghost selected: set<ResourceID>, ghost desired: seq<Resource>)
    ensures Revocable(run, current, requested) ==>
              && IsClosure(selected, (set id | id in requested), current.resources)
              && CarriesForward(run, current, selected, desired)
    ensures result.Ok? <==> Revocable(run, current, requested) && Plannable(run, current, desired, Revoke)
    ensures !Distinct(requested) ==> result == Err(InvalidDesired)
    ensures Distinct(requested) && (exists id | id in requested :: id !in current.resources) ==>
              result == Err(UnknownResource)
    ensures result.Ok? ==> IsPlanFor(result.value, run, current, TargetMap(run, desired), Revoke)
    ensures result.Err? ==> !result.error.NoServingSupport?
  {
    hide ValidProjection, CarryForward, Plannable, IsPlanFor, IsClosure, TargetMap, ValidRun;
    selected, desired := {}, [];
    var indexed := IndexRequest(requested);
    if indexed.None? {
      return Err(InvalidDesired), selected, desired;
    }
    if !(indexed.value <= current.resources.Keys) {
      assert !forall id | id in requested :: id in current.resources;
      return Err(UnknownResource), selected, desired;
    }
    if !ValidRun(run) {
      return Err(InvalidRun), selected, desired;
    }
    if !ValidProjection(current) || !current.state.StatePublished? {
      return Err(InvalidBase), selected, desired;
    }
    var closure := SelectRevocations(current, requested);
    selected := closure.value;
    var carried: seq<Resource> := [];
    var rest := Live(current);
    while rest != {}
      invariant rest <= Live(current)
      invariant DistinctIDs(carried)
      invariant forall id | IsCarried(current, selected, id) && id !in rest :: exists r | r in carried :: r.id == id
      invariant forall r | r in carried ::
                  r.id !in rest && IsCarried(current, selected, r.id)
                  && CarryForward(run, current.resources[r.id], selected, current.resources) == Ok(r)
    {
      var id :| id in rest;
      rest := rest - {id};
      if id !in closure.value && !current.resources[id].IsQuarantined() {
        CarryForwardTotal(run, current, (set i | i in requested), selected, id);
        carried := carried + [CarryForward(run, current.resources[id], closure.value, current.resources).value];
      }
    }
    desired := carried;
    result := PlanResources(run, current, carried, Revoke);
  }

  /**
   Replaying a revocation plan successfully serves exactly what the closure
   spared: every live resource outside it that was not quarantined.
   */
  lemma RevocationServes(
    plan: Plan, current: Projection, selected: set<ResourceID>, desired: seq<Resource>, results: seq<OperationResult>)
    requires Plannable(plan.run, current, desired, Revoke)
    requires IsPlanFor(plan, plan.run, current, TargetMap(plan.run, desired), Revoke)
    requires forall id :: IsCarried(current, selected, id) <==> exists r | r in desired :: r.id == id
    requires plan !in current.applied
    requires CompleteResults(plan, results) && AllSucceeded(plan.operations, Outcomes(results))
    ensures Replay(plan, current, results).Ok?
    ensures Serving(Replay(plan, current, results).value.0) == set id | id in Live(current) && IsCarried(current, selected, id)
  {
    PlanReplayAgreement(plan, current, desired, Revoke, results);
    TargetsAreCarried(plan.run, current, selected, desired);
  }

  lemma TargetsAreCarried(run: SyncRun, current: Projection, selected: set<ResourceID>, desired: seq<Resource>)
    requires forall id :: IsCarried(current, selected, id) <==> exists r | r in desired :: r.id == id
    ensures TargetMap(run, desired).Keys == set id | id in Live(current) && IsCarried(current, selected, id)
  {
    forall id ensures id in TargetMap(run, desired) <==> IsCarried(current, selected, id) {
      if IsCarried(current, selected, id) {
        var r :| r in desired && r.id == id;
        var i :| 0 <= i < |desired| && desired[i] == r;
        assert desired[i].id == id;
      }
      if id in TargetMap(run, desired) {
        var i :| 0 <= i < |desired| && desired[i].id == id;
        assert desired[i] in desired;
      }
    }
  }
}
