/**
 Why a revocation selects what nobody asked for, in terms of the catalog records
 alone: a selected dependency, or support that is lost in the way the mode counts it.
 */
module RevocationReasons {
  import opened Wrappers
  import opened Catalog
  import opened Planner
  import opened Replaying
  import opened PlanReplay
  import opened Revocation

  /** Missing, not serving, or selected. */
  predicate IsLost(id: ResourceID, selected: set<ResourceID>, resources: map<ResourceID, Resource>) {
    id in resources && resources[id].IsServing() ==> id in selected
  }

  /** Some member of the support group is lost. */
  predicate LosesMember(group: SupportGroup, selected: set<ResourceID>, resources: map<ResourceID, Resource>) {
    exists member | member in group.resources :: IsLost(member.id, selected, resources)
  }

  /** Any support: no complete group is left. All required: some group is not. */
  predicate LosesSupport(record: SecurityRecord, selected: set<ResourceID>, resources: map<ResourceID, Resource>) {
    match record.mode
    case AnySupport =>
      forall key | key in record.supports && record.supports[key].complete ::
        LosesMember(record.supports[key], selected, resources)
    case AllRequired =>
      exists key | key in record.supports :: LosesMember(record.supports[key], selected, resources)
  }

  predicate HasSelectedDependency(r: Resource, selected: set<ResourceID>) {
    if r.kind.Chunk? && r.deps == {} then r.authzResource in selected
    else exists dependency | dependency in r.deps :: dependency in selected
  }

  predicate HasReason(r: Resource, selected: set<ResourceID>, resources: map<ResourceID, Resource>) {
    if r.kind.DerivedArtifact? && r.security.Some? then LosesSupport(r.security.value, selected, resources)
    else HasSelectedDependency(r, selected)
  }

  lemma ReasonsAgree(r: Resource, selected: set<ResourceID>, resources: map<ResourceID, Resource>)
    ensures Invalidated(r, selected, resources) <==> HasReason(r, selected, resources)
  {
    if r.kind.DerivedArtifact? && r.security.Some? {
      var record := r.security.value;
      forall key | key in record.supports
        ensures GroupAvailable(record.supports[key], selected, resources)
           <==> record.supports[key].complete && !LosesMember(record.supports[key], selected, resources)
        ensures LosesMember(record.supports[key], selected, resources)
           <==> exists member | member in record.supports[key].resources :: !Available(member, selected, resources)
      {
        MembersAgree(record.supports[key], selected, resources);
      }
    }
  }

  lemma MembersAgree(group: SupportGroup, selected: set<ResourceID>, resources: map<ResourceID, Resource>)
    ensures LosesMember(group, selected, resources)
       <==> exists member | member in group.resources :: !Available(member, selected, resources)
    ensures GroupAvailable(group, selected, resources)
       <==> group.complete && !LosesMember(group, selected, resources)
  {
    forall member | member in group.resources
      ensures IsLost(member.id, selected, resources) <==> !Available(member, selected, resources)
    {
    }
  }

  lemma SparedByLess(
    r: Resource, small: set<ResourceID>, large: set<ResourceID>, resources: map<ResourceID, Resource>)
    requires small <= large && !Invalidated(r, large, resources)
    ensures !Invalidated(r, small, resources)
  {
    if Invalidated(r, small, resources) {
      InvalidationMonotone(r, small, large, resources);
    }
  }

  lemma MeetsMore(edges: set<ResourceID>, small: set<ResourceID>, large: set<ResourceID>)
    requires small <= large && edges * small != {}
    ensures edges * large != {}
  {
    var edge :| edge in edges * small;
    assert edge in edges * large;
  }

  /** A least selection cannot do without any of its members. */
  lemma Needed(requested: set<ResourceID>, selected: set<ResourceID>, resources: map<ResourceID, Resource>, id: ResourceID)
    requires IsClosure(selected, requested, resources) && id in selected - requested
    ensures id in resources && Invalidated(resources[id], selected - {id}, resources)
  {
    var other := selected - {id};
    if !(id in resources && Invalidated(resources[id], other, resources)) {
      forall next | next in resources && next !in other && Edges(resources[next]) * other != {}
        ensures !Invalidated(resources[next], other, resources)
      {
        if next != id {
          MeetsMore(Edges(resources[next]), other, selected);
          SparedByLess(resources[next], other, selected, resources);
        }
      }
      assert ClosedOver(other, requested, resources);
    }
  }

  /**
   Nothing is selected without a reason that the rest of the selection gives: an
   artifact that keeps a complete alternative, or all its required members, is spared.
   */
  lemma SelectedHasReason(
    requested: set<ResourceID>, selected: set<ResourceID>, resources: map<ResourceID, Resource>, id: ResourceID)
    requires IsClosure(selected, requested, resources) && id in selected - requested
    ensures id in resources && HasReason(resources[id], selected - {id}, resources)
  {
    Needed(requested, selected, resources, id);
    ReasonsAgree(resources[id], selected - {id}, resources);
  }

  lemma EdgesAgree(r: Resource, selected: set<ResourceID>)
    ensures Edges(r) * selected != {} <==> HasSelectedDependency(r, selected)
  {
    if HasSelectedDependency(r, selected) {
      var edge :| edge in Edges(r) && edge in selected;
      assert edge in Edges(r) * selected;
    }
  }

  /** A serving artifact loses its support only through the selection. */
  lemma LossIsSelected(p: Projection, selected: set<ResourceID>, id: ResourceID)
    requires ValidProjection(p) && id in Serving(p)
    requires p.resources[id].kind.DerivedArtifact? && HasReason(p.resources[id], selected, p.resources)
    ensures Edges(p.resources[id]) * selected != {}
  {
    var r := p.resources[id];
    assert ResourceFits(p, id);
    if Edges(r) * selected == {} {
      UntouchedSupport(r, r.security.value, selected, p.resources);
      ReasonsAgree(r, selected, p.resources);
    }
  }

  /** Over a valid base the closure of a request is decided resource by resource. */
  lemma SelectedExactly(p: Projection, requested: set<ResourceID>, selected: set<ResourceID>, id: ResourceID)
    requires ValidProjection(p) && IsClosure(selected, requested, p.resources)
    requires id in p.resources && id !in requested
    requires p.resources[id].kind.DerivedArtifact? && p.resources[id].security.Some? ==> id in Serving(p)
    ensures id in selected <==> HasReason(p.resources[id], selected - {id}, p.resources)
  {
    var r := p.resources[id];
    if id in selected {
      SelectedHasReason(requested, selected, p.resources, id);
    } else if HasReason(r, selected - {id}, p.resources) {
      assert selected - {id} == selected;
      if r.kind.DerivedArtifact? && r.security.Some? {
        LossIsSelected(p, selected, id);
      } else {
        EdgesAgree(r, selected);
      }
      ReasonsAgree(r, selected, p.resources);
    }
  }

  /** What the plan then means for readers: one complete group outside the selection keeps an artifact serving. */
  lemma AlternativeKeepsServing(
    plan: Plan, current: Projection, requested: set<ResourceID>, selected: set<ResourceID>, desired: seq<Resource>,
    results: seq<OperationResult>, id: ResourceID, key: nat)
    requires Plannable(plan.run, current, desired, Revoke)
    requires IsPlanFor(plan, plan.run, current, TargetMap(plan.run, desired), Revoke)
    requires IsClosure(selected, requested, current.resources) && CarriesForward(plan.run, current, selected, desired)
    requires plan !in current.applied
    requires CompleteResults(plan, results) && AllSucceeded(plan.operations, Outcomes(results))
    requires id in Serving(current) && id !in requested
    requires current.resources[id].kind.DerivedArtifact? && current.resources[id].security.Some?
    requires var record := current.resources[id].security.value;
             && record.mode.AnySupport? && key in record.supports && record.supports[key].complete
             && forall member | member in record.supports[key].resources ::
                  member.id in Serving(current) && member.id !in selected
    ensures Replay(plan, current, results).Ok?
    ensures id in Serving(Replay(plan, current, results).value.0)
  {
    AlternativeSpared(current, requested, selected, id, key);
    hide Plannable, IsPlanFor, IsClosure, CompleteResults, AllSucceeded, CarryForward, Replay, TargetMap;
    RevocationServes(plan, current, selected, desired, results);
  }

  lemma AlternativeSpared(p: Projection, requested: set<ResourceID>, selected: set<ResourceID>, id: ResourceID, key: nat)
    requires IsClosure(selected, requested, p.resources) && id in Serving(p) && id !in requested
    requires p.resources[id].kind.DerivedArtifact? && p.resources[id].security.Some?
    requires var record := p.resources[id].security.value;
             && record.mode.AnySupport? && key in record.supports && record.supports[key].complete
             && forall member | member in record.supports[key].resources ::
                  member.id in Serving(p) && member.id !in selected
    ensures IsCarried(p, selected, id)
  {
    hide IsClosure;
    assert !LosesMember(p.resources[id].security.value.supports[key], selected - {id}, p.resources);
    assert !HasReason(p.resources[id], selected - {id}, p.resources);
    if id in selected {
      SelectedHasReason(requested, selected, p.resources, id);
    }
  }

  function MemberIDs(group: SupportGroup): set<ResourceID> {
    set member | member in group.resources :: member.id
  }

  /**
   A carried artifact keeps exactly the groups its mode can still count, with their
   members at the new projection, and depends on exactly those members.
   */
  lemma CarriedRecord(run: SyncRun, r: Resource, selected: set<ResourceID>, resources: map<ResourceID, Resource>)
    requires r.kind.DerivedArtifact? && r.security.Some?
    requires CarryForward(run, r, selected, resources).Ok?
    ensures var c := CarryForward(run, r, selected, resources).value;
            var before, after := r.security.value, c.security;
            && after.Some? && after.value.mode == before.mode && after.value.watermark == run.version
            && c == r.(versions := r.versions.(projection := run.version), deps := c.deps, security := after)
            && (forall key :: key in after.value.supports <==>
                  && key in before.supports
                  && (before.mode.AnySupport? ==>
                        before.supports[key].complete && !LosesMember(before.supports[key], selected, resources)))
            && (forall key | key in after.value.supports ::
                  && after.value.supports[key].complete == before.supports[key].complete
                  && MemberIDs(after.value.supports[key]) == MemberIDs(before.supports[key])
                  && forall member | member in after.value.supports[key].resources ::
                       member.versions.projection == run.version)
            && (forall id :: id in c.deps <==>
                  exists key | key in after.value.supports :: id in MemberIDs(after.value.supports[key]))
  {
    var before := r.security.value;
    forall key | key in before.supports
      ensures GroupAvailable(before.supports[key], selected, resources)
         <==> before.supports[key].complete && !LosesMember(before.supports[key], selected, resources)
      ensures MemberIDs(RebindGroup(run.version, before.supports[key])) == MemberIDs(before.supports[key])
    {
      MembersAgree(before.supports[key], selected, resources);
      ReboundMembers(run.version, before.supports[key]);
    }
    hide GroupAvailable, LosesMember, MemberIDs;
    MembersByGroup(CarryForward(run, r, selected, resources).value.security.value);
  }

  lemma MembersByGroup(record: SecurityRecord)
    ensures forall id :: id in record.Members() <==>
              exists key | key in record.supports :: id in MemberIDs(record.supports[key])
  {
  }

  lemma ReboundMembers(version: Version, group: SupportGroup)
    ensures MemberIDs(RebindGroup(version, group)) == MemberIDs(group)
  {
    forall id | id in MemberIDs(group) ensures id in MemberIDs(RebindGroup(version, group)) {
      var member :| member in group.resources && member.id == id;
      assert member.(versions := member.versions.(projection := version)) in RebindGroup(version, group).resources;
    }
  }

  /** The same evidence, read at the new snapshot and projection. */
  predicate Moved(run: SyncRun, before: EvidenceRef, after: EvidenceRef) {
    && after.id == before.id && after.kind == before.kind
    && after.versions == before.versions.(source := run.snapshot.version, projection := run.version)
    && after.document == before.document.(source := run.snapshot.version, projection := run.version)
  }

  /** A carried claim keeps its statement and all of its evidence; other resources keep everything. */
  lemma CarriedClaim(run: SyncRun, r: Resource, selected: set<ResourceID>, resources: map<ResourceID, Resource>)
    requires !(r.kind.DerivedArtifact? && r.security.Some?) && CarryForward(run, r, selected, resources).Ok?
    ensures var c := CarryForward(run, r, selected, resources).value;
            && c == r.(versions := r.versions.(projection := run.version), claimRecord := c.claimRecord)
            && (!(r.kind.Claim? && r.claimRecord.Some?) ==> c.claimRecord == r.claimRecord)
            && (r.kind.Claim? && r.claimRecord.Some? ==>
                  && c.claimRecord.Some?
                  && var before, after := r.claimRecord.value, c.claimRecord.value;
                     && after.binding == before.binding && after.provenance.mode == before.provenance.mode
                     && after.source == before.source.(source := run.snapshot.version, projection := run.version)
                     && after.provenance.supports.Keys == before.provenance.supports.Keys
                     && forall key | key in before.provenance.supports ::
                          SameSupport(run, before.provenance.supports[key], after.provenance.supports[key]))
  {
    if r.kind.Claim? && r.claimRecord.Some? {
      var before, after := r.claimRecord.value, RebindClaim(run, r.claimRecord.value);
      forall key | key in before.provenance.supports
        ensures SameSupport(run, before.provenance.supports[key], after.provenance.supports[key])
      {
        SupportMoved(run, before.provenance.supports[key], after.provenance.supports[key]);
      }
    }
  }

  ghost predicate SameSupport(run: SyncRun, before: Support, after: Support) {
    && after.complete == before.complete
    && (forall e | e in before.evidence :: exists f :: f in after.evidence && Moved(run, e, f))
    && (forall f | f in after.evidence :: exists e :: e in before.evidence && Moved(run, e, f))
  }

  lemma SupportMoved(run: SyncRun, before: Support, after: Support)
    requires after == before.(evidence := set e | e in before.evidence :: RebindEvidence(run, e))
    ensures SameSupport(run, before, after)
  {
    forall e | e in before.evidence ensures exists f :: f in after.evidence && Moved(run, e, f) {
      assert RebindEvidence(run, e) in after.evidence && Moved(run, e, RebindEvidence(run, e));
    }
    forall f | f in after.evidence ensures exists e :: e in before.evidence && Moved(run, e, f) {
      var e :| e in before.evidence && f == RebindEvidence(run, e);
      assert Moved(run, e, f);
    }
  }
}
