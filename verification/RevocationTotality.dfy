/**
 When revocation planning succeeds. The least closed selection never strands a
 carried resource that is not a chunk, so a plan exists unless the run does not
 fit the base, a chunk with dependencies of its own outlives its document, or a
 retired artifact still points at a resource the base had already retired.
 */
module RevocationTotality {
  import opened Wrappers
  import opened Catalog
  import opened Planner
  import opened Revocation

  function LiveDocuments(p: Projection): set<ResourceID> {
    set id | id in Live(p) && p.resources[id].kind.Document?
  }

  /** The run continues the base: same scope, version, domain and documents. */
  predicate ContinuesBase(run: SyncRun, p: Projection) {
    && run.state.RunStaged?
    && p.scope == run.scope
    && p.version == run.base
    && p.snapshot.domain == run.snapshot.domain
    && run.snapshot.documentCount == |LiveDocuments(p)|
  }

  /** Chunks go with their documents even when their edges lead elsewhere. */
  predicate ChunksFollow(p: Projection, selected: set<ResourceID>) {
    forall id | id in Live(p) && IsCarried(p, selected, id) && p.resources[id].kind.Chunk? ::
      p.resources[id].authzResource !in selected
  }

  /** What is retired depends on resources the new projection still records. */
  predicate RetiredResolve(p: Projection, selected: set<ResourceID>) {
    forall id | id in Live(p) && !IsCarried(p, selected, id) :: p.resources[id].deps <= Live(p)
  }

  ghost predicate RevocationFits(run: SyncRun, p: Projection, selected: set<ResourceID>) {
    && ContinuesBase(run, p)
    && ((exists id :: IsCarried(p, selected, id)) ==> run.snapshot.version == p.snapshot.version)
    && ChunksFollow(p, selected)
    && RetiredResolve(p, selected)
  }

  /** The situation in which the resources to carry forward are known. */
  ghost predicate Selected(
    run: SyncRun, p: Projection, selected: set<ResourceID>, desired: seq<Resource>)
  {
    && ValidRun(run)
    && ValidProjection(p) && p.state.StatePublished?
    && Closed(selected, p.resources)
    && CarriesForward(run, p, selected, desired)
  }

  // What is carried forward stays served.

  lemma CarriedServes(p: Projection, selected: set<ResourceID>, id: ResourceID)
    requires ValidProjection(p) && p.state.StatePublished? && IsCarried(p, selected, id)
    ensures p.resources[id].IsServing()
  {
    assert ResourceFits(p, id);
  }

  lemma DependencyCarried(p: Projection, selected: set<ResourceID>, id: ResourceID, dependency: ResourceID)
    requires ValidProjection(p) && p.state.StatePublished? && Closed(selected, p.resources)
    requires IsCarried(p, selected, id) && !p.resources[id].kind.DerivedArtifact?
    requires dependency in p.resources[id].deps
    ensures IsCarried(p, selected, dependency) && p.resources[dependency].IsServing()
  {
    CarriedServes(p, selected, id);
    assert ResourceFits(p, id);
    var r := p.resources[id];
    if dependency in selected {
      assert dependency in Edges(r) * selected;
      assert Invalidated(r, selected, p.resources);
      assert false;
    }
  }

  /** The members of a rebound record are the available ones, and those are carried. */
  lemma MemberCarried(
    p: Projection, selected: set<ResourceID>, id: ResourceID, version: Version, key: nat, identity: ResourceIdentity)
    requires ValidProjection(p) && p.state.StatePublished? && Closed(selected, p.resources)
    requires IsCarried(p, selected, id) && p.resources[id].kind.DerivedArtifact? && p.resources[id].security.Some?
    requires key in KeptGroups(p.resources[id].security.value, version, selected, p.resources)
    requires identity in p.resources[id].security.value.supports[key].resources
    ensures IsCarried(p, selected, identity.id) && p.resources[identity.id].IsServing()
    ensures p.resources[identity.id].Identity() == identity
  {
    var r := p.resources[id];
    var record := r.security.value;
    assert ResourceFits(p, id);
    assert MembersResolve(p.resources, record.supports[key]);
    assert Supported(record, selected, p.resources) by {
      CarriedServes(p, selected, id);
      if Edges(r) * selected != {} {
        assert !Invalidated(r, selected, p.resources);
      } else {
        UntouchedSupport(r, record, selected, p.resources);
      }
    }
    assert Available(identity, selected, p.resources);
  }

  // The targets.

  /** The carried resource `id` as the plan desires it. */
  function Carried(run: SyncRun, p: Projection, selected: set<ResourceID>, id: ResourceID): Resource
    requires id in p.resources && CarryForward(run, p.resources[id], selected, p.resources).Ok?
  {
    CarryForward(run, p.resources[id], selected, p.resources).value
  }

  lemma TargetIs(run: SyncRun, p: Projection, selected: set<ResourceID>, desired: seq<Resource>, id: ResourceID)
    requires CarriesForward(run, p, selected, desired)
    ensures id in TargetMap(run, desired) <==> IsCarried(p, selected, id)
    ensures IsCarried(p, selected, id) ==>
              && CarryForward(run, p.resources[id], selected, p.resources).Ok?
              && TargetMap(run, desired)[id] == Target(run, Carried(run, p, selected, id))
              && Carried(run, p, selected, id) in desired
  {
    hide CarryForward;
    if IsCarried(p, selected, id) {
      var r :| r in desired && r.id == id;
      var i :| 0 <= i < |desired| && desired[i] == r;
      assert desired[i].id == id;
      TargetsKeyed(run, desired, id);
      var j :| 0 <= j < |desired| && desired[j].id == id
               && TargetMap(run, desired)[id] == Target(run, desired[j]);
      assert desired[j] in desired;
    }
    if id in TargetMap(run, desired) {
      var i :| 0 <= i < |desired| && desired[i].id == id;
      assert desired[i] in desired;
    }
  }

  // Each carried resource is acceptable.

  lemma ReboundSupport(run: SyncRun, mode: DerivationMode, support: Support, moved: Support)
    requires ValidRun(run) && ValidSupport(mode, support)
    requires moved == support.(evidence := set e | e in support.evidence :: RebindEvidence(run, e))
    ensures ValidSupport(mode, moved)
  {
    var e :| e in support.evidence;
    assert RebindEvidence(run, e) in moved.evidence;
  }

  lemma ReboundEvidence(run: SyncRun, record: ClaimRecord, e: EvidenceRef)
    ensures e in RebindClaim(run, record).provenance.Evidence()
       <==> exists f | f in record.provenance.Evidence() :: e == RebindEvidence(run, f)
  {
    var moved := RebindClaim(run, record);
    if e in moved.provenance.Evidence() {
      var key :| key in moved.provenance.supports && e in moved.provenance.supports[key].evidence;
      var f :| f in record.provenance.supports[key].evidence && e == RebindEvidence(run, f);
      assert f in record.provenance.Evidence();
    }
    if f :| f in record.provenance.Evidence() && e == RebindEvidence(run, f) {
      var key :| key in record.provenance.supports && f in record.provenance.supports[key].evidence;
      assert e in moved.provenance.supports[key].evidence;
    }
  }

  lemma ReboundClaimValid(run: SyncRun, record: ClaimRecord)
    requires ValidRun(run) && ValidClaimRecord(record)
    ensures ValidClaimRecord(RebindClaim(run, record))
  {
    hide ValidSupport;
    var moved := RebindClaim(run, record);
    forall key | key in moved.provenance.supports
      ensures ValidSupport(moved.provenance.mode, moved.provenance.supports[key])
    {
      ReboundSupport(run, record.provenance.mode, record.provenance.supports[key], moved.provenance.supports[key]);
    }
    var key :| key in record.provenance.supports;
    assert key in moved.provenance.supports;
    forall e | e in moved.provenance.Evidence()
      ensures e.document == moved.source
      ensures record.binding.SourceBacked? ==> e.kind.Document? || e.kind.Chunk?
    {
      ReboundEvidence(run, record, e);
    }
  }

  lemma CarriedShape(run: SyncRun, p: Projection, selected: set<ResourceID>, id: ResourceID)
    requires id in p.resources && CarryForward(run, p.resources[id], selected, p.resources).Ok?
    ensures var r, c := p.resources[id], Carried(run, p, selected, id);
            var moved := r.(versions := r.versions.(projection := run.version));
            if r.kind.DerivedArtifact? && r.security.Some? then
              var rebound := Rebound(moved, r.security.value, selected, p.resources);
              && c == moved.(deps := rebound.Members(), security := Some(rebound))
              && rebound.supports != map[] && ValidSecurityRecord(rebound)
            else if r.kind.Claim? && r.claimRecord.Some? then
              c == moved.(claimRecord := Some(RebindClaim(run, r.claimRecord.value)))
            else
              c == moved
  {
  }

  lemma ReboundMembers(record: SecurityRecord)
    requires ValidSecurityRecord(record)
    ensures record.Members() != {} && record.artifact.id !in record.Members()
  {
    var key :| key in record.supports;
    assert ValidGroup(record, record.supports[key]);
    var identity :| identity in record.supports[key].resources;
    assert identity.id in record.Members();
    forall k, other | k in record.supports && other in record.supports[k].resources
      ensures other.id != record.artifact.id
    {
      assert ValidGroup(record, record.supports[k]);
    }
  }

  lemma CarriedAcceptable(run: SyncRun, p: Projection, selected: set<ResourceID>, id: ResourceID)
    requires ValidRun(run) && ValidProjection(p) && p.state.StatePublished?
    requires p.scope == run.scope && p.snapshot.domain == run.snapshot.domain
    requires run.snapshot.version == p.snapshot.version
    requires IsCarried(p, selected, id) && CarryForward(run, p.resources[id], selected, p.resources).Ok?
    ensures Acceptable(run, Carried(run, p, selected, id))
  {
    hide CarryForward, ValidSecurityRecord, ValidClaimRecord, RebindClaim, Rebound;
    assert ResourceFits(p, id);
    CarriedShape(run, p, selected, id);
    CarriedServes(p, selected, id);
    var r := p.resources[id];
    var moved := r.(versions := r.versions.(projection := run.version));
    if r.kind.DerivedArtifact? {
      ReboundIs(moved, r.security.value, selected, p.resources);
      ReboundMembers(Rebound(moved, r.security.value, selected, p.resources));
    } else if r.kind.Claim? && r.claimRecord.Some? {
      ReboundClaimValid(run, r.claimRecord.value);
      ReboundSource(run, r.claimRecord.value);
    }
  }

  lemma ReboundIs(r: Resource, record: SecurityRecord, selected: set<ResourceID>, resources: map<ResourceID, Resource>)
    ensures var rebound := Rebound(r, record, selected, resources);
            && rebound.artifact == r.Identity() && rebound.scope == record.scope && rebound.domain == record.domain
  {
  }

  lemma ReboundSource(run: SyncRun, record: ClaimRecord)
    ensures RebindClaim(run, record).source
         == record.source.(source := run.snapshot.version, projection := run.version)
  {
  }

  // The replacement is a valid projection.

  function Replaced(run: SyncRun, p: Projection, desired: seq<Resource>): map<ResourceID, Resource> {
    Replacement(run, p, TargetMap(run, desired), Revoke).resources
  }

  lemma ReplacedIs(run: SyncRun, p: Projection, selected: set<ResourceID>, desired: seq<Resource>, id: ResourceID)
    requires CarriesForward(run, p, selected, desired)
    ensures id in Replaced(run, p, desired) <==> id in Live(p)
    ensures IsCarried(p, selected, id) ==>
              && CarryForward(run, p.resources[id], selected, p.resources).Ok?
              && Replaced(run, p, desired)[id] == Published(Target(run, Carried(run, p, selected, id)))
    ensures id in Live(p) && !IsCarried(p, selected, id) ==>
              Replaced(run, p, desired)[id] == Retired(run, p.resources[id], Revoke)
  {
    hide CarryForward, Target, CarriesForward;
    TargetIs(run, p, selected, desired, id);
  }

  /** What a carried resource keeps in the new projection. */
  predicate Continues(run: SyncRun, r: Resource, next: Resource) {
    && next.id == r.id && next.kind == r.kind && next.scope == r.scope
    && next.authzObject == r.authzObject && next.authzResource == r.authzResource
    && next.digest == r.digest && next.domain == r.domain
    && next.versions == r.versions.(projection := run.version)
    && next.IsServing()
    && (!r.kind.DerivedArtifact? ==> next.deps == r.deps && next.security == r.security)
    && (!r.kind.Claim? ==> next.claimRecord == r.claimRecord)
  }

  lemma CarriedContinues(
    run: SyncRun, p: Projection, selected: set<ResourceID>, desired: seq<Resource>, id: ResourceID)
    requires Selected(run, p, selected, desired) && IsCarried(p, selected, id)
    ensures id in Replaced(run, p, desired) && Continues(run, p.resources[id], Replaced(run, p, desired)[id])
  {
    hide CarryForward, ValidProjection, CarriesForward, RebindClaim, Rebound, ValidSecurityRecord;
    ReplacedIs(run, p, selected, desired, id);
    CarriedShape(run, p, selected, id);
    CarriedServes(p, selected, id);
  }

  lemma ClaimDependencyContinues(
    run: SyncRun, p: Projection, selected: set<ResourceID>, desired: seq<Resource>, id: ResourceID,
    dependency: ResourceID)
    requires Selected(run, p, selected, desired) && IsCarried(p, selected, id)
    requires run.snapshot.version == p.snapshot.version
    requires p.resources[id].kind.Claim? && dependency in p.resources[id].deps
    ensures dependency in p.resources && dependency in Replaced(run, p, desired)
    ensures Continues(run, p.resources[dependency], Replaced(run, p, desired)[dependency])
    ensures p.resources[dependency].versions.source == run.snapshot.version
  {
    hide CarryForward, CarriesForward, Replaced, Closed;
    DependencyCarried(p, selected, id, dependency);
    CarriedContinues(run, p, selected, desired, dependency);
    assert ResourceFits(p, dependency);
  }

  lemma ClaimResolvedBefore(p: Projection, id: ResourceID)
    requires ValidProjection(p) && id in p.resources && p.resources[id].claimRecord.Some?
    ensures ClaimResolves(p.resources, p.resources[id])
    ensures p.resources[id].deps == ClaimDependencies(p.resources[id].claimRecord.value)
  {
    assert ResourceFits(p, id);
  }

  lemma EvidenceStillResolves(
    run: SyncRun, p: Projection, selected: set<ResourceID>, desired: seq<Resource>, id: ResourceID, e: EvidenceRef)
    requires Selected(run, p, selected, desired) && IsCarried(p, selected, id)
    requires run.snapshot.version == p.snapshot.version
    requires p.resources[id].kind.Claim? && p.resources[id].claimRecord.Some?
    requires e in RebindClaim(run, p.resources[id].claimRecord.value).provenance.Evidence()
    ensures EvidenceResolves(Replaced(run, p, desired), RebindClaim(run, p.resources[id].claimRecord.value).source, e)
  {
    hide CarryForward, CarriesForward, Replaced, Closed, ValidProjection, RebindClaim;
    var record := p.resources[id].claimRecord.value;
    ClaimResolvedBefore(p, id);
    ReboundSource(run, record);
    ReboundEvidence(run, record, e);
    var f :| f in record.provenance.Evidence() && e == RebindEvidence(run, f);
    assert EvidenceResolves(p.resources, record.source, f);
    assert f.id in ClaimDependencies(record);
    ClaimDependencyContinues(run, p, selected, desired, id, f.id);
  }

  lemma ClaimStillResolves(
    run: SyncRun, p: Projection, selected: set<ResourceID>, desired: seq<Resource>, id: ResourceID)
    requires Selected(run, p, selected, desired) && IsCarried(p, selected, id)
    requires run.snapshot.version == p.snapshot.version
    requires p.resources[id].kind.Claim? && p.resources[id].claimRecord.Some?
    ensures id in Replaced(run, p, desired)
    ensures ClaimResolves(Replaced(run, p, desired), Replaced(run, p, desired)[id])
  {
    hide CarryForward, CarriesForward, Replaced, RebindClaim, Closed, ValidProjection, EvidenceResolves;
    ReplacedIs(run, p, selected, desired, id);
    CarriedShape(run, p, selected, id);
    ClaimResolvedBefore(p, id);
    var record := p.resources[id].claimRecord.value;
    var moved := RebindClaim(run, record);
    ReboundSource(run, record);
    ReboundDependencies(run, record);
    forall e | e in moved.provenance.Evidence()
      ensures EvidenceResolves(Replaced(run, p, desired), moved.source, e)
    {
      EvidenceStillResolves(run, p, selected, desired, id, e);
    }
    assert record.source.id in ClaimDependencies(record);
    ClaimDependencyContinues(run, p, selected, desired, id, record.source.id);
    if record.binding.SourceBacked? {
      ClaimDependencyContinues(run, p, selected, desired, id, record.binding.subjectID);
      ClaimDependencyContinues(run, p, selected, desired, id, record.binding.objectID);
    }
  }

  lemma ReboundDependencies(run: SyncRun, record: ClaimRecord)
    ensures ClaimDependencies(RebindClaim(run, record)) == ClaimDependencies(record)
    ensures RebindClaim(run, record).binding == record.binding
  {
    var moved := RebindClaim(run, record);
    ReboundEvidenceIDs(run, record, moved);
    assert moved.binding == record.binding && moved.source.id == record.source.id;
    hide RebindClaim;
    assert ClaimDependencies(moved) == ClaimDependencies(record);
  }

  lemma ReboundEvidenceIDs(run: SyncRun, record: ClaimRecord, moved: ClaimRecord)
    requires moved == RebindClaim(run, record)
    ensures (set e | e in moved.provenance.Evidence() :: e.id) == (set e | e in record.provenance.Evidence() :: e.id)
  {
    hide RebindClaim;
    forall e | e in moved.provenance.Evidence()
      ensures exists f :: f in record.provenance.Evidence() && f.id == e.id
    {
      ReboundEvidence(run, record, e);
    }
    forall f | f in record.provenance.Evidence()
      ensures exists e :: e in moved.provenance.Evidence() && e.id == f.id
    {
      ReboundEvidence(run, record, RebindEvidence(run, f));
      assert RebindEvidence(run, f).id == f.id;
    }
  }

  lemma MemberContinues(
    run: SyncRun, p: Projection, selected: set<ResourceID>, desired: seq<Resource>, id: ResourceID, key: nat,
    identity: ResourceIdentity)
    requires Selected(run, p, selected, desired) && IsCarried(p, selected, id)
    requires p.resources[id].kind.DerivedArtifact? && p.resources[id].security.Some?
    requires var kept := KeptGroups(p.resources[id].security.value, run.version, selected, p.resources);
             key in kept && identity in kept[key].resources
    ensures identity.id in Replaced(run, p, desired)
    ensures Replaced(run, p, desired)[identity.id].Identity() == identity
    ensures Replaced(run, p, desired)[identity.id].IsServing()
  {
    hide CarryForward, CarriesForward, Replaced, ValidProjection, Closed;
    var record := p.resources[id].security.value;
    var old_ :| old_ in record.supports[key].resources
             && identity == old_.(versions := old_.versions.(projection := run.version));
    MemberCarried(p, selected, id, run.version, key, old_);
    CarriedContinues(run, p, selected, desired, identity.id);
  }

  lemma ArtifactStillResolves(
    run: SyncRun, p: Projection, selected: set<ResourceID>, desired: seq<Resource>, id: ResourceID)
    requires Selected(run, p, selected, desired) && IsCarried(p, selected, id)
    requires p.resources[id].kind.DerivedArtifact?
    ensures id in Replaced(run, p, desired)
    ensures ArtifactResolves(Replaced(run, p, desired), Replaced(run, p, desired)[id])
    ensures Replaced(run, p, desired)[id].deps != {}
    ensures forall dependency | dependency in Replaced(run, p, desired)[id].deps :: dependency in Replaced(run, p, desired)
  {
    hide CarryForward, CarriesForward, Replaced, ValidProjection, Closed, KeptGroups;
    CarriedServes(p, selected, id);
    ReplacedIs(run, p, selected, desired, id);
    CarriedShape(run, p, selected, id);
    var r := p.resources[id];
    var record := r.security.value;
    var kept := KeptGroups(record, run.version, selected, p.resources);
    var rebound := Rebound(r.(versions := r.versions.(projection := run.version)), record, selected, p.resources);
    assert rebound.supports == kept;
    ReboundMembers(rebound);
    forall key, identity | key in kept && identity in kept[key].resources
      ensures identity.id in Replaced(run, p, desired)
      ensures Replaced(run, p, desired)[identity.id].Identity() == identity
      ensures Replaced(run, p, desired)[identity.id].IsServing()
    {
      MemberContinues(run, p, selected, desired, id, key, identity);
    }
    forall key | key in kept
      ensures MembersResolve(Replaced(run, p, desired), kept[key])
      ensures MembersServing(Replaced(run, p, desired), kept[key])
    {
    }
    var key :| key in kept;
    assert ValidGroup(rebound, kept[key]);
  }

  lemma ServedValid(target: Resource)
    requires ValidResource(target)
    ensures ValidResource(Published(target))
  {
    hide ValidClaimRecord, ValidSecurityRecord;
    assert Published(target).Identity() == target.Identity();
  }

  lemma CarriedWithin(
    run: SyncRun, p: Projection, selected: set<ResourceID>, desired: seq<Resource>, id: ResourceID, next: Resource)
    requires Selected(run, p, selected, desired) && RevocationFits(run, p, selected)
    requires IsCarried(p, selected, id)
    requires CarryForward(run, p.resources[id], selected, p.resources).Ok?
    requires next == Published(Target(run, Carried(run, p, selected, id)))
    ensures ValidResource(next)
    ensures next.scope == run.scope && next.domain == run.snapshot.domain
    ensures next.versions.source == run.snapshot.version && next.versions.projection == run.version
  {
    hide CarryForward, ValidProjection, ValidClaimMetadata, ValidSecurityRecord;
    CarriedAcceptable(run, p, selected, id);
    var target := Target(run, Carried(run, p, selected, id));
    ServedValid(target);
  }

  lemma DependenciesStillResolve(
    run: SyncRun, p: Projection, selected: set<ResourceID>, desired: seq<Resource>, id: ResourceID)
    requires Selected(run, p, selected, desired) && IsCarried(p, selected, id)
    ensures id in Replaced(run, p, desired)
    ensures DependenciesResolve(Replaced(run, p, desired), Replaced(run, p, desired)[id])
  {
    hide CarryForward, CarriesForward, Replaced, Closed, ClaimResolves, ArtifactResolves;
    CarriedContinues(run, p, selected, desired, id);
    CarriedServes(p, selected, id);
    assert ResourceFits(p, id);
    if p.resources[id].kind.DerivedArtifact? {
      ArtifactStillResolves(run, p, selected, desired, id);
    } else {
      forall dependency | dependency in p.resources[id].deps
        ensures dependency in Replaced(run, p, desired) && Replaced(run, p, desired)[dependency].IsServing()
      {
        DependencyCarried(p, selected, id, dependency);
        CarriedContinues(run, p, selected, desired, dependency);
      }
    }
  }

  /** A resource without a record of its kind has nothing to resolve. */
  lemma RecordsStillResolve(
    run: SyncRun, p: Projection, selected: set<ResourceID>, desired: seq<Resource>, id: ResourceID)
    requires Selected(run, p, selected, desired) && IsCarried(p, selected, id)
    requires run.snapshot.version == p.snapshot.version && ChunksFollow(p, selected)
    ensures id in Replaced(run, p, desired)
    ensures ClaimResolves(Replaced(run, p, desired), Replaced(run, p, desired)[id])
    ensures ArtifactResolves(Replaced(run, p, desired), Replaced(run, p, desired)[id])
    ensures ChunkResolves(Replaced(run, p, desired), Replaced(run, p, desired)[id])
  {
    hide CarryForward, CarriesForward, Replaced, Closed, ValidProjection, RebindClaim, Rebound;
    CarriedContinues(run, p, selected, desired, id);
    ReplacedIs(run, p, selected, desired, id);
    CarriedShape(run, p, selected, id);
    NoStrayRecords(p, id);
    if p.resources[id].kind.Claim? && p.resources[id].claimRecord.Some? {
      ClaimStillResolves(run, p, selected, desired, id);
    }
    if p.resources[id].kind.DerivedArtifact? {
      ArtifactStillResolves(run, p, selected, desired, id);
    }
    if p.resources[id].kind.Chunk? {
      ChunkStillResolves(run, p, selected, desired, id);
    }
  }

  lemma NoStrayRecords(p: Projection, id: ResourceID)
    requires ValidProjection(p) && id in p.resources
    ensures p.resources[id].claimRecord.Some? ==> p.resources[id].kind.Claim?
    ensures p.resources[id].security.Some? ==> p.resources[id].kind.DerivedArtifact?
    ensures p.resources[id].id == id
  {
    assert ResourceFits(p, id);
  }

  lemma CarriedFits(
    run: SyncRun, p: Projection, selected: set<ResourceID>, desired: seq<Resource>, next: Projection, id: ResourceID)
    requires Selected(run, p, selected, desired) && RevocationFits(run, p, selected)
    requires IsCarried(p, selected, id) && next == Replacement(run, p, TargetMap(run, desired), Revoke)
    ensures id in next.resources && ResourceFits(next, id)
  {
    hide CarryForward, CarriesForward, Closed, ClaimResolves, ArtifactResolves, DependenciesResolve, ChunkResolves;
    hide ValidResource, ValidProjection, Target;
    assert next.resources == Replaced(run, p, desired);
    ReplacedIs(run, p, selected, desired, id);
    CarriedContinues(run, p, selected, desired, id);
    CarriedWithin(run, p, selected, desired, id, next.resources[id]);
    RecordsStillResolve(run, p, selected, desired, id);
    DependenciesStillResolve(run, p, selected, desired, id);
    NoStrayRecords(p, id);
  }

  lemma ChunkStillResolves(
    run: SyncRun, p: Projection, selected: set<ResourceID>, desired: seq<Resource>, id: ResourceID)
    requires Selected(run, p, selected, desired) && ChunksFollow(p, selected)
    requires IsCarried(p, selected, id) && p.resources[id].kind.Chunk?
    ensures id in Replaced(run, p, desired)
    ensures ChunkResolves(Replaced(run, p, desired), Replaced(run, p, desired)[id])
    ensures IsCarried(p, selected, p.resources[id].authzResource)
  {
    hide CarryForward, CarriesForward, Replaced, Closed;
    CarriedServes(p, selected, id);
    assert ResourceFits(p, id);
    var document := p.resources[id].authzResource;
    CarriedContinues(run, p, selected, desired, id);
    CarriedContinues(run, p, selected, desired, document);
  }

  lemma RetiredFits(
    run: SyncRun, p: Projection, selected: set<ResourceID>, desired: seq<Resource>, next: Projection, id: ResourceID)
    requires Selected(run, p, selected, desired) && RevocationFits(run, p, selected)
    requires id in Live(p) && !IsCarried(p, selected, id)
    requires next == Replacement(run, p, TargetMap(run, desired), Revoke)
    ensures id in next.resources && ResourceFits(next, id)
  {
    hide CarryForward, CarriesForward, Closed, ClaimResolves, ArtifactResolves, ValidProjection, ValidResource;
    assert next.resources == Replaced(run, p, desired);
    ReplacedIs(run, p, selected, desired, id);
    hide Replaced, TargetMap;
    RetiredWithin(run, p, id);
    RetiredBare(run, p.resources[id], next.resources);
    forall dependency | dependency in p.resources[id].deps ensures dependency in next.resources {
      assert p.resources[id].deps <= Live(p);
      ReplacedIs(run, p, selected, desired, dependency);
    }
  }

  lemma RetiredWithin(run: SyncRun, p: Projection, id: ResourceID)
    requires ValidRun(run) && ValidProjection(p) && id in p.resources
    requires p.scope == run.scope && p.snapshot.domain == run.snapshot.domain
    ensures var r := Retired(run, p.resources[id], Revoke);
            ValidResource(r) && r.id == id && r.scope == run.scope && r.domain == run.snapshot.domain
  {
    assert ResourceFits(p, id);
  }

  lemma RetiredBare(run: SyncRun, r: Resource, resources: map<ResourceID, Resource>)
    ensures ClaimResolves(resources, Retired(run, r, Revoke)) && ArtifactResolves(resources, Retired(run, r, Revoke))
  {
  }

  /** Served or revoked, every live document of the base still counts. */
  lemma DocumentsCounted(run: SyncRun, p: Projection, selected: set<ResourceID>, desired: seq<Resource>)
    requires Selected(run, p, selected, desired)
    ensures CountedDocuments(Replaced(run, p, desired)) == LiveDocuments(p)
  {
    hide CarryForward, CarriesForward, Closed, Replaced, ValidProjection;
    forall id ensures id in CountedDocuments(Replaced(run, p, desired)) <==> id in LiveDocuments(p) {
      ReplacedIs(run, p, selected, desired, id);
      if IsCarried(p, selected, id) {
        CarriedContinues(run, p, selected, desired, id);
      }
    }
  }

  lemma ReplacementValid(run: SyncRun, p: Projection, selected: set<ResourceID>, desired: seq<Resource>)
    requires Selected(run, p, selected, desired) && RevocationFits(run, p, selected)
    ensures ValidProjection(Replacement(run, p, TargetMap(run, desired), Revoke))
  {
    hide CarryForward, CarriesForward, Closed, ResourceFits;
    var next := Replacement(run, p, TargetMap(run, desired), Revoke);
    assert next.resources == Replaced(run, p, desired);
    hide Replaced;
    DocumentsCounted(run, p, selected, desired);
    forall id | id in next.resources ensures ResourceFits(next, id) {
      ReplacedIs(run, p, selected, desired, id);
      if IsCarried(p, selected, id) {
        CarriedFits(run, p, selected, desired, next, id);
      } else {
        RetiredFits(run, p, selected, desired, next, id);
      }
    }
  }

  lemma AllAcceptable(run: SyncRun, p: Projection, selected: set<ResourceID>, desired: seq<Resource>)
    requires Selected(run, p, selected, desired) && RevocationFits(run, p, selected)
    ensures forall r | r in desired :: Acceptable(run, r)
  {
    hide Acceptable, CarryForward, Closed, ValidProjection;
    forall r | r in desired ensures Acceptable(run, r) {
      assert IsCarried(p, selected, r.id);
      CarriedAcceptable(run, p, selected, r.id);
    }
  }

  lemma ChunksBounded(run: SyncRun, p: Projection, selected: set<ResourceID>, desired: seq<Resource>)
    requires Selected(run, p, selected, desired) && ChunksFollow(p, selected)
    ensures ChunkBoundaries(TargetMap(run, desired))
  {
    hide CarryForward, CarriesForward, Closed, ValidProjection, Replaced;
    var targets := TargetMap(run, desired);
    forall id | id in targets && targets[id].kind.Chunk?
      ensures var chunk := targets[id];
              && chunk.authzResource in targets
              && targets[chunk.authzResource].kind.Document?
              && InheritsBoundary(chunk, targets[chunk.authzResource])
    {
      TargetIs(run, p, selected, desired, id);
      ReplacedIs(run, p, selected, desired, id);
      CarriedContinues(run, p, selected, desired, id);
      ChunkStillResolves(run, p, selected, desired, id);
      var document := p.resources[id].authzResource;
      TargetIs(run, p, selected, desired, document);
      ReplacedIs(run, p, selected, desired, document);
    }
  }

  // And only then.

  lemma PlannedFits(run: SyncRun, p: Projection, selected: set<ResourceID>, desired: seq<Resource>)
    requires Selected(run, p, selected, desired) && Plannable(run, p, desired, Revoke)
    ensures RevocationFits(run, p, selected)
  {
    hide CarryForward, Closed, ValidProjection, Replaced, Acceptable, Replacement, TargetMap, ChunkBoundaries;
    var next := Replacement(run, p, TargetMap(run, desired), Revoke);
    SameReplaced(run, p, desired);
    PublishedCount(next);
    DocumentsCounted(run, p, selected, desired);
    if id :| IsCarried(p, selected, id) {
      var r :| r in desired && r.id == id;
      SourceUnchanged(run, p, selected, r);
    }
    forall id | id in Live(p) && IsCarried(p, selected, id) && p.resources[id].kind.Chunk?
      ensures p.resources[id].authzResource !in selected
    {
      ChunkTargeted(run, p, selected, desired, id);
    }
    forall id, dependency | id in Live(p) && !IsCarried(p, selected, id) && dependency in p.resources[id].deps
      ensures dependency in Live(p)
    {
      RetiredDependency(run, p, selected, desired, id, dependency);
    }
  }

  lemma PublishedCount(p: Projection)
    requires ValidProjection(p) && p.state.StatePublished?
    ensures |CountedDocuments(p.resources)| == p.snapshot.documentCount
  {
  }

  lemma SameReplaced(run: SyncRun, p: Projection, desired: seq<Resource>)
    ensures var next := Replacement(run, p, TargetMap(run, desired), Revoke);
            next.resources == Replaced(run, p, desired) && next.state.StatePublished? && next.snapshot == run.snapshot
  {
  }

  lemma SourceUnchanged(run: SyncRun, p: Projection, selected: set<ResourceID>, r: Resource)
    requires ValidProjection(p) && IsCarried(p, selected, r.id) && Acceptable(run, r)
    requires CarryForward(run, p.resources[r.id], selected, p.resources) == Ok(r)
    ensures run.snapshot.version == p.snapshot.version
  {
    hide CarryForward;
    assert ResourceFits(p, r.id);
    CarriedShape(run, p, selected, r.id);
  }

  lemma ChunkTargeted(run: SyncRun, p: Projection, selected: set<ResourceID>, desired: seq<Resource>, id: ResourceID)
    requires Selected(run, p, selected, desired) && ChunkBoundaries(TargetMap(run, desired))
    requires IsCarried(p, selected, id) && p.resources[id].kind.Chunk?
    ensures p.resources[id].authzResource !in selected
  {
    hide CarryForward, CarriesForward, Closed, ValidProjection, Replaced;
    TargetIs(run, p, selected, desired, id);
    ReplacedIs(run, p, selected, desired, id);
    CarriedContinues(run, p, selected, desired, id);
    TargetIs(run, p, selected, desired, p.resources[id].authzResource);
  }

  lemma RetiredDependency(
    run: SyncRun, p: Projection, selected: set<ResourceID>, desired: seq<Resource>, id: ResourceID,
    dependency: ResourceID)
    requires Selected(run, p, selected, desired)
    requires ValidProjection(Replacement(run, p, TargetMap(run, desired), Revoke))
    requires id in Live(p) && !IsCarried(p, selected, id) && dependency in p.resources[id].deps
    ensures dependency in Live(p)
  {
    hide CarryForward, CarriesForward, Closed;
    var next := Replacement(run, p, TargetMap(run, desired), Revoke);
    assert next.resources == Replaced(run, p, desired);
    ReplacedIs(run, p, selected, desired, id);
    assert ResourceFits(next, id);
    ReplacedIs(run, p, selected, desired, dependency);
  }

  /**
   Over a valid published base, what a revocation carries forward can be planned
   exactly when the run continues the base, every carried chunk keeps its
   document, and every retired resource depends on live resources only. Nothing
   else the closure spares is ever stranded by what it revokes.
   */
  lemma RevocationPlansExactly(run: SyncRun, p: Projection, selected: set<ResourceID>, desired: seq<Resource>)
    requires Selected(run, p, selected, desired)
    ensures Plannable(run, p, desired, Revoke) <==> RevocationFits(run, p, selected)
  {
    hide CarryForward, Closed, ValidProjection, Acceptable, Replacement, TargetMap;
    if Plannable(run, p, desired, Revoke) {
      PlannedFits(run, p, selected, desired);
    }
    if RevocationFits(run, p, selected) {
      ReplacementValid(run, p, selected, desired);
      AllAcceptable(run, p, selected, desired);
      ChunksBounded(run, p, selected, desired);
    }
  }

  // A request that cannot be planned.

  const AT_ONE := ResourceVersions(1, 1, 1, 1, 1, 1)

  function Plain(id: ResourceID, kind: ResourceType, boundary: ResourceID, deps: set<ResourceID>): Resource {
    Resource(id, kind, Scope(1, 1), 1, boundary, 1, AT_ONE, StatePublished, Succeeded, 0, 1, deps, None, None)
  }

  /** Documents 1 and 2, and a chunk of the first that depends on the second alone. */
  const BASE := Projection(
    Scope(1, 1), 1, Snapshot(Scope(1, 1), 1, 1, 1, 2), StatePublished,
    map[1 := Plain(1, Document, 1, {}), 2 := Plain(2, Document, 2, {}), 3 := Plain(3, Chunk, 1, {2})],
    {}, map[])

  const RUN := SyncRun(1, Scope(1, 1), Snapshot(Scope(1, 1), 1, 1, 1, 2), 1, 2, 1, RunStaged)

  lemma BaseValid()
    ensures ValidProjection(BASE) && Live(BASE) == {1, 2, 3} && LiveDocuments(BASE) == {1, 2}
  {
    assert CountedDocuments(BASE.resources) == {1, 2};
    forall id | id in BASE.resources ensures ResourceFits(BASE, id) {
    }
  }

  /** Revoking document 1 spares its chunk, and then no plan exists. */
  lemma RevocationMayBeRefused(desired: seq<Resource>)
    requires CarriesForward(RUN, BASE, {1}, desired)
    ensures ValidProjection(BASE) && ContinuesBase(RUN, BASE) && RUN.snapshot.version == BASE.snapshot.version
    ensures IsClosure({1}, {1}, BASE.resources)
    ensures !Plannable(RUN, BASE, desired, Revoke)
  {
    BaseValid();
    hide CarriesForward, Plannable, ValidProjection;
    assert Closed({1}, BASE.resources) by {
      forall id | id in BASE.resources && id !in {1} ensures Edges(BASE.resources[id]) * {1} == {} {
      }
    }
    assert IsCarried(BASE, {1}, 3) && 3 in Live(BASE) && BASE.resources[3].authzResource in {1};
    RevocationPlansExactly(RUN, BASE, {1}, desired);
  }

  /** Document 1 is served, document 2 was revoked, and artifact 3 needs either of them. */
  const ARTIFACT := ResourceIdentity(3, DerivedArtifact, 1, 3, 1, AT_ONE)

  const FIRST := ResourceIdentity(1, Document, 1, 1, 1, AT_ONE)
  const SECOND := ResourceIdentity(2, Document, 1, 2, 1, AT_ONE)

  const EITHER := SecurityRecord(
    ARTIFACT, AnySupport, map[1 := SupportGroup(true, {FIRST}), 2 := SupportGroup(true, {SECOND})],
    Scope(1, 1), 1, 1, 0)

  const HALF_REVOKED := Projection(
    Scope(1, 1), 1, Snapshot(Scope(1, 1), 1, 1, 1, 2), StatePublished,
    map[1 := Plain(1, Document, 1, {}),
        2 := Plain(2, Document, 2, {}).(state := StateRevoked),
        3 := Plain(3, DerivedArtifact, 3, {1, 2}).(security := Some(EITHER))],
    {}, map[])

  const NEXT_RUN := SyncRun(1, Scope(1, 1), Snapshot(Scope(1, 1), 1, 1, 1, 1), 1, 2, 1, RunStaged)

  lemma EitherMembers()
    ensures EITHER.Members() == {1, 2}
  {
    var supports := EITHER.supports;
    assert supports.Keys == {1, 2} && supports[1].resources == {FIRST} && supports[2].resources == {SECOND};
    assert FIRST.id in EITHER.Members() && SECOND.id in EITHER.Members();
    forall key, identity | key in supports && identity in supports[key].resources ensures identity.id in {1, 2} {
    }
  }

  lemma EitherValid()
    ensures ValidSecurityRecord(EITHER)
  {
    assert 1 in EITHER.supports;
    forall key | key in EITHER.supports ensures ValidGroup(EITHER, EITHER.supports[key]) {
      assert EITHER.supports[key].resources == {FIRST} || EITHER.supports[key].resources == {SECOND};
    }
  }

  lemma EitherResolves(resources: map<ResourceID, Resource>)
    requires 1 in resources && resources[1].Identity() == FIRST && resources[1].IsServing()
    requires 2 in resources && resources[2].Identity() == SECOND
    ensures forall key | key in EITHER.supports :: MembersResolve(resources, EITHER.supports[key])
    ensures 1 in EITHER.supports && EITHER.supports[1].complete && MembersServing(resources, EITHER.supports[1])
  {
    forall key | key in EITHER.supports ensures MembersResolve(resources, EITHER.supports[key]) {
      assert EITHER.supports[key].resources == {FIRST} || EITHER.supports[key].resources == {SECOND};
    }
    assert EITHER.supports[1].resources == {FIRST};
  }

  lemma ArtifactFits()
    ensures 3 in HALF_REVOKED.resources && ResourceFits(HALF_REVOKED, 3)
  {
    var resources := HALF_REVOKED.resources;
    assert resources[1] == Plain(1, Document, 1, {});
    assert resources[2] == Plain(2, Document, 2, {}).(state := StateRevoked);
    EitherMembers();
    EitherValid();
    EitherResolves(resources);
    hide ValidSecurityRecord, MembersResolve, MembersServing;
    assert ArtifactResolves(resources, resources[3]);
  }

  lemma DocumentFits(id: ResourceID)
    requires id == 1 || id == 2
    ensures id in HALF_REVOKED.resources && ResourceFits(HALF_REVOKED, id)
  {
    hide ArtifactResolves;
    Unsecured(HALF_REVOKED.resources, HALF_REVOKED.resources[id]);
  }

  /** Counting is over three resources of these kinds and states. */
  lemma CountsOf(p: Projection)
    requires p.resources.Keys == {1, 2, 3}
    requires p.resources[1].kind.Document? && p.resources[1].IsServing()
    requires p.resources[2].kind.Document? && p.resources[2].state.StateRevoked?
    requires p.resources[3].kind.DerivedArtifact? && p.resources[3].state.StatePublished?
    ensures CountedDocuments(p.resources) == {1, 2} && Live(p) == {1, 3} && LiveDocuments(p) == {1}
  {
    assert p.resources[1].state.StatePublished?;
  }

  lemma AllFit(p: Projection)
    requires p.version > 0 && p.snapshot.version > 0 && p.snapshot.scope == p.scope && p.resources.Keys == {1, 2, 3}
    requires ResourceFits(p, 1) && ResourceFits(p, 2) && ResourceFits(p, 3)
    requires |CountedDocuments(p.resources)| == p.snapshot.documentCount
    ensures ValidProjection(p)
  {
    hide ResourceFits;
    forall id | id in p.resources ensures ResourceFits(p, id) {
      assert id == 1 || id == 2 || id == 3;
    }
  }

  lemma HalfRevokedValid()
    ensures ValidProjection(HALF_REVOKED) && Live(HALF_REVOKED) == {1, 3} && LiveDocuments(HALF_REVOKED) == {1}
  {
    hide ResourceFits, ValidProjection, CountedDocuments, Live, LiveDocuments;
    assert HALF_REVOKED.resources.Keys == {1, 2, 3};
    CountsOf(HALF_REVOKED);
    ArtifactFits();
    DocumentFits(1);
    DocumentFits(2);
    AllFit(HALF_REVOKED);
  }

  lemma Unsecured(resources: map<ResourceID, Resource>, r: Resource)
    requires r.security.None?
    ensures ArtifactResolves(resources, r)
  {
  }

  /** Revoking artifact 3 keeps its dependency on document 2, which the new projection drops. */
  lemma RetiredMayNotResolve(desired: seq<Resource>)
    requires CarriesForward(NEXT_RUN, HALF_REVOKED, {3}, desired)
    ensures ValidProjection(HALF_REVOKED) && ContinuesBase(NEXT_RUN, HALF_REVOKED)
    ensures NEXT_RUN.snapshot.version == HALF_REVOKED.snapshot.version && ChunksFollow(HALF_REVOKED, {3})
    ensures IsClosure({3}, {3}, HALF_REVOKED.resources)
    ensures !Plannable(NEXT_RUN, HALF_REVOKED, desired, Revoke)
  {
    HalfRevokedValid();
    hide CarriesForward, Plannable, ValidProjection;
    assert Closed({3}, HALF_REVOKED.resources) by {
      forall id | id in HALF_REVOKED.resources && id !in {3} ensures Edges(HALF_REVOKED.resources[id]) * {3} == {} {
      }
    }
    assert 3 in Live(HALF_REVOKED) && !IsCarried(HALF_REVOKED, {3}, 3);
    assert 2 in HALF_REVOKED.resources[3].deps && 2 !in Live(HALF_REVOKED);
    RevocationPlansExactly(NEXT_RUN, HALF_REVOKED, {3}, desired);
  }
}
