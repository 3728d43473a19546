/** The graph projection derived from a published catalog projection. */
module GraphProjecting {
  import opened Wrappers
  import opened Catalog
  import opened GraphContract

  /** Serving resources take part, claims only when they are source backed. */
  predicate IsEligible(r: Resource) {
    r.IsServing() && (r.kind.Claim? ==> r.claimRecord.Some? && r.claimRecord.value.binding.SourceBacked?)
  }

  function Eligible(p: Projection): set<ResourceID> {
    set id | id in p.resources && IsEligible(p.resources[id])
  }

  function HandleOf(r: Resource): Handle {
    Handle(r.id, r.kind, r.scope, r.authzObject, r.authzResource, r.digest, r.versions)
  }

  function BindingOf(r: Resource): ResourceBinding {
    ResourceBinding(V2, NewGraphID(V2, HandleOf(r)), HandleOf(r))
  }

  predicate SameGraphVersions(left: Resource, right: Resource) {
    && left.versions.acl == right.versions.acl
    && left.versions.index == right.versions.index
    && left.versions.graph == right.versions.graph
  }

  /** Something to project, all of it at one ACL, index and graph version. */
  predicate GraphReady(p: Projection) {
    && Eligible(p) != {}
    && forall id, other | id in Eligible(p) && other in Eligible(p) ::
         SameGraphVersions(p.resources[id], p.resources[other])
  }

  // The projected resources.

  /** The eligible resources, once each, in this order. */
  predicate Lists(p: Projection, order: seq<ResourceID>) {
    Distinct(order) && (forall id | id in order :: id in Eligible(p)) && (forall id | id in Eligible(p) :: id in order)
  }

  predicate ProjectedResources(p: Projection, order: seq<ResourceID>, resources: seq<ResourceBinding>) {
    && Lists(p, order)
    && |resources| == |order|
    && forall i | 0 <= i < |order| :: order[i] in p.resources && resources[i] == BindingOf(p.resources[order[i]])
  }

  lemma ParentProjected(p: Projection, order: seq<ResourceID>, resources: seq<ResourceBinding>, id: ResourceID)
    requires ValidProjection(p) && ProjectedResources(p, order, resources)
    requires id in Eligible(p) && p.resources[id].kind.Chunk?
    ensures HasParent(resources, HandleOf(p.resources[id]))
  {
    assert ResourceFits(p, id);
    var parent := p.resources[id].authzResource;
    assert ChunkResolves(p.resources, p.resources[id]);
    assert ResourceFits(p, parent) && parent in Eligible(p);
    var i :| 0 <= i < |order| && order[i] == parent;
    assert resources[i] in resources;
  }

  /** The projected resources are valid exactly when the projection is ready for the graph. */
  lemma ResourcesValid(p: Projection, order: seq<ResourceID>, resources: seq<ResourceBinding>)
    requires ValidProjection(p) && ProjectedResources(p, order, resources)
    ensures ValidResources(resources) <==> GraphReady(p)
    ensures resources != [] ==> resources[0].contract == V2
  {
    if GraphReady(p) {
      ReadyIsValid(p, order, resources);
    } else if ValidResources(resources) {
      assert order[0] in order;
      forall id, other | id in Eligible(p) && other in Eligible(p)
        ensures SameGraphVersions(p.resources[id], p.resources[other])
      {
        var i :| 0 <= i < |order| && order[i] == id;
        var j :| 0 <= j < |order| && order[j] == other;
        assert resources[i] in resources && resources[j] in resources;
      }
    }
  }

  lemma ReadyIsValid(p: Projection, order: seq<ResourceID>, resources: seq<ResourceBinding>)
    requires ValidProjection(p) && ProjectedResources(p, order, resources) && GraphReady(p)
    ensures ValidResources(resources)
  {
    var some :| some in Eligible(p);
    assert some in order;
    assert order[0] in order && ResourceFits(p, order[0]);
    forall b | b in resources
      ensures ValidBinding(b) && b.contract == V2 && SameServing(resources[0].resource, b.resource)
      ensures b.resource.kind.Chunk? ==> HasParent(resources, b.resource)
    {
      var i :| 0 <= i < |resources| && resources[i] == b;
      assert order[i] in order && ResourceFits(p, order[i]);
      assert SameGraphVersions(p.resources[order[0]], p.resources[order[i]]);
      if b.resource.kind.Chunk? {
        ParentProjected(p, order, resources, order[i]);
      }
    }
    forall i, j | 0 <= i < j < |resources|
      ensures resources[i].graph != resources[j].graph && resources[i].resource.id != resources[j].resource.id
    {
      assert order[i] in order && order[j] in order;
      assert ResourceFits(p, order[i]) && ResourceFits(p, order[j]);
    }
  }

  function GraphOf(p: Projection, id: ResourceID): GraphID {
    GraphID(V2, p.version, id)
  }

  function GraphsOf(p: Projection, ids: set<ResourceID>): set<GraphID> {
    set id | id in ids :: GraphOf(p, id)
  }

  /** An eligible resource is found under its graph id. */
  lemma EligibleIsBound(p: Projection, order: seq<ResourceID>, resources: seq<ResourceBinding>, id: ResourceID)
    requires ValidProjection(p) && ProjectedResources(p, order, resources) && ValidResources(resources)
    requires id in Eligible(p)
    ensures GraphOf(p, id) in ByGraph(resources) && ByGraph(resources)[GraphOf(p, id)] == HandleOf(p.resources[id])
    ensures p.resources[id].id == id
  {
    assert ResourceFits(p, id);
    var i :| 0 <= i < |order| && order[i] == id;
    assert resources[i] in resources;
    BoundAt(resources, resources[i]);
  }

  // The projected claims.

  function EvidenceIDs(support: Support): set<ResourceID> {
    set e | e in support.evidence :: e.id
  }

  function ProjectedSupport(p: Projection, key: nat, support: Support): SupportBinding {
    SupportBinding(NamedSupport(key), GraphsOf(p, EvidenceIDs(support)), EvidenceIDs(support))
  }

  ghost predicate ProjectsSupports(
    p: Projection, provenance: Provenance, supports: seq<SupportBinding>, keys: seq<nat>)
  {
    && |keys| == |supports| && Distinct(keys)
    && (forall key :: key in keys <==> key in provenance.supports)
    && (forall i | 0 <= i < |keys| ::
          assert keys[i] in keys;
          supports[i] == ProjectedSupport(p, keys[i], provenance.supports[keys[i]]))
  }

  function AllEvidenceIDs(provenance: Provenance): set<ResourceID> {
    set e | e in provenance.Evidence() :: e.id
  }

  /** A source backed claim as a triple over the bound resources. */
  ghost predicate ProjectsClaim(p: Projection, claim: Resource, c: ClaimTriple) {
    && claim.claimRecord.Some? && claim.claimRecord.value.binding.SourceBacked?
    && var record := claim.claimRecord.value;
       var binding := record.binding;
       && c == ClaimTriple(
            V2, GraphOf(p, claim.id), GraphOf(p, binding.subjectID), binding.predicateKey, GraphOf(p, binding.objectID),
            GraphOf(p, record.source.id), record.provenance.mode, GraphsOf(p, AllEvidenceIDs(record.provenance)),
            Some(binding.subjectID), Some(binding.objectID), Some(record.source.id), Some(record.source.source),
            AllEvidenceIDs(record.provenance), c.supports)
       && exists keys :: ProjectsSupports(p, record.provenance, c.supports, keys)
  }

  lemma {:induction false} GraphsAsMany(p: Projection, ids: set<ResourceID>)
    ensures |GraphsOf(p, ids)| == |ids|
    decreases ids
  {
    if ids == {} {
      assert GraphsOf(p, ids) == {};
    } else {
      var id :| id in ids;
      GraphsAsMany(p, ids - {id});
      assert GraphsOf(p, ids) == GraphsOf(p, ids - {id}) + {GraphOf(p, id)};
    }
  }

  /** Everything a serving source backed claim depends on takes part in the graph. */
  lemma DependenciesEligible(p: Projection, id: ResourceID)
    requires ValidProjection(p) && id in Eligible(p) && p.resources[id].kind.Claim?
    ensures var record := p.resources[id].claimRecord.value;
            && record.source.id in Eligible(p) && p.resources[record.source.id].kind.Document?
            && record.binding.subjectID in Eligible(p) && p.resources[record.binding.subjectID].kind.Entity?
            && record.binding.objectID in Eligible(p) && p.resources[record.binding.objectID].kind.Entity?
            && p.resources[record.source.id].versions.source == record.source.source
  {
    var claim := p.resources[id];
    assert ResourceFits(p, id);
    var record := claim.claimRecord.value;
    assert ClaimResolves(p.resources, claim);
    assert record.source.id in claim.deps && record.binding.subjectID in claim.deps && record.binding.objectID in claim.deps;
    assert DependenciesResolve(p.resources, claim);
  }

  lemma EvidenceEligible(p: Projection, id: ResourceID, e: EvidenceRef)
    requires ValidProjection(p) && id in Eligible(p) && p.resources[id].kind.Claim?
    requires e in p.resources[id].claimRecord.value.provenance.Evidence()
    ensures IsSourceEvidence(p, e.id, p.resources[id].claimRecord.value.source.id)
  {
    var claim := p.resources[id];
    assert ResourceFits(p, id);
    var record := claim.claimRecord.value;
    assert ClaimResolves(p.resources, claim) && ValidClaimRecord(record);
    assert EvidenceResolves(p.resources, record.source, e);
    assert e.id in claim.deps;
    assert DependenciesResolve(p.resources, claim);
  }

  /** A document or chunk that takes part in the graph, within the source document. */
  predicate IsSourceEvidence(p: Projection, id: ResourceID, source: ResourceID) {
    && id in Eligible(p)
    && (p.resources[id].kind.Document? || p.resources[id].kind.Chunk?)
    && (id == source || p.resources[id].authzResource == source)
  }

  predicate SourceEvidence(p: Projection, ids: set<ResourceID>, source: ResourceID) {
    forall id | id in ids :: IsSourceEvidence(p, id, source)
  }

  lemma EvidenceFits(
    p: Projection, order: seq<ResourceID>, resources: seq<ResourceBinding>, ids: set<ResourceID>, source: ResourceID)
    requires ValidProjection(p) && ProjectedResources(p, order, resources) && ValidResources(resources)
    requires source in Eligible(p) && SourceEvidence(p, ids, source)
    ensures WithinSource(ByGraph(resources), GraphsOf(p, ids), HandleOf(p.resources[source]))
    ensures StableMatches(ByGraph(resources), GraphsOf(p, ids), ids)
    ensures |GraphsOf(p, ids)| == |ids|
  {
    hide ValidProjection, ProjectedResources, ValidResources, IsEligible, ByGraph;
    var bound := ByGraph(resources);
    EligibleIsBound(p, order, resources, source);
    forall id | id in ids
      ensures GraphOf(p, id) in bound && bound[GraphOf(p, id)] == HandleOf(p.resources[id])
      ensures bound[GraphOf(p, id)].id == id
    {
      EligibleIsBound(p, order, resources, id);
    }
    forall id | id in ids ensures id in IDsOf(bound, GraphsOf(p, ids)) {
      assert GraphOf(p, id) in GraphsOf(p, ids);
    }
    forall id | id in IDsOf(bound, GraphsOf(p, ids)) ensures id in ids {
      var g :| g in GraphsOf(p, ids) && g in bound && bound[g].id == id;
      var other :| other in ids && GraphOf(p, other) == g;
    }
    assert IDsOf(bound, GraphsOf(p, ids)) == ids;
    GraphsAsMany(p, ids);
  }

  lemma SupportsGroup(p: Projection, provenance: Provenance, supports: seq<SupportBinding>, keys: seq<nat>)
    requires ProjectsSupports(p, provenance, supports, keys)
    ensures GroupedGraphs(supports) == GraphsOf(p, AllEvidenceIDs(provenance))
    ensures GroupedIDs(supports) == AllEvidenceIDs(provenance)
    ensures DistinctKeys(supports)
  {
    forall e | e in provenance.Evidence()
      ensures e.id in GroupedIDs(supports) && GraphOf(p, e.id) in GroupedGraphs(supports)
    {
      var key :| key in provenance.supports && e in provenance.supports[key].evidence;
      var i :| 0 <= i < |keys| && keys[i] == key;
      assert e.id in supports[i].provenanceIDs && GraphOf(p, e.id) in supports[i].provenance;
    }
    forall i, id | 0 <= i < |supports| && id in supports[i].provenanceIDs ensures id in AllEvidenceIDs(provenance) {
      assert keys[i] in keys;
      var e :| e in provenance.supports[keys[i]].evidence && e.id == id;
      assert e in provenance.Evidence();
    }
    forall i, g | 0 <= i < |supports| && g in supports[i].provenance
      ensures g in GraphsOf(p, AllEvidenceIDs(provenance))
    {
      assert keys[i] in keys;
      var id :| id in EvidenceIDs(provenance.supports[keys[i]]) && GraphOf(p, id) == g;
      assert id in supports[i].provenanceIDs;
    }
  }

  predicate SupportFits(bound: map<GraphID, Handle>, s: SupportBinding, source: Handle) {
    ValidGroupBinding(s) && WithinSource(bound, s.provenance, source) && StableMatches(bound, s.provenance, s.provenanceIDs)
  }

  /** The claim at this id takes part in the graph, and so does its source. */
  predicate ClaimInGraph(p: Projection, id: ResourceID) {
    && id in Eligible(p) && p.resources[id].kind.Claim?
    && p.resources[id].claimRecord.value.source.id in Eligible(p)
  }

  lemma EvidenceOfSupport(p: Projection, id: ResourceID, key: nat)
    requires ValidProjection(p) && ClaimInGraph(p, id)
    requires key in p.resources[id].claimRecord.value.provenance.supports
    ensures var record := p.resources[id].claimRecord.value;
            && SourceEvidence(p, EvidenceIDs(record.provenance.supports[key]), record.source.id)
            && EvidenceIDs(record.provenance.supports[key]) != {}
  {
    var record := p.resources[id].claimRecord.value;
    var support := record.provenance.supports[key];
    SupportNotEmpty(p, id, key);
    hide ValidProjection, IsSourceEvidence;
    forall other | other in EvidenceIDs(support) ensures IsSourceEvidence(p, other, record.source.id) {
      var e :| e in support.evidence && e.id == other;
      assert e in record.provenance.Evidence();
      EvidenceEligible(p, id, e);
    }
    var e :| e in support.evidence;
    assert e.id in EvidenceIDs(support);
  }

  lemma SupportNotEmpty(p: Projection, id: ResourceID, key: nat)
    requires ValidProjection(p) && ClaimInGraph(p, id)
    requires key in p.resources[id].claimRecord.value.provenance.supports
    ensures p.resources[id].claimRecord.value.provenance.supports[key].evidence != {}
  {
    var record := p.resources[id].claimRecord.value;
    assert ResourceFits(p, id) && ValidClaimRecord(record);
    assert ValidSupport(record.provenance.mode, record.provenance.supports[key]);
  }

  lemma OneSupportFits(
    p: Projection, order: seq<ResourceID>, resources: seq<ResourceBinding>, id: ResourceID, key: nat)
    requires ValidProjection(p) && ProjectedResources(p, order, resources) && ValidResources(resources)
    requires ClaimInGraph(p, id) && key in p.resources[id].claimRecord.value.provenance.supports
    ensures var record := p.resources[id].claimRecord.value;
            SupportFits(ByGraph(resources), ProjectedSupport(p, key, record.provenance.supports[key]),
                        HandleOf(p.resources[record.source.id]))
  {
    hide ValidProjection, ProjectedResources, ValidResources, ByGraph, SourceEvidence;
    var record := p.resources[id].claimRecord.value;
    var ids := EvidenceIDs(record.provenance.supports[key]);
    EvidenceOfSupport(p, id, key);
    EvidenceFits(p, order, resources, ids, record.source.id);
    var some :| some in ids;
    assert GraphOf(p, some) in GraphsOf(p, ids);
  }

  lemma SupportedRecord(p: Projection, id: ResourceID) returns (record: ClaimRecord)
    requires ValidProjection(p) && ClaimInGraph(p, id)
    ensures p.resources[id].claimRecord == Some(record) && record.source.id in p.resources
    ensures record.provenance.supports != map[]
  {
    ProvenanceNotEmpty(p, id);
    record := p.resources[id].claimRecord.value;
  }

  lemma SupportsFit(
    p: Projection, order: seq<ResourceID>, resources: seq<ResourceBinding>, id: ResourceID, c: ClaimTriple,
    keys: seq<nat>)
    requires ValidProjection(p) && ProjectedResources(p, order, resources) && ValidResources(resources)
    requires ClaimInGraph(p, id)
    requires ProjectsSupports(p, p.resources[id].claimRecord.value.provenance, c.supports, keys)
    ensures c.supports != []
    ensures forall s | s in c.supports ::
              SupportFits(ByGraph(resources), s, HandleOf(p.resources[p.resources[id].claimRecord.value.source.id]))
  {
    hide ValidProjection, ProjectedResources, ValidResources, ByGraph, SupportFits, ProjectedSupport, ClaimInGraph;
    hide HandleOf, IsSupportedPredicate;
    var record := SupportedRecord(p, id);
    var some :| some in record.provenance.supports;
    assert some in keys;
    forall i | 0 <= i < |c.supports|
      ensures SupportFits(ByGraph(resources), c.supports[i], HandleOf(p.resources[record.source.id]))
    {
      assert keys[i] in keys;
      OneSupportFits(p, order, resources, id, keys[i]);
    }
  }

  lemma ProvenanceNotEmpty(p: Projection, id: ResourceID)
    requires ValidProjection(p) && ClaimInGraph(p, id)
    ensures p.resources[id].claimRecord.value.provenance.supports != map[]
    ensures IsSupportedPredicate(p.resources[id].claimRecord.value.binding.predicateKey)
  {
    assert ResourceFits(p, id) && ValidClaimRecord(p.resources[id].claimRecord.value);
  }

  lemma AllEvidenceFits(p: Projection, id: ResourceID)
    requires ValidProjection(p) && ClaimInGraph(p, id)
    ensures var record := p.resources[id].claimRecord.value;
            && SourceEvidence(p, AllEvidenceIDs(record.provenance), record.source.id)
            && AllEvidenceIDs(record.provenance) != {}
  {
    var record := p.resources[id].claimRecord.value;
    ProvenanceNotEmpty(p, id);
    var key :| key in record.provenance.supports;
    SupportNotEmpty(p, id, key);
    var e :| e in record.provenance.supports[key].evidence;
    assert e in record.provenance.Evidence() && e.id in AllEvidenceIDs(record.provenance);
    hide ValidProjection, IsSourceEvidence;
    forall other | other in AllEvidenceIDs(record.provenance) ensures IsSourceEvidence(p, other, record.source.id) {
      var f :| f in record.provenance.Evidence() && f.id == other;
      EvidenceEligible(p, id, f);
    }
  }

  /** A projected claim is one the version 2 validator accepts. */
  lemma ClaimValid(
    p: Projection, order: seq<ResourceID>, resources: seq<ResourceBinding>, id: ResourceID, c: ClaimTriple)
    requires ValidProjection(p) && ProjectedResources(p, order, resources) && ValidResources(resources)
    requires id in Eligible(p) && p.resources[id].kind.Claim? && ProjectsClaim(p, p.resources[id], c)
    ensures ValidClaim(ByGraph(resources), V2, c)
  {
    var record := p.resources[id].claimRecord.value;
    DependenciesEligible(p, id);
    ProvenanceNotEmpty(p, id);
    AllEvidenceFits(p, id);
    SameScope(p, id, record.source.id);
    hide ValidProjection, ProjectedResources, ValidResources, ByGraph, SourceEvidence, IsEligible, ProjectsSupports;
    EvidenceFits(p, order, resources, AllEvidenceIDs(record.provenance), record.source.id);
    EligibleIsBound(p, order, resources, id);
    EligibleIsBound(p, order, resources, record.source.id);
    EligibleIsBound(p, order, resources, record.binding.subjectID);
    EligibleIsBound(p, order, resources, record.binding.objectID);
    var keys :| ProjectsSupports(p, record.provenance, c.supports, keys);
    SupportsGroup(p, record.provenance, c.supports, keys);
    SupportsFit(p, order, resources, id, c, keys);
    AssembleClaim(ByGraph(resources), p, id, c);
  }

  lemma SameScope(p: Projection, id: ResourceID, other: ResourceID)
    requires ValidProjection(p) && id in p.resources && other in p.resources
    ensures p.resources[id].scope == p.resources[other].scope
    ensures p.resources[id].id == id && p.resources[other].id == other
  {
    assert ResourceFits(p, id) && ResourceFits(p, other);
  }

  lemma AssembleClaim(bound: map<GraphID, Handle>, p: Projection, id: ResourceID, c: ClaimTriple)
    requires ClaimInGraph(p, id) && ProjectsClaim(p, p.resources[id], c)
    requires var record := p.resources[id].claimRecord.value;
             && IsSupportedPredicate(record.binding.predicateKey)
             && AllEvidenceIDs(record.provenance) != {}
             && p.resources[record.source.id].kind.Document?
             && p.resources[record.source.id].versions.source == record.source.source
             && p.resources[record.source.id].scope == p.resources[id].scope
             && p.resources[id].id == id && p.resources[record.source.id].id == record.source.id
             && (forall other | other in {id, record.source.id, record.binding.subjectID, record.binding.objectID} ::
                   && other in p.resources && p.resources[other].id == other
                   && GraphOf(p, other) in bound && bound[GraphOf(p, other)] == HandleOf(p.resources[other]))
             && p.resources[record.binding.subjectID].kind.Entity?
             && p.resources[record.binding.objectID].kind.Entity?
             && WithinSource(bound, c.provenance, HandleOf(p.resources[record.source.id]))
             && StableMatches(bound, c.provenance, c.provenanceIDs)
             && |c.provenance| == |c.provenanceIDs|
             && GroupedGraphs(c.supports) == c.provenance && GroupedIDs(c.supports) == c.provenanceIDs
             && DistinctKeys(c.supports) && c.supports != []
             && forall s | s in c.supports :: SupportFits(bound, s, HandleOf(p.resources[record.source.id]))
    ensures ValidClaim(bound, V2, c)
  {
    hide WithinSource, StableMatches, GroupedGraphs, GroupedIDs, DistinctKeys, ProjectsSupports, Eligible;
    var record := p.resources[id].claimRecord.value;
    var ids := {id, record.source.id, record.binding.subjectID, record.binding.objectID};
    assert id in ids && record.source.id in ids && record.binding.subjectID in ids && record.binding.objectID in ids;
    assert c.provenance != {};
    assert ValidShape(c);
    assert Identified(bound, c);
  }

  // The derivation itself.

  /** The source backed claims that serve, once each, in this order. */
  predicate ListsClaims(p: Projection, order: seq<ResourceID>) {
    && Distinct(order)
    && (forall id | id in order :: id in Eligible(p) && p.resources[id].kind.Claim?)
    && (forall id | id in Eligible(p) :: p.resources[id].kind.Claim? ==> id in order)
  }

  ghost predicate ProjectedClaims(p: Projection, order: seq<ResourceID>, claims: seq<ClaimTriple>) {
    && ListsClaims(p, order)
    && |claims| == |order|
    && forall i | 0 <= i < |order| :: order[i] in p.resources && ProjectsClaim(p, p.resources[order[i]], claims[i])
  }

  /** Serving closure binds every endpoint, source and evidence: the claims always validate. */
  lemma ClaimsValid(
    p: Projection, order: seq<ResourceID>, resources: seq<ResourceBinding>, claimOrder: seq<ResourceID>,
    claims: seq<ClaimTriple>)
    requires ValidProjection(p) && ProjectedResources(p, order, resources) && ValidResources(resources)
    requires ProjectedClaims(p, claimOrder, claims)
    ensures ValidClaims(resources, claims)
  {
    ResourcesValid(p, order, resources);
    assert resources[0].contract == V2;
    hide ValidProjection, ProjectedResources, ProjectsClaim, ValidClaim;
    forall c | c in claims ensures ValidClaim(ByGraph(resources), V2, c) {
      var i :| 0 <= i < |claims| && claims[i] == c;
      assert claimOrder[i] in claimOrder;
      ClaimValid(p, order, resources, claimOrder[i], c);
    }
    forall i, j | 0 <= i < j < |claims| ensures claims[i].claim != claims[j].claim {
      assert claimOrder[i] in claimOrder && claimOrder[j] in claimOrder;
      ClaimIDsDiffer(p, claimOrder[i], claimOrder[j], claims[i], claims[j]);
    }
  }

  lemma ClaimIDsDiffer(p: Projection, id: ResourceID, other: ResourceID, c: ClaimTriple, d: ClaimTriple)
    requires ValidProjection(p) && id in p.resources && other in p.resources && id != other
    requires ProjectsClaim(p, p.resources[id], c) && ProjectsClaim(p, p.resources[other], d)
    ensures c.claim != d.claim
  {
    SameScope(p, id, other);
  }

  ghost predicate BindsInOrder(p: Projection, order: seq<ResourceID>, resources: seq<ResourceBinding>) {
    && |resources| == |order|
    && forall i | 0 <= i < |order| :: order[i] in p.resources && resources[i] == BindingOf(p.resources[order[i]])
  }

  lemma BindsOneMore(p: Projection, order: seq<ResourceID>, resources: seq<ResourceBinding>, id: ResourceID)
    requires BindsInOrder(p, order, resources) && id in p.resources
    ensures BindsInOrder(p, order + [id], resources + [BindingOf(p.resources[id])])
  {
    hide BindingOf;
    var grown, bound := order + [id], resources + [BindingOf(p.resources[id])];
    forall i | 0 <= i < |grown| ensures grown[i] in p.resources && bound[i] == BindingOf(p.resources[grown[i]]) {
      if i < |order| {
        assert grown[i] == order[i] && bound[i] == resources[i];
      }
    }
  }

  /** The eligible resources among those visited, projected in the order of the visits. */
  ghost predicate ProjectedSoFar(
    p: Projection, rest: set<ResourceID>, order: seq<ResourceID>, resources: seq<ResourceBinding>,
    byResourceID: map<ResourceID, GraphID>)
  {
    && Distinct(order) && (forall id :: id in order <==> id in Eligible(p) && id !in rest)
    && BindsInOrder(p, order, resources)
    && (forall id :: id in byResourceID <==> id in Eligible(p) && id !in rest)
    && (forall id | id in byResourceID :: byResourceID[id] == GraphOf(p, id))
  }

  lemma OrderGrows(order: seq<ResourceID>, eligible: set<ResourceID>, rest: set<ResourceID>, id: ResourceID)
    requires Distinct(order) && (forall x :: x in order <==> x in eligible && x !in rest)
    requires id in rest && id in eligible
    ensures Distinct(order + [id]) && (forall x :: x in order + [id] <==> x in eligible && x !in rest - {id})
  {
    assert id !in order;
  }

  lemma ProjectOne(
    p: Projection, rest: set<ResourceID>, order: seq<ResourceID>, resources: seq<ResourceBinding>,
    byResourceID: map<ResourceID, GraphID>, id: ResourceID)
    requires ValidProjection(p) && id in p.resources && id in rest && id in Eligible(p)
    requires ProjectedSoFar(p, rest, order, resources, byResourceID)
    ensures var binding := BindingOf(p.resources[id]);
            ProjectedSoFar(p, rest - {id}, order + [id], resources + [binding], byResourceID[id := binding.graph])
  {
    BindingIsOwn(p, id);
    BindsOneMore(p, order, resources, id);
    hide ValidProjection, BindingOf, Eligible, GraphOf, Distinct, BindsInOrder;
    OrderGrows(order, Eligible(p), rest, id);
  }

  lemma BindingIsOwn(p: Projection, id: ResourceID)
    requires ValidProjection(p) && id in p.resources
    ensures BindingOf(p.resources[id]).graph == GraphOf(p, id)
  {
    SameScope(p, id, id);
    AtVersion(p, id);
  }

  method ProjectResources(p: Projection)
    returns (resources: seq<ResourceBinding>, byResourceID: map<ResourceID, GraphID>, ghost order: seq<ResourceID>)
    requires ValidProjection(p)
    ensures ProjectedResources(p, order, resources)
    ensures byResourceID.Keys == Eligible(p) && forall id | id in byResourceID :: byResourceID[id] == GraphOf(p, id)
  {
    hide ValidProjection, IsEligible, BindingOf, GraphOf;
    resources, byResourceID, order := [], map[], [];
    var rest := p.resources.Keys;
    while rest != {}
      invariant rest <= p.resources.Keys
      invariant ProjectedSoFar(p, rest, order, resources, byResourceID)
      decreases |rest|
    {
      var id :| id in rest;
      var r := p.resources[id];
      if IsEligible(r) {
        ProjectOne(p, rest, order, resources, byResourceID, id);
        var binding := BindingOf(r);
        resources := resources + [binding];
        byResourceID := byResourceID[id := binding.graph];
        order := order + [id];
      }
      rest := rest - {id};
    }
  }

  lemma AtVersion(p: Projection, id: ResourceID)
    requires ValidProjection(p) && id in p.resources
    ensures p.resources[id].versions.projection == p.version
  {
    assert ResourceFits(p, id);
  }

  /** Looks up the graph ids of evidence; a missing one would be an invalid claim record. */
  method LookUp(p: Projection, byResourceID: map<ResourceID, GraphID>, ids: set<ResourceID>)
    returns (graphs: Option<set<GraphID>>)
    requires forall id | id in byResourceID :: byResourceID[id] == GraphOf(p, id)
    ensures graphs.Some? <==> ids <= byResourceID.Keys
    ensures graphs.Some? ==> graphs.value == GraphsOf(p, ids)
  {
    var found: set<GraphID> := {};
    var rest := ids;
    while rest != {}
      invariant rest <= ids && ids - rest <= byResourceID.Keys && found == GraphsOf(p, ids - rest)
      decreases |rest|
    {
      var id :| id in rest;
      assert ids - (rest - {id}) == (ids - rest) + {id};
      rest := rest - {id};
      if id !in byResourceID {
        return None;
      }
      found := found + {byResourceID[id]};
    }
    assert ids - rest == ids;
    return Some(found);
  }

  method ProjectSupports(p: Projection, byResourceID: map<ResourceID, GraphID>, provenance: Provenance)
    returns (supports: Option<seq<SupportBinding>>, ghost keys: seq<nat>)
    requires forall id | id in byResourceID :: byResourceID[id] == GraphOf(p, id)
    requires AllEvidenceIDs(provenance) <= byResourceID.Keys
    ensures supports.Some? && ProjectsSupports(p, provenance, supports.value, keys)
  {
    var found: seq<SupportBinding> := [];
    keys := [];
    var rest := provenance.supports.Keys;
    while rest != {}
      invariant rest <= provenance.supports.Keys
      invariant |keys| == |found| && Distinct(keys)
      invariant forall key :: key in keys <==> key in provenance.supports && key !in rest
      invariant forall i | 0 <= i < |keys| ::
                  && keys[i] in provenance.supports
                  && found[i] == ProjectedSupport(p, keys[i], provenance.supports[keys[i]])
      decreases |rest|
    {
      var key :| key in rest;
      rest := rest - {key};
      var ids := EvidenceIDs(provenance.supports[key]);
      EvidenceOfAll(provenance, key);
      var graphs := LookUp(p, byResourceID, ids);
      if graphs.None? {
        assert false;
        return None, keys;
      }
      found := found + [SupportBinding(NamedSupport(key), graphs.value, ids)];
      keys := keys + [key];
    }
    return Some(found), keys;
  }

  lemma EvidenceOfAll(provenance: Provenance, key: nat)
    requires key in provenance.supports
    ensures EvidenceIDs(provenance.supports[key]) <= AllEvidenceIDs(provenance)
  {
    forall id | id in EvidenceIDs(provenance.supports[key]) ensures id in AllEvidenceIDs(provenance) {
      var e :| e in provenance.supports[key].evidence && e.id == id;
      assert e in provenance.Evidence();
    }
  }

  lemma EvidenceBound(p: Projection, id: ResourceID)
    requires ValidProjection(p) && ClaimInGraph(p, id)
    ensures AllEvidenceIDs(p.resources[id].claimRecord.value.provenance) <= Eligible(p)
  {
    AllEvidenceFits(p, id);
  }

  method ProjectClaim(p: Projection, byResourceID: map<ResourceID, GraphID>, id: ResourceID)
    returns (claim: Option<ClaimTriple>)
    requires ValidProjection(p) && ClaimInGraph(p, id)
    requires byResourceID.Keys == Eligible(p) && forall other | other in byResourceID :: byResourceID[other] == GraphOf(p, other)
    ensures claim.Some? && ProjectsClaim(p, p.resources[id], claim.value)
  {
    EvidenceBound(p, id);
    DependenciesEligible(p, id);
    SameScope(p, id, id);
    hide ValidProjection;
    var record := p.resources[id].claimRecord.value;
    var supports, keys := ProjectSupports(p, byResourceID, record.provenance);
    var ids := AllEvidenceIDs(record.provenance);
    var provenance := LookUp(p, byResourceID, ids);
    if supports.None? || provenance.None? {
      assert false;
      return None;
    }
    var binding := record.binding;
    claim := Some(ClaimTriple(
      V2, byResourceID[id], byResourceID[binding.subjectID], binding.predicateKey, byResourceID[binding.objectID],
      byResourceID[record.source.id], record.provenance.mode, provenance.value, Some(binding.subjectID),
      Some(binding.objectID), Some(record.source.id), Some(record.source.source), ids, supports.value));
  }

  method ProjectClaims(p: Projection, byResourceID: map<ResourceID, GraphID>)
    returns (claims: seq<ClaimTriple>, ghost order: seq<ResourceID>)
    requires ValidProjection(p)
    requires byResourceID.Keys == Eligible(p) && forall id | id in byResourceID :: byResourceID[id] == GraphOf(p, id)
    ensures ProjectedClaims(p, order, claims)
  {
    hide ValidProjection, ProjectsClaim, IsEligible;
    claims, order := [], [];
    var rest := Eligible(p);
    while rest != {}
      invariant rest <= Eligible(p)
      invariant Distinct(order)
      invariant forall id :: id in order <==> id in Eligible(p) && id !in rest && p.resources[id].kind.Claim?
      invariant |claims| == |order|
      invariant forall i | 0 <= i < |order| ::
                  order[i] in p.resources && ProjectsClaim(p, p.resources[order[i]], claims[i])
      decreases |rest|
    {
      var id :| id in rest;
      rest := rest - {id};
      if p.resources[id].kind.Claim? {
        DependenciesEligible(p, id);
        var claim := ProjectClaim(p, byResourceID, id);
        claims := claims + [claim.value];
        order := order + [id];
      }
    }
  }

  datatype Projected = Projected(resources: seq<ResourceBinding>, claims: seq<ClaimTriple>)

  /**
   The graph of a projection exists exactly when the projection is valid, published
   and ready for the graph; it is then complete, and valid under version 2.
   */
  method ProjectionGraphBindings(p: Projection)
    returns (result: Option<Projected>, ghost order: seq<ResourceID>, ghost claimOrder: seq<ResourceID>)
    ensures result.Some? <==> ValidProjection(p) && p.state.StatePublished? && GraphReady(p)
    ensures result.Some? ==>
              && ValidClaims(result.value.resources, result.value.claims)
              && ProjectedResources(p, order, result.value.resources)
              && ProjectedClaims(p, claimOrder, result.value.claims)
  {
    order, claimOrder := [], [];
    if !ValidProjection(p) || !p.state.StatePublished? {
      return None, order, claimOrder;
    }
    hide ValidProjection, ProjectedResources, ProjectedClaims, ValidResources, GraphReady, ByGraph, ValidClaim, Eligible;
    var resources, byResourceID;
    resources, byResourceID, order := ProjectResources(p);
    ResourcesValid(p, order, resources);
    var valid := ValidResources(resources);
    if !valid {
      return None, order, claimOrder;
    }
    var claims;
    claims, claimOrder := ProjectClaims(p, byResourceID);
    ClaimsValid(p, order, resources, claimOrder, claims);
    if !ValidClaims(resources, claims) {
      assert false;
      return None, order, claimOrder;
    }
    return Some(Projected(resources, claims)), order, claimOrder;
  }
}
