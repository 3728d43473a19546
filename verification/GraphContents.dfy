/**
 What the graph bindings say, field by field: of the catalog records they are derived
 from, and of the version 1 bindings they are upgraded from.
 */
module GraphContents {
  import opened Wrappers
  import opened Catalog
  import opened Canonical
  import opened Ordering
  import opened GraphContract
  import GraphUpgrade
  import GraphProjecting
  import opened GraphListing

  // The graph of a catalog.

  /** Published and ready; artifacts with their security record, claims with their endpoints. */
  predicate TakesPart(r: Resource) {
    && r.state.StatePublished? && r.status == Succeeded
    && (r.kind.DerivedArtifact? ==> r.security.Some?)
    && (r.kind.Claim? ==> r.claimRecord.Some? && r.claimRecord.value.binding.SourceBacked?)
  }

  predicate BindsResource(p: Projection, r: Resource, b: ResourceBinding) {
    && b.contract == 2 && b.graph == GraphID(2, p.version, r.id)
    && b.resource.id == r.id && b.resource.kind == r.kind && b.resource.scope == r.scope
    && b.resource.authzObject == r.authzObject && b.resource.authzResource == r.authzResource
    && b.resource.digest == r.digest && b.resource.versions == r.versions
  }

  /** The listed ids are those of the evidence, as resources and as graph objects. */
  ghost predicate ListsEvidence(
    p: Projection, evidence: set<EvidenceRef>, ids: seq<ResourceID>, graphs: seq<GraphID>)
  {
    && (forall id :: id in ids <==> exists e | e in evidence :: e.id == id)
    && (forall g :: g in graphs <==> exists e | e in evidence :: g == GraphID(2, p.version, e.id))
  }

  ghost predicate ListsSupports(p: Projection, supports: map<nat, Support>, listed: seq<ListedSupport>) {
    && (forall s | s in listed :: exists key | key in supports ::
          s.key == NamedSupport(key) && ListsEvidence(p, supports[key].evidence, s.provenanceIDs, s.provenance))
    && (forall key | key in supports :: exists s | s in listed :: s.key == NamedSupport(key))
  }

  /** The claim says of its record what the record says. */
  ghost predicate StatesRecord(p: Projection, r: Resource, l: ListedClaim) {
    && r.claimRecord.Some? && r.claimRecord.value.binding.SourceBacked?
    && var record, t := r.claimRecord.value, l.triple;
       && t.contract == 2 && t.claim == GraphID(2, p.version, r.id)
       && t.subject == GraphID(2, p.version, record.binding.subjectID) && t.subjectID == Some(record.binding.subjectID)
       && t.target == GraphID(2, p.version, record.binding.objectID) && t.targetID == Some(record.binding.objectID)
       && t.source == GraphID(2, p.version, record.source.id) && t.sourceID == Some(record.source.id)
       && t.sourceVersion == Some(record.source.source)
       && t.predicateKey == record.binding.predicateKey && t.mode == record.provenance.mode
       && ListsEvidence(
            p, set key, e | key in record.provenance.supports && e in record.provenance.supports[key].evidence :: e,
            l.provenanceIDs, l.provenance)
       && ListsSupports(p, record.provenance.supports, l.supports)
  }

  lemma TakesPartIsEligible(p: Projection, id: ResourceID)
    requires id in p.resources
    ensures id in GraphProjecting.Eligible(p) <==> TakesPart(p.resources[id])
  {
  }

  lemma BindingFields(p: Projection, id: ResourceID, b: ResourceBinding)
    requires ValidProjection(p) && id in p.resources
    ensures b == GraphProjecting.BindingOf(p.resources[id]) <==> BindsResource(p, p.resources[id], b)
  {
    assert ResourceFits(p, id);
  }

  /** Exactly the resources that take part are bound, each as the catalog has it. */
  lemma ResourcesByFields(o: GraphListing.Order, p: Projection, g: ListedGraph)
    requires ValidProjection(p) && GraphOfProjection(o, p, g)
    ensures forall b | b in g.resources :: exists id | id in p.resources ::
              TakesPart(p.resources[id]) && BindsResource(p, p.resources[id], b)
    ensures forall id | id in p.resources && TakesPart(p.resources[id]) ::
              exists b :: b in g.resources && BindsResource(p, p.resources[id], b)
  {
    hide ValidProjection, ListsAll, GraphProjecting.ProjectedClaims, TakesPart, BindsResource, Ranked,
      GraphProjecting.Eligible;
    var order, resources, claimOrder, claims, arranged :|
      && GraphProjecting.ProjectedResources(p, order, resources) && multiset(g.resources) == multiset(resources)
      && GraphProjecting.ProjectedClaims(p, claimOrder, claims) && multiset(arranged) == multiset(claims)
      && Ranked(o.ByBinding(), g.resources) && ListsAll(o, arranged, g.claims);
    SameMultisetMembers(g.resources, resources);
    forall b | b in g.resources
      ensures exists id | id in p.resources :: TakesPart(p.resources[id]) && BindsResource(p, p.resources[id], b)
    {
      var i :| 0 <= i < |resources| && resources[i] == b;
      assert order[i] in order;
      TakesPartIsEligible(p, order[i]);
      BindingFields(p, order[i], b);
    }
    forall id | id in p.resources && TakesPart(p.resources[id])
      ensures exists b :: b in g.resources && BindsResource(p, p.resources[id], b)
    {
      TakesPartIsEligible(p, id);
      var i :| 0 <= i < |order| && order[i] == id;
      BindingFields(p, id, resources[i]);
      assert resources[i] in g.resources;
    }
  }

  lemma EvidenceListed(p: Projection, evidence: set<EvidenceRef>, ids: seq<ResourceID>, graphs: seq<GraphID>)
    requires Unlist(ids) == (set e | e in evidence :: e.id)
    requires Unlist(graphs) == GraphProjecting.GraphsOf(p, set e | e in evidence :: e.id)
    ensures ListsEvidence(p, evidence, ids, graphs)
  {
    forall id ensures id in ids <==> exists e | e in evidence :: e.id == id {
      assert id in ids <==> id in Unlist(ids);
    }
    forall g ensures g in graphs <==> exists e | e in evidence :: g == GraphID(2, p.version, e.id) {
      assert g in graphs <==> g in Unlist(graphs);
      if e :| e in evidence && g == GraphID(2, p.version, e.id) {
        assert e.id in (set f | f in evidence :: f.id) && g == GraphProjecting.GraphOf(p, e.id);
      }
    }
  }

  lemma SupportsListed(p: Projection, provenance: Provenance, supports: seq<SupportBinding>, listed: seq<ListedSupport>)
    requires exists keys :: GraphProjecting.ProjectsSupports(p, provenance, supports, keys)
    requires forall s :: s in UnlistedSupports(listed) <==> s in supports
    ensures ListsSupports(p, provenance.supports, listed)
  {
    ProjectedSupports(p, provenance, supports);
    var us := UnlistedSupports(listed);
    hide GraphProjecting.ProjectsSupports, ListsEvidence, GraphProjecting.GraphsOf;
    forall s | s in listed
      ensures exists key | key in provenance.supports ::
                s.key == NamedSupport(key)
                && ListsEvidence(p, provenance.supports[key].evidence, s.provenanceIDs, s.provenance)
    {
      var i :| 0 <= i < |listed| && listed[i] == s;
      assert us[i] == UnlistedSupport(s) && us[i] in us;
      var key :| key in provenance.supports
              && us[i] == GraphProjecting.ProjectedSupport(p, key, provenance.supports[key]);
      EvidenceListed(p, provenance.supports[key].evidence, s.provenanceIDs, s.provenance);
    }
    forall key | key in provenance.supports ensures exists s | s in listed :: s.key == NamedSupport(key) {
      var b := GraphProjecting.ProjectedSupport(p, key, provenance.supports[key]);
      assert b in supports && b in us;
      var i :| 0 <= i < |us| && us[i] == b;
      assert listed[i] in listed;
    }
  }

  lemma ClaimStates(p: Projection, r: Resource, c: ClaimTriple, l: ListedClaim)
    requires GraphProjecting.ProjectsClaim(p, r, c) && Lists(c, l)
    ensures StatesRecord(p, r, l)
  {
    var record := r.claimRecord.value;
    var evidence := set key, e | key in record.provenance.supports && e in record.provenance.supports[key].evidence :: e;
    assert evidence == record.provenance.Evidence();
    hide GraphProjecting.ProjectsSupports, GraphProjecting.GraphsOf;
    assert Unlist(l.provenanceIDs) == GraphProjecting.AllEvidenceIDs(record.provenance);
    EvidenceListed(p, evidence, l.provenanceIDs, l.provenance);
    SupportsListed(p, record.provenance, c.supports, l.supports);
  }

  /** Exactly the source backed claims that take part are listed, each saying what its record says. */
  lemma ClaimsByFields(o: GraphListing.Order, p: Projection, g: ListedGraph)
    requires ValidProjection(p) && GraphOfProjection(o, p, g)
    ensures forall l | l in g.claims :: exists id | id in p.resources ::
              p.resources[id].kind.Claim? && TakesPart(p.resources[id]) && StatesRecord(p, p.resources[id], l)
    ensures forall id | id in p.resources && p.resources[id].kind.Claim? && TakesPart(p.resources[id]) ::
              exists l :: l in g.claims && StatesRecord(p, p.resources[id], l)
  {
    hide ValidProjection, ListsAll, GraphProjecting.ProjectedResources, TakesPart, StatesRecord, Ranked, CanonicalClaim,
      GraphProjecting.ProjectsClaim, Lists, GraphProjecting.Eligible;
    var order, resources, claimOrder, claims, arranged :|
      && GraphProjecting.ProjectedResources(p, order, resources) && multiset(g.resources) == multiset(resources)
      && GraphProjecting.ProjectedClaims(p, claimOrder, claims) && multiset(arranged) == multiset(claims)
      && Ranked(o.ByBinding(), g.resources) && ListsAll(o, arranged, g.claims);
    forall l | l in g.claims
      ensures exists id | id in p.resources ::
                p.resources[id].kind.Claim? && TakesPart(p.resources[id]) && StatesRecord(p, p.resources[id], l)
    {
      var id, c := ListedClaimOf(o, p, claimOrder, claims, arranged, g.claims, l);
      ClaimListed(p, claimOrder, claims, id);
      ClaimStates(p, p.resources[id], c, l);
    }
    forall id | id in p.resources && p.resources[id].kind.Claim? && TakesPart(p.resources[id])
      ensures exists l :: l in g.claims && StatesRecord(p, p.resources[id], l)
    {
      ClaimListed(p, claimOrder, claims, id);
      var l, c := ListedFor(o, p, claimOrder, claims, arranged, g.claims, id);
      ClaimStates(p, p.resources[id], c, l);
    }
  }

  lemma ClaimListed(p: Projection, order: seq<ResourceID>, claims: seq<ClaimTriple>, id: ResourceID)
    requires GraphProjecting.ProjectedClaims(p, order, claims) && id in p.resources
    ensures id in order <==> p.resources[id].kind.Claim? && TakesPart(p.resources[id])
  {
    hide GraphProjecting.ProjectsClaim;
  }

  // What the validators accept.

  /** The graph object is listed, for a resource of this kind. */
  predicate ListsObject(resources: seq<ResourceBinding>, g: GraphID, kind: ResourceType, h: Handle) {
    h.kind == kind && exists b | b in resources :: b.graph == g && b.resource == h
  }

  /** Listed evidence: the source document or one of its chunks. */
  predicate IsEvidenceOf(resources: seq<ResourceBinding>, g: GraphID, source: Handle) {
    exists b | b in resources ::
      && b.graph == g && (b.resource.kind.Document? || b.resource.kind.Chunk?)
      && (b.resource.id == source.id || b.resource.authzResource == source.id)
  }

  lemma BoundIsListed(resources: seq<ResourceBinding>, g: GraphID)
    requires g in ByGraph(resources)
    ensures exists b | b in resources :: b.graph == g && b.resource == ByGraph(resources)[g]
  {
    BoundIff(resources, g);
  }

  /** An accepted claim refers to listed resources only, of the right kinds and from one source. */
  lemma AcceptedClaims(o: GraphListing.Order, resources: seq<ResourceBinding>, claims: seq<ListedClaim>, l: ListedClaim)
    returns (claim: Handle, subject: Handle, target: Handle, source: Handle)
    requires ValidListed(o, resources, claims) && l in claims
    ensures ListsObject(resources, l.triple.claim, Claim, claim)
    ensures ListsObject(resources, l.triple.subject, Entity, subject)
    ensures ListsObject(resources, l.triple.target, Entity, target)
    ensures ListsObject(resources, l.triple.source, Document, source)
    ensures claim.scope == source.scope && l.provenance != [] && l.triple.contract == resources[0].contract
    ensures forall g | g in l.provenance :: IsEvidenceOf(resources, g, source)
    ensures l.triple.contract == 2 ==>
              && l.triple.subjectID == Some(subject.id) && l.triple.targetID == Some(target.id)
              && l.triple.sourceID == Some(source.id) && l.triple.sourceVersion == Some(source.versions.source)
              && 1 <= l.triple.predicateKey <= 10 && l.provenanceIDs != [] && l.supports != []
              && (forall s | s in l.supports ::
                    s.provenance != [] && forall g | g in s.provenance :: g in l.provenance)
              && (forall g | g in l.provenance :: exists s | s in l.supports :: g in s.provenance)
    ensures l.triple.contract == 1 ==>
              && l.triple.subjectID.None? && l.triple.targetID.None? && l.triple.sourceID.None?
              && l.triple.sourceVersion.None? && l.provenanceIDs == [] && l.supports == []
  {
    var bound, t, u := ByGraph(resources), l.triple, Unlisted(l);
    ListedIsValid(o, resources, claims, l);
    hide ByGraph, ValidResources, CanonicalClaim, ValidListed;
    claim, subject, target, source := bound[t.claim], bound[t.subject], bound[t.target], bound[t.source];
    BoundIsListed(resources, t.claim);
    BoundIsListed(resources, t.subject);
    BoundIsListed(resources, t.target);
    BoundIsListed(resources, t.source);
    ProvenanceListed(resources, u, l);
    GroupsListed(u, l);
  }

  lemma ListedIsValid(o: GraphListing.Order, resources: seq<ResourceBinding>, claims: seq<ListedClaim>, l: ListedClaim)
    requires ValidListed(o, resources, claims) && l in claims
    ensures ValidClaim(ByGraph(resources), resources[0].contract, Unlisted(l)) && IsContract(resources[0].contract)
  {
    hide ValidClaim, CanonicalClaim, ByGraph;
    var i :| 0 <= i < |claims| && claims[i] == l;
    assert UnlistedClaims(claims)[i] in UnlistedClaims(claims);
    assert resources[0] in resources;
  }

  lemma ProvenanceListed(resources: seq<ResourceBinding>, u: ClaimTriple, l: ListedClaim)
    requires u == Unlisted(l) && u.source in ByGraph(resources)
    requires u.provenance != {} && WithinSource(ByGraph(resources), u.provenance, ByGraph(resources)[u.source])
    ensures l.provenance != [] && forall g | g in l.provenance :: IsEvidenceOf(resources, g, ByGraph(resources)[u.source])
  {
    hide ByGraph;
    forall g | g in l.provenance ensures IsEvidenceOf(resources, g, ByGraph(resources)[u.source]) {
      assert g in u.provenance;
      BoundIsListed(resources, g);
    }
  }

  lemma GroupsListed(u: ClaimTriple, l: ListedClaim)
    requires u == Unlisted(l) && ValidShape(u)
    ensures u.contract == 2 ==>
              && l.provenanceIDs != [] && l.supports != []
              && (forall s | s in l.supports ::
                    s.provenance != [] && forall g | g in s.provenance :: g in l.provenance)
              && (forall g | g in l.provenance :: exists s | s in l.supports :: g in s.provenance)
    ensures u.contract == 1 ==> l.provenanceIDs == [] && l.supports == []
  {
    forall g ensures g in u.provenance <==> g in l.provenance {
    }
    if u.contract == 2 {
      forall s | s in l.supports ensures s.provenance != [] && forall g | g in s.provenance :: g in l.provenance {
        var i :| 0 <= i < |l.supports| && l.supports[i] == s;
        assert u.supports[i] in u.supports;
        forall g | g in s.provenance ensures g in l.provenance {
          assert g in u.supports[i].provenance && g in GroupedGraphs(u.supports);
        }
      }
      forall g | g in l.provenance ensures exists s | s in l.supports :: g in s.provenance {
        assert g in GroupedGraphs(u.supports);
        var i :| 0 <= i < |u.supports| && g in u.supports[i].provenance;
        assert l.supports[i] in l.supports;
      }
    } else {
      NothingUnlisted(l);
    }
  }

  lemma NothingUnlisted(l: ListedClaim)
    ensures Unlisted(l).provenanceIDs == {} ==> l.provenanceIDs == []
    ensures Unlisted(l).supports == [] ==> l.supports == []
  {
    if l.provenanceIDs != [] {
      assert l.provenanceIDs[0] in Unlist(l.provenanceIDs);
    }
  }

  /** Accepted resources share scope and versions, and every chunk comes with its document. */
  lemma AcceptedResources(o: GraphListing.Order, resources: seq<ResourceBinding>, claims: seq<ListedClaim>)
    requires ValidListed(o, resources, claims)
    ensures resources != []
    ensures forall b, c | b in resources && c in resources ::
              && b.contract == c.contract && b.resource.scope == c.resource.scope
              && b.resource.versions.(content := 0) == c.resource.versions.(content := 0)
    ensures forall b | b in resources ::
              && b.graph == GraphID(b.contract, b.resource.versions.projection, b.resource.id)
              && (b.contract == 1 || b.contract == 2)
              && (b.resource.kind.Chunk? ==>
                    exists d | d in resources ::
                      && d.resource.kind.Document? && d.resource.id == b.resource.authzResource
                      && d.resource.authzObject == b.resource.authzObject)
    ensures forall i, j | 0 <= i < j < |resources| :: resources[i].resource.id != resources[j].resource.id
  {
    hide ValidClaim, ByGraph, CanonicalClaim;
    forall b | b in resources ensures ValidBinding(b) && SameServing(resources[0].resource, b.resource) {
    }
  }

  // The upgrade.

  /** The same resource, bound under version 2. */
  predicate Rebinds(a: ResourceBinding, b: ResourceBinding) {
    && b.contract == 2 && b.resource == a.resource
    && b.graph == GraphID(2, a.resource.versions.projection, a.resource.id)
  }

  lemma UpgradedBindings(
    resources: seq<ResourceBinding>, upgraded: seq<ResourceBinding>, sorted: seq<ResourceBinding>, b: ResourceBinding)
    requires GraphUpgrade.UpgradedResources(resources, upgraded) && multiset(sorted) == multiset(upgraded)
    ensures b in sorted <==>
              exists a :: a in resources && Rebinds(a, b)
  {
    SameMultisetMembers(sorted, upgraded);
    if b in sorted {
      var i :| 0 <= i < |upgraded| && upgraded[i] == b;
      assert resources[i] in resources;
    }
    if a :| a in resources && Rebinds(a, b) {
      var i :| 0 <= i < |resources| && resources[i] == a;
      assert upgraded[i] == b;
    }
  }

  /** The upgraded bindings are the given resources, unchanged, under their version 2 ids. */
  lemma UpgradeByFields(
    o: GraphListing.Order, resources: seq<ResourceBinding>, claims: seq<ClaimTriple>, g: ListedGraph, b: ResourceBinding)
    requires UpgradesTo(o, resources, claims, g)
    ensures b in g.resources <==>
              exists a :: a in resources && Rebinds(a, b)
  {
    hide GraphUpgrade.UpgradedResources, GraphUpgrade.UpgradedClaims, ListsAll;
    var upgraded, us, arranged :|
      && GraphUpgrade.UpgradedResources(resources, upgraded) && multiset(g.resources) == multiset(upgraded)
      && GraphUpgrade.UpgradedClaims(ByGraph(resources), GraphUpgrade.Kept(claims), us)
      && multiset(arranged) == multiset(us) && ListsAll(o, arranged, g.claims);
    UpgradedBindings(resources, upgraded, g.resources, b);
  }
}
