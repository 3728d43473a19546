/**
 What a reader may assume of a valid projection: everything a serving resource rests on
 is there, serves with it, and is the version the record names.
 */
module CatalogGuarantees {
  import opened Wrappers
  import opened Catalog

  /** A serving document with these versions. */
  predicate IsSource(p: Projection, source: DocumentVersionRef) {
    && source.id in Serving(p)
    && var d := p.resources[source.id];
       && d.kind.Document?
       && d.versions.source == source.source && d.versions.content == source.content
       && d.versions.acl == source.acl && d.versions.projection == source.projection
  }

  /** The document itself or one of its chunks, serving at these versions. */
  predicate IsEvidenceOf(p: Projection, source: DocumentVersionRef, e: EvidenceRef) {
    && e.id in Serving(p) && e.document == source
    && var r := p.resources[e.id];
       && r.kind == e.kind && r.versions == e.versions
       && (e.kind.Document? ==> e.id == source.id)
       && (e.kind.Chunk? ==> r.authzResource == source.id)
  }

  predicate IsServingEntity(p: Projection, id: ResourceID) {
    id in Serving(p) && p.resources[id].kind.Entity?
  }

  /** The member serves, exactly as the record identifies it. */
  predicate IsMember(p: Projection, m: ResourceIdentity) {
    && m.id in Serving(p)
    && var r := p.resources[m.id];
       && r.id == m.id && r.kind == m.kind && r.authzObject == m.authzObject && r.authzResource == m.authzResource
       && r.digest == m.digest && r.versions == m.versions
  }

  /** Every resource is of the projection's own scope, versions and domain. */
  lemma ResourcesBelong(p: Projection, id: ResourceID)
    requires ValidProjection(p) && id in p.resources
    ensures var r := p.resources[id];
            && r.id == id && id > 0 && r.scope == p.scope && r.domain == p.snapshot.domain
            && r.versions.projection == p.version && r.versions.source == p.snapshot.version
            && (r.kind.Chunk? <==> r.authzResource != id)
            && id !in r.deps && forall d | d in r.deps :: d in p.resources
  {
    assert ResourceFits(p, id);
  }

  /** Nothing half projected is ever listed in a published projection, nothing serves in another. */
  lemma StatesAllowed(p: Projection, id: ResourceID)
    requires ValidProjection(p) && id in p.resources
    ensures id in Serving(p) ==>
              p.state.StatePublished? && p.resources[id].state.StatePublished? && p.resources[id].status == Succeeded
    ensures p.state.StatePublished? && id !in Serving(p) ==>
              var r := p.resources[id];
              || r.state.StateRevoked? || r.state.StateTombstoned? || r.state.StateSuperseded?
              || (r.kind.DerivedArtifact? && r.security.None? && r.state.StatePublished? && r.status == Succeeded)
  {
    assert ResourceFits(p, id);
  }

  lemma DocumentsCounted(p: Projection)
    requires ValidProjection(p) && p.state.StatePublished?
    ensures |set id | id in p.resources && p.resources[id].kind.Document?
                      && (id in Serving(p) || p.resources[id].state.StateRevoked?)| == p.snapshot.documentCount
  {
    assert CountedDocuments(p.resources)
        == set id | id in p.resources && p.resources[id].kind.Document?
                    && (id in Serving(p) || p.resources[id].state.StateRevoked?);
  }

  /** A serving chunk serves within its document and with its authorization. */
  lemma ChunksInherit(p: Projection, id: ResourceID)
    requires ValidProjection(p) && id in Serving(p) && p.resources[id].kind.Chunk?
    ensures var chunk := p.resources[id];
            && chunk.authzResource in Serving(p)
            && var d := p.resources[chunk.authzResource];
               && d.kind.Document? && d.authzObject == chunk.authzObject
               && d.versions.source == chunk.versions.source && d.versions.acl == chunk.versions.acl
               && d.versions.projection == chunk.versions.projection
  {
    assert ResourceFits(p, id);
  }

  /** Only documents and chunks stand alone; all but artifacts need every dependency to serve. */
  lemma DependenciesServe(p: Projection, id: ResourceID)
    requires ValidProjection(p) && id in Serving(p)
    ensures p.resources[id].deps == {} ==> p.resources[id].kind.Document? || p.resources[id].kind.Chunk?
    ensures !p.resources[id].kind.DerivedArtifact? ==> p.resources[id].deps <= Serving(p)
  {
    assert ResourceFits(p, id);
  }

  /** A serving claim record resolves completely, and the claim depends on exactly what it names. */
  lemma ClaimsResolve(p: Projection, id: ResourceID, record: ClaimRecord)
    requires ValidProjection(p) && id in Serving(p) && p.resources[id].claimRecord == Some(record)
    ensures p.resources[id].kind.Claim? && IsSource(p, record.source)
    ensures record.provenance.supports != map[]
    ensures forall key | key in record.provenance.supports ::
              && record.provenance.supports[key].evidence != {}
              && forall e | e in record.provenance.supports[key].evidence :: IsEvidenceOf(p, record.source, e)
    ensures record.binding.SourceBacked? ==>
              && IsServingEntity(p, record.binding.subjectID) && IsServingEntity(p, record.binding.objectID)
              && 1 <= record.binding.predicateKey <= 10
              && (forall key | key in record.provenance.supports :: record.provenance.supports[key].complete)
    ensures forall d :: d in p.resources[id].deps <==>
              || d == record.source.id
              || (exists key, e | key in record.provenance.supports && e in record.provenance.supports[key].evidence ::
                    d == e.id)
              || (record.binding.SourceBacked? && (d == record.binding.subjectID || d == record.binding.objectID))
  {
    hide ValidProjection, IsEvidenceOf, IsSource, IsServingEntity, ValidClaimRecord, ClaimResolves, ClaimDependencies;
    ClaimParts(p, id, record);
    RecordIsValid(record);
    ClaimNames(p, id, record);
    DependenciesNamed(record);
    forall key, e | key in record.provenance.supports && e in record.provenance.supports[key].evidence
      ensures IsEvidenceOf(p, record.source, e)
    {
      EvidenceNamed(p, id, record, key, e);
    }
  }

  lemma ClaimParts(p: Projection, id: ResourceID, record: ClaimRecord)
    requires ValidProjection(p) && id in Serving(p) && p.resources[id].claimRecord == Some(record)
    ensures p.resources[id].kind.Claim? && ClaimResolves(p.resources, p.resources[id]) && ValidClaimRecord(record)
    ensures p.resources[id].deps == ClaimDependencies(record) && ClaimDependencies(record) <= Serving(p)
  {
    assert ResourceFits(p, id);
    assert ClaimResolves(p.resources, p.resources[id]);
    assert DependenciesResolve(p.resources, p.resources[id]);
    hide ClaimDependencies, ValidClaimRecord;
  }

  lemma RecordIsValid(record: ClaimRecord)
    requires ValidClaimRecord(record)
    ensures record.provenance.supports != map[]
    ensures forall key | key in record.provenance.supports :: record.provenance.supports[key].evidence != {}
    ensures record.binding.SourceBacked? ==>
              && 1 <= record.binding.predicateKey <= 10
              && forall key | key in record.provenance.supports :: record.provenance.supports[key].complete
  {
    hide ValidEvidence;
  }

  lemma DependenciesNamed(record: ClaimRecord)
    ensures forall d :: d in ClaimDependencies(record) <==>
              || d == record.source.id
              || (exists key, e | key in record.provenance.supports && e in record.provenance.supports[key].evidence ::
                    d == e.id)
              || (record.binding.SourceBacked? && (d == record.binding.subjectID || d == record.binding.objectID))
  {
  }

  lemma ClaimNames(p: Projection, id: ResourceID, record: ClaimRecord)
    requires id in Serving(p) && p.resources[id].claimRecord == Some(record) && ClaimResolves(p.resources, p.resources[id])
    requires ClaimDependencies(record) <= Serving(p)
    ensures IsSource(p, record.source)
    ensures record.binding.SourceBacked? ==>
              IsServingEntity(p, record.binding.subjectID) && IsServingEntity(p, record.binding.objectID)
  {
    assert record.source.id in ClaimDependencies(record);
    if record.binding.SourceBacked? {
      assert record.binding.subjectID in ClaimDependencies(record) && record.binding.objectID in ClaimDependencies(record);
    }
    hide ClaimDependencies;
  }

  lemma EvidenceNamed(p: Projection, id: ResourceID, record: ClaimRecord, key: nat, e: EvidenceRef)
    requires id in Serving(p) && p.resources[id].claimRecord == Some(record) && ClaimResolves(p.resources, p.resources[id])
    requires ClaimDependencies(record) <= Serving(p)
    requires key in record.provenance.supports && e in record.provenance.supports[key].evidence
    ensures IsEvidenceOf(p, record.source, e)
  {
    assert e in record.provenance.Evidence();
    assert e.id in ClaimDependencies(record);
    hide ClaimDependencies;
    assert EvidenceResolves(p.resources, record.source, e);
  }

  /** A serving artifact has the support its mode asks for, and depends on exactly its members. */
  lemma ArtifactsSupported(p: Projection, id: ResourceID)
    requires ValidProjection(p) && id in Serving(p) && p.resources[id].kind.DerivedArtifact?
    ensures p.resources[id].security.Some?
    ensures var record := p.resources[id].security.value;
            && record.artifact.id == id && record.scope == p.scope && record.domain == p.snapshot.domain
            && record.watermark == p.version && record.supports != map[]
            && (match record.mode
                case AnySupport =>
                  exists key | key in record.supports ::
                    record.supports[key].complete
                    && forall m | m in record.supports[key].resources :: IsMember(p, m)
                case AllRequired =>
                  forall key, m | key in record.supports && m in record.supports[key].resources :: IsMember(p, m))
            && forall d :: d in p.resources[id].deps <==>
                 exists key, m | key in record.supports && m in record.supports[key].resources :: d == m.id
  {
    var artifact := p.resources[id];
    assert ResourceFits(p, id);
    var record := artifact.security.value;
    assert ArtifactResolves(p.resources, artifact) && ValidSecurityRecord(record);
    forall key, m | key in record.supports && m in record.supports[key].resources
      ensures m.id in Serving(p) ==> IsMember(p, m)
    {
      assert MembersResolve(p.resources, record.supports[key]);
    }
    match record.mode {
      case AnySupport =>
        var key :| key in record.supports && record.supports[key].complete
                && MembersServing(p.resources, record.supports[key]);
        assert forall m | m in record.supports[key].resources :: m.id in Serving(p);
      case AllRequired =>
        forall key, m | key in record.supports && m in record.supports[key].resources ensures m.id in Serving(p) {
          assert MembersServing(p.resources, record.supports[key]);
        }
    }
  }
}
