/**
 Graph binding contracts: what the validators accept, and the upgrade from the flat
 provenance of version 1 to the support groups of version 2.

 Graph object ids are digests of contract, projection and resource, and support
 keys digests of their identity, so both are those contents. Lists that must be
 unique and sorted are lists without repetition, or sets where only ids are listed.
 */
module GraphContract {
  import opened Wrappers
  import opened Catalog

  const V1 := 1
  const V2 := 2

  datatype GraphID = GraphID(contract: nat, projection: Version, resource: ResourceID)

  /** The serving identity of one resource. */
  datatype Handle = Handle(
    id: ResourceID, kind: ResourceType, scope: Scope, authzObject: nat, authzResource: ResourceID,
    digest: nat, versions: ResourceVersions)

  datatype ResourceBinding = ResourceBinding(contract: nat, graph: GraphID, resource: Handle)

  datatype SupportKey =
    | NamedSupport(id: nat)
    | DerivedV1(claim: ResourceID, mode: DerivationMode, evidence: set<ResourceID>)

  datatype SupportBinding = SupportBinding(key: SupportKey, provenance: set<GraphID>, provenanceIDs: set<ResourceID>)

  /** A version 1 claim omits the stable identities and the supports. */
  datatype ClaimTriple = ClaimTriple(
    contract: nat,
    claim: GraphID,
    subject: GraphID,
    predicateKey: nat,
    target: GraphID,
    source: GraphID,
    mode: DerivationMode,
    provenance: set<GraphID>,
    subjectID: Option<ResourceID>,
    targetID: Option<ResourceID>,
    sourceID: Option<ResourceID>,
    sourceVersion: Option<Version>,
    provenanceIDs: set<ResourceID>,
    supports: seq<SupportBinding>)

  // Resource bindings.

  predicate ValidHandle(h: Handle) {
    OwnBoundary(h.id, h.kind, h.authzResource) && h.versions.Valid()
  }

  predicate IsContract(contract: nat) {
    contract == V1 || contract == V2
  }

  function NewGraphID(contract: nat, h: Handle): GraphID {
    GraphID(contract, h.versions.projection, h.id)
  }

  predicate ValidBinding(b: ResourceBinding) {
    IsContract(b.contract) && ValidHandle(b.resource) && b.graph == NewGraphID(b.contract, b.resource)
  }

  predicate SameServing(expected: Handle, actual: Handle) {
    && actual.scope == expected.scope
    && actual.versions.source == expected.versions.source
    && actual.versions.acl == expected.versions.acl
    && actual.versions.index == expected.versions.index
    && actual.versions.graph == expected.versions.graph
    && actual.versions.projection == expected.versions.projection
  }

  predicate HasParent(resources: seq<ResourceBinding>, chunk: Handle) {
    exists parent | parent in resources ::
      && parent.resource.id == chunk.authzResource
      && parent.resource.kind.Document?
      && parent.resource.authzObject == chunk.authzObject
  }

  predicate ValidResources(resources: seq<ResourceBinding>) {
    && resources != []
    && (forall b | b in resources ::
          ValidBinding(b) && b.contract == resources[0].contract && SameServing(resources[0].resource, b.resource))
    && (forall i, j | 0 <= i < j < |resources| ::
          resources[i].graph != resources[j].graph && resources[i].resource.id != resources[j].resource.id)
    && (forall b | b in resources :: b.resource.kind.Chunk? ==> HasParent(resources, b.resource))
  }

  /** The handle bound to each graph object. */
  function ByGraph(resources: seq<ResourceBinding>): map<GraphID, Handle> {
    if resources == [] then map[]
    else
      var last := resources[|resources| - 1];
      ByGraph(resources[..|resources| - 1])[last.graph := last.resource]
  }

  // Claim bindings.

  predicate ValidGroupBinding(s: SupportBinding) {
    s.provenance != {} && s.provenanceIDs != {} && |s.provenance| == |s.provenanceIDs|
  }

  predicate DistinctKeys(supports: seq<SupportBinding>) {
    forall i, j | 0 <= i < j < |supports| :: supports[i].key != supports[j].key
  }

  function GroupedGraphs(supports: seq<SupportBinding>): set<GraphID> {
    set i, g | 0 <= i < |supports| && g in supports[i].provenance :: g
  }

  function GroupedIDs(supports: seq<SupportBinding>): set<ResourceID> {
    set i, id | 0 <= i < |supports| && id in supports[i].provenanceIDs :: id
  }

  predicate ValidShape(c: ClaimTriple) {
    && IsContract(c.contract)
    && c.predicateKey > 0
    && c.provenance != {}
    && if c.contract == V1 then
         && c.subjectID.None? && c.targetID.None? && c.sourceID.None? && c.sourceVersion.None?
         && c.provenanceIDs == {} && c.supports == []
       else
         && IsSupportedPredicate(c.predicateKey)
         && c.subjectID.Some? && c.targetID.Some? && c.sourceID.Some? && c.sourceVersion.Some?
         && c.provenanceIDs != {} && c.supports != []
         && (forall s | s in c.supports :: ValidGroupBinding(s))
         && DistinctKeys(c.supports)
         && c.provenance == GroupedGraphs(c.supports)
         && c.provenanceIDs == GroupedIDs(c.supports)
  }

  predicate IsBound(bound: map<GraphID, Handle>, g: GraphID, kind: ResourceType) {
    g in bound && bound[g].kind == kind
  }

  /** Provenance is bound source evidence within the source document. */
  predicate WithinSource(bound: map<GraphID, Handle>, graphs: set<GraphID>, source: Handle) {
    forall g | g in graphs ::
      && g in bound
      && (bound[g].kind.Document? || bound[g].kind.Chunk?)
      && (bound[g].id == source.id || bound[g].authzResource == source.id)
  }

  function IDsOf(bound: map<GraphID, Handle>, graphs: set<GraphID>): set<ResourceID> {
    set g | g in graphs && g in bound :: bound[g].id
  }

  /** The stable ids are exactly those of the graph objects. */
  predicate StableMatches(bound: map<GraphID, Handle>, graphs: set<GraphID>, ids: set<ResourceID>) {
    |IDsOf(bound, graphs)| == |ids| && ids <= IDsOf(bound, graphs)
  }

  predicate Identified(bound: map<GraphID, Handle>, c: ClaimTriple)
    requires c.subject in bound && c.target in bound && c.source in bound
  {
    && c.subjectID == Some(bound[c.subject].id)
    && c.targetID == Some(bound[c.target].id)
    && c.sourceID == Some(bound[c.source].id)
    && c.sourceVersion == Some(bound[c.source].versions.source)
    && StableMatches(bound, c.provenance, c.provenanceIDs)
    && forall s | s in c.supports ::
         WithinSource(bound, s.provenance, bound[c.source]) && StableMatches(bound, s.provenance, s.provenanceIDs)
  }

  predicate ValidClaim(bound: map<GraphID, Handle>, contract: nat, c: ClaimTriple) {
    && ValidShape(c)
    && c.contract == contract
    && IsBound(bound, c.claim, Claim)
    && IsBound(bound, c.subject, Entity)
    && IsBound(bound, c.target, Entity)
    && IsBound(bound, c.source, Document)
    && WithinSource(bound, c.provenance, bound[c.source])
    && (c.contract == V2 ==> Identified(bound, c))
    && bound[c.claim].scope == bound[c.source].scope
  }

  predicate ValidClaims(resources: seq<ResourceBinding>, claims: seq<ClaimTriple>) {
    && ValidResources(resources)
    && (forall c | c in claims :: ValidClaim(ByGraph(resources), resources[0].contract, c))
    && (forall i, j | 0 <= i < j < |claims| :: claims[i].claim != claims[j].claim)
  }

  // What a claim's provenance means.

  /** Version 1: all of a flat list, or any one of it. */
  predicate DerivableV1(bound: map<GraphID, Handle>, c: ClaimTriple, visible: set<ResourceID>) {
    match c.mode
    case AllRequired => IDsOf(bound, c.provenance) <= visible
    case AnySupport => exists id | id in IDsOf(bound, c.provenance) :: id in visible
  }

  /** Version 2: all of the support groups, or any one group in full. */
  predicate DerivableV2(c: ClaimTriple, visible: set<ResourceID>) {
    match c.mode
    case AllRequired => forall s | s in c.supports :: s.provenanceIDs <= visible
    case AnySupport => exists s | s in c.supports :: s.provenanceIDs <= visible
  }

  // Facts about the bound resources.

  lemma {:induction false} BoundIff(resources: seq<ResourceBinding>, g: GraphID)
    ensures g in ByGraph(resources) <==> exists b :: b in resources && b.graph == g
    ensures g in ByGraph(resources) ==> exists b :: b in resources && b.graph == g && b.resource == ByGraph(resources)[g]
    decreases |resources|
  {
    if resources != [] {
      var n := |resources| - 1;
      BoundIff(resources[..n], g);
      assert resources == resources[..n] + [resources[n]];
    }
  }

  lemma {:induction false} BoundAt(resources: seq<ResourceBinding>, b: ResourceBinding)
    requires forall i, j | 0 <= i < j < |resources| :: resources[i].graph != resources[j].graph
    requires b in resources
    ensures b.graph in ByGraph(resources) && ByGraph(resources)[b.graph] == b.resource
    decreases |resources|
  {
    var n := |resources| - 1;
    if b == resources[n] {
    } else {
      assert b in resources[..n];
      BoundAt(resources[..n], b);
    }
  }

  /** In valid resources a bound graph object is its resource's. */
  lemma BoundIsOwn(resources: seq<ResourceBinding>, g: GraphID)
    requires ValidResources(resources) && g in ByGraph(resources)
    ensures g == NewGraphID(resources[0].contract, ByGraph(resources)[g])
    ensures ValidHandle(ByGraph(resources)[g])
  {
    BoundIff(resources, g);
  }
}
