/**
 The body-free catalog: resources, projections, runs and plans, with the
 validity rules the planner, replay and the journal rely on.

 Identifiers, versions and other tokens are opaque naturals; zero is the empty
 token. Slices the repository keeps sorted and duplicate-free are sets or maps.
 Digest-derived identifiers (plan and operation IDs) are the contents
 themselves, which makes them injective by construction.
 */
module Catalog {
  import opened Wrappers

  type ResourceID = nat
  type Version = nat
  type RunID = nat

  datatype Scope = Scope(tenant: nat, knowledgeBase: nat)

  datatype ResourceType = Document | Chunk | Entity | Claim | DerivedArtifact

  datatype LifecycleState =
    | StateStaged
    | StatePublished
    | StateRevoked
    | StateTombstoned
    | StateSuperseded
    | StateFailed
  {
    predicate IsTerminal() {
      StateRevoked? || StateTombstoned? || StateSuperseded?
    }
  }

  datatype ComponentState = ComponentPending | ComponentSucceeded | ComponentFailed

  datatype ProjectionStatus = ProjectionStatus(
    content: ComponentState,
    acl: ComponentState,
    index: ComponentState,
    graph: ComponentState,
    artifacts: ComponentState)
  {
    predicate Ready() {
      this == Succeeded
    }

    predicate Failed() {
      ComponentFailed in {content, acl, index, graph, artifacts}
    }
  }

  const Pending := ProjectionStatus(
    ComponentPending, ComponentPending, ComponentPending, ComponentPending, ComponentPending)

  const Succeeded := ProjectionStatus(
    ComponentSucceeded, ComponentSucceeded, ComponentSucceeded, ComponentSucceeded, ComponentSucceeded)

  datatype ResourceVersions = ResourceVersions(
    source: Version,
    content: Version,
    acl: Version,
    index: Version,
    graph: Version,
    projection: Version)
  {
    predicate Valid() {
      source > 0 && content > 0 && acl > 0 && index > 0 && graph > 0 && projection > 0
    }
  }

  datatype DerivationMode = AnySupport | AllRequired

  // Claim records.

  datatype DocumentVersionRef = DocumentVersionRef(
    id: ResourceID, source: Version, content: Version, acl: Version, projection: Version)

  datatype EvidenceRef = EvidenceRef(
    id: ResourceID, kind: ResourceType, versions: ResourceVersions, document: DocumentVersionRef)

  datatype Support = Support(complete: bool, evidence: set<EvidenceRef>)

  datatype Provenance = Provenance(mode: DerivationMode, supports: map<nat, Support>)
  {
    /** Every piece of evidence of every support. */
    function Evidence(): set<EvidenceRef> {
      set key, evidence | key in supports && evidence in supports[key].evidence :: evidence
    }
  }

  datatype ClaimBinding = Unbound | SourceBacked(subjectID: ResourceID, predicateKey: nat, objectID: ResourceID)

  datatype ClaimRecord = ClaimRecord(
    binding: ClaimBinding, source: DocumentVersionRef, provenance: Provenance)

  /** The predicate keys of the checked-in allowlist. */
  predicate IsSupportedPredicate(key: nat) {
    1 <= key <= 10
  }

  predicate ValidEvidence(e: EvidenceRef) {
    && e.versions.Valid()
    && e.versions.projection == e.document.projection
    && e.versions.source == e.document.source
    && e.versions.acl == e.document.acl
    && (e.kind.Document? ==> e.id == e.document.id && e.versions.content == e.document.content)
  }

  predicate ValidSupport(mode: DerivationMode, support: Support) {
    && support.evidence != {}
    && (mode.AnySupport? ==> support.complete)
    && (forall e | e in support.evidence :: ValidEvidence(e))
    && (forall e, f | e in support.evidence && f in support.evidence ::
          e.id == f.id && e.document.id == f.document.id ==> e == f)
  }

  predicate ValidProvenance(p: Provenance) {
    && p.supports != map[]
    && forall key | key in p.supports :: ValidSupport(p.mode, p.supports[key])
  }

  predicate ValidClaimRecord(record: ClaimRecord) {
    && ValidProvenance(record.provenance)
    && (forall e | e in record.provenance.Evidence() :: e.document == record.source)
    && (record.binding.SourceBacked? ==>
          && IsSupportedPredicate(record.binding.predicateKey)
          && (forall key | key in record.provenance.supports :: record.provenance.supports[key].complete)
          && (forall e | e in record.provenance.Evidence() :: e.kind.Document? || e.kind.Chunk?))
  }

  // Derived artifact security records.

  datatype ResourceIdentity = ResourceIdentity(
    id: ResourceID,
    kind: ResourceType,
    authzObject: nat,
    authzResource: ResourceID,
    digest: nat,
    versions: ResourceVersions)

  datatype SupportGroup = SupportGroup(complete: bool, resources: set<ResourceIdentity>)

  /** `context` stands for the principal, agent, task and watermark fields a
      rebinding copies unchanged. */
  datatype SecurityRecord = SecurityRecord(
    artifact: ResourceIdentity,
    mode: DerivationMode,
    supports: map<nat, SupportGroup>,
    scope: Scope,
    domain: nat,
    watermark: Version,
    context: nat)
  {
    /** The flattened dependency index of the support groups. */
    function Members(): set<ResourceID> {
      set key, identity | key in supports && identity in supports[key].resources :: identity.id
    }
  }

  /** A chunk's authorization boundary is another resource; any other resource is its own. */
  predicate OwnBoundary(id: ResourceID, kind: ResourceType, authzResource: ResourceID) {
    if kind.Chunk? then authzResource != id else authzResource == id
  }

  predicate ValidIdentity(identity: ResourceIdentity) {
    && identity.versions.Valid()
    && OwnBoundary(identity.id, identity.kind, identity.authzResource)
  }

  predicate ValidGroup(record: SecurityRecord, group: SupportGroup) {
    && (record.mode.AnySupport? ==> group.complete)
    && group.resources != {}
    && (forall identity | identity in group.resources ::
          && ValidIdentity(identity)
          && identity.id != record.artifact.id
          && identity.versions.projection == record.watermark)
    && (forall left, right | left in group.resources && right in group.resources ::
          left.id == right.id ==> left == right)
  }

  predicate ValidSecurityRecord(record: SecurityRecord) {
    && ValidIdentity(record.artifact)
    && record.artifact.kind.DerivedArtifact?
    && record.artifact.versions.projection == record.watermark
    && record.supports != map[]
    && forall key | key in record.supports :: ValidGroup(record, record.supports[key])
  }

  // Resources.

  datatype Resource = Resource(
    id: ResourceID,
    kind: ResourceType,
    scope: Scope,
    authzObject: nat,
    authzResource: ResourceID,
    digest: nat,
    versions: ResourceVersions,
    state: LifecycleState,
    status: ProjectionStatus,
    sensitivity: nat,
    domain: nat,
    deps: set<ResourceID>,
    claimRecord: Option<ClaimRecord>,
    security: Option<SecurityRecord>)
  {
    /** An artifact without a security record is quarantined, never served. */
    predicate IsServing() {
      && state.StatePublished?
      && status.Ready()
      && (kind.DerivedArtifact? ==> security.Some?)
    }

    predicate IsQuarantined() {
      kind.DerivedArtifact? && security.None? && state.StatePublished? && status.Ready()
    }

    function Identity(): ResourceIdentity {
      ResourceIdentity(id, kind, authzObject, authzResource, digest, versions)
    }
  }

  predicate ValidClaimMetadata(r: Resource) {
    match r.claimRecord
    case None => true
    case Some(record) =>
      && r.kind.Claim?
      && ValidClaimRecord(record)
      && r.versions.source == record.source.source
      && r.versions.acl == record.source.acl
      && r.versions.projection == record.source.projection
  }

  predicate ValidSecurityMetadata(r: Resource) {
    match r.security
    case None => true
    case Some(record) =>
      && r.kind.DerivedArtifact?
      && ValidSecurityRecord(record)
      && record.artifact == r.Identity()
      && record.scope == r.scope
      && record.domain == r.domain
  }

  predicate ValidResource(r: Resource) {
    && r.id > 0
    && OwnBoundary(r.id, r.kind, r.authzResource)
    && r.versions.Valid()
    && (r.state.StatePublished? ==> r.status.Ready())
    && ValidClaimMetadata(r)
    && ValidSecurityMetadata(r)
    && r.id !in r.deps
  }

  // Runs, operations and plans.

  datatype Snapshot = Snapshot(scope: Scope, version: Version, domain: nat, digest: nat, documentCount: nat)

  datatype RunState = RunStaged | RunRunning | RunSucceeded | RunFailed
  {
    predicate IsTerminal() {
      RunSucceeded? || RunFailed?
    }
  }

  datatype SyncRun = SyncRun(
    id: RunID,
    scope: Scope,
    snapshot: Snapshot,
    base: Version,
    version: Version,
    key: nat,
    state: RunState)

  predicate ValidRun(run: SyncRun) {
    && run.snapshot.scope == run.scope
    && run.snapshot.version > 0
    && run.base > 0
    && run.version > 0
    && run.base != run.version
  }

  datatype OperationKind =
    | Supersede
    | Stage
    | ProjectContent
    | ProjectACL
    | ProjectIndex
    | ProjectGraph
    | ProjectArtifact
    | Publish
    | Revoke
    | Tombstone
  {
    function Rank(): nat {
      match this
      case Supersede => 0
      case Stage => 1
      case ProjectContent => 2
      case ProjectACL => 3
      case ProjectIndex => 4
      case ProjectGraph => 5
      case ProjectArtifact => 6
      case Publish => 7
      case Revoke => 8
      case Tombstone => 9
    }

    predicate IsTarget() {
      1 <= Rank() <= 7
    }

    predicate IsTerminal() {
      Revoke? || Tombstone?
    }
  }

  /** An operation of one plan; its run and projection version are the plan's. */
  datatype Operation = Operation(kind: OperationKind, resource: Resource)

  /** Canonical order: by resource, then by kind. */
  predicate OperationLess(left: Operation, right: Operation) {
    || left.resource.id < right.resource.id
    || (left.resource.id == right.resource.id && left.kind.Rank() < right.kind.Rank())
  }

  predicate ValidOperation(op: Operation, run: SyncRun) {
    && ValidResource(op.resource)
    && op.resource.versions.projection == run.version
    && op.resource.scope == run.scope
    && op.resource.versions.source == run.snapshot.version
    && op.resource.domain == run.snapshot.domain
    && (op.kind.Supersede? ==> op.resource.state.StateSuperseded?)
  }

  /** A plan is its own identifier: the plan ID digests exactly these contents. */
  datatype Plan = Plan(run: SyncRun, operations: seq<Operation>)

  predicate Distinct<T(==)>(s: seq<T>) {
    forall i, j | 0 <= i < j < |s| :: s[i] != s[j]
  }

  predicate Canonical(ops: seq<Operation>) {
    forall i, j | 0 <= i < j < |ops| :: !OperationLess(ops[j], ops[i])
  }

  predicate ValidPlan(plan: Plan) {
    && ValidRun(plan.run)
    && plan.run.state.RunStaged?
    && (forall op | op in plan.operations :: ValidOperation(op, plan.run))
    && Distinct(plan.operations)
    && Canonical(plan.operations)
  }

  datatype ErrorCode =
    | InvalidOperationResult
    | OperationBlocked
    | ContextCancelled
    | ExecutionFailed
    | StaleBaseProjection
    | OperationFailedCode
    | ForeignCode(code: nat)

  datatype Outcome = OperationSucceeded | OperationFailed(error: ErrorCode)

  datatype OperationResult = OperationResult(operation: Operation, outcome: Outcome)

  /** Digest of the run, the projection version and the operation contents. */
  datatype OperationID = OperationID(run: RunID, version: Version, operation: Operation)

  datatype Receipt = Receipt(runKey: nat, outcome: Outcome)

  // Projections.

  datatype Projection = Projection(
    scope: Scope,
    version: Version,
    snapshot: Snapshot,
    state: LifecycleState,
    resources: map<ResourceID, Resource>,
    applied: set<Plan>,
    receipts: map<OperationID, Receipt>)

  function Serving(p: Projection): set<ResourceID> {
    set id | id in p.resources && p.resources[id].IsServing()
  }

  function Terminal(p: Projection): set<ResourceID> {
    set id | id in p.resources && p.resources[id].state.IsTerminal()
  }

  function Live(p: Projection): set<ResourceID> {
    set id | id in p.resources && !p.resources[id].state.IsTerminal()
  }

  /** Documents a published projection counts against its source snapshot. */
  function CountedDocuments(resources: map<ResourceID, Resource>): set<ResourceID> {
    set id | id in resources && resources[id].kind.Document? &&
             (resources[id].IsServing() || resources[id].state.StateRevoked?)
  }

  predicate WithinProjection(p: Projection, r: Resource) {
    && ValidResource(r)
    && r.scope == p.scope
    && r.versions.projection == p.version
    && r.versions.source == p.snapshot.version
    && r.domain == p.snapshot.domain
  }

  predicate StateAllowed(p: Projection, r: Resource) {
    if p.state.StatePublished? then
      r.state.IsTerminal() || r.IsServing() || r.IsQuarantined()
    else
      !r.IsServing()
  }

  predicate EvidenceResolves(
    resources: map<ResourceID, Resource>, source: DocumentVersionRef, e: EvidenceRef)
  {
    && e.id in resources
    && resources[e.id].kind == e.kind
    && resources[e.id].versions == e.versions
    && e.document == source
    && (e.kind.Document? ==> e.id == source.id)
    && (e.kind.Chunk? ==> resources[e.id].authzResource == source.id)
  }

  function ClaimDependencies(record: ClaimRecord): set<ResourceID> {
    {record.source.id}
    + (set e | e in record.provenance.Evidence() :: e.id)
    + (if record.binding.SourceBacked? then {record.binding.subjectID, record.binding.objectID} else {})
  }

  predicate IsEntity(resources: map<ResourceID, Resource>, id: ResourceID) {
    id in resources && resources[id].kind.Entity?
  }

  predicate ClaimResolves(resources: map<ResourceID, Resource>, claim: Resource) {
    claim.claimRecord.Some? ==>
      var record := claim.claimRecord.value;
      && record.source.id in resources
      && (var source := resources[record.source.id];
          && source.kind.Document?
          && source.versions.source == record.source.source
          && source.versions.content == record.source.content
          && source.versions.acl == record.source.acl
          && source.versions.projection == record.source.projection)
      && (forall e | e in record.provenance.Evidence() :: EvidenceResolves(resources, record.source, e))
      && (record.binding.SourceBacked? ==>
            IsEntity(resources, record.binding.subjectID) && IsEntity(resources, record.binding.objectID))
      && claim.deps == ClaimDependencies(record)
  }

  predicate MembersResolve(resources: map<ResourceID, Resource>, group: SupportGroup) {
    forall identity | identity in group.resources ::
      identity.id in resources && resources[identity.id].Identity() == identity
  }

  predicate MembersServing(resources: map<ResourceID, Resource>, group: SupportGroup) {
    forall identity | identity in group.resources ::
      identity.id in resources && resources[identity.id].IsServing()
  }

  predicate ArtifactResolves(resources: map<ResourceID, Resource>, artifact: Resource) {
    artifact.security.Some? ==>
      var record := artifact.security.value;
      && (forall key | key in record.supports :: MembersResolve(resources, record.supports[key]))
      && artifact.deps == record.Members()
      && (artifact.IsServing() ==>
            match record.mode
            case AllRequired =>
              forall key | key in record.supports :: MembersServing(resources, record.supports[key])
            case AnySupport =>
              exists key | key in record.supports ::
                record.supports[key].complete && MembersServing(resources, record.supports[key]))
  }

  predicate DependenciesResolve(resources: map<ResourceID, Resource>, r: Resource) {
    && (r.IsServing() && !r.kind.Document? && !r.kind.Chunk? ==> r.deps != {})
    && (forall dependency | dependency in r.deps ::
          && dependency in resources
          && (r.IsServing() && !r.kind.DerivedArtifact? ==> resources[dependency].IsServing()))
  }

  predicate InheritsBoundary(chunk: Resource, document: Resource) {
    && document.authzObject == chunk.authzObject
    && document.versions.source == chunk.versions.source
    && document.versions.acl == chunk.versions.acl
    && document.versions.projection == chunk.versions.projection
  }

  predicate ChunkResolves(resources: map<ResourceID, Resource>, chunk: Resource) {
    chunk.kind.Chunk? && chunk.IsServing() ==>
      && chunk.authzResource in resources
      && resources[chunk.authzResource].kind.Document?
      && resources[chunk.authzResource].IsServing()
      && InheritsBoundary(chunk, resources[chunk.authzResource])
  }

  predicate ResourceFits(p: Projection, id: ResourceID)
    requires id in p.resources
  {
    var r := p.resources[id];
    && r.id == id
    && WithinProjection(p, r)
    && StateAllowed(p, r)
    && ClaimResolves(p.resources, r)
    && ArtifactResolves(p.resources, r)
    && DependenciesResolve(p.resources, r)
    && ChunkResolves(p.resources, r)
  }

  predicate ValidProjection(p: Projection) {
    && p.version > 0
    && p.snapshot.version > 0
    && p.snapshot.scope == p.scope
    && (forall id | id in p.resources :: ResourceFits(p, id))
    && (p.state.StatePublished? ==> |CountedDocuments(p.resources)| == p.snapshot.documentCount)
  }

  /** Equality of definitions: everything but projection-bound materializations. */
  function Definition(r: Resource): Resource {
    r.(versions := r.versions.(projection := 0),
       state := StateStaged,
       status := Pending,
       security := None)
  }

  predicate SameDefinition(left: Resource, right: Resource) {
    Definition(left) == Definition(right)
  }
}
