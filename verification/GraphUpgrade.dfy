/** The upgrade of a coherent version 1 graph projection to version 2. */
module GraphUpgrade {
  import opened Wrappers
  import opened Catalog
  import opened GraphContract

  /** The version 2 id of the resource behind a version 1 id. */
  function Lift(g: GraphID): GraphID {
    g.(contract := V2)
  }

  function LiftAll(graphs: set<GraphID>): set<GraphID> {
    set g | g in graphs :: Lift(g)
  }

  function NewBinding(h: Handle): ResourceBinding {
    ResourceBinding(V2, NewGraphID(V2, h), h)
  }

  /** One support group with all of the provenance. */
  function WholeSupport(claim: Handle, mode: DerivationMode, graphs: set<GraphID>, ids: set<ResourceID>): SupportBinding {
    SupportBinding(DerivedV1(claim.id, mode, ids), graphs, ids)
  }

  function SingleSupport(bound: map<GraphID, Handle>, c: ClaimTriple, g: GraphID): SupportBinding
    requires c.claim in bound && g in bound
  {
    SupportBinding(DerivedV1(bound[c.claim].id, c.mode, {bound[g].id}), {Lift(g)}, {bound[g].id})
  }

  /** One support for each piece of evidence, listed in this order. */
  ghost predicate SingleSupports(
    bound: map<GraphID, Handle>, c: ClaimTriple, supports: seq<SupportBinding>, order: seq<GraphID>)
    requires c.claim in bound && forall g | g in c.provenance :: g in bound
  {
    && |order| == |supports|
    && Distinct(order)
    && (forall g :: g in order <==> g in c.provenance)
    && (forall i | 0 <= i < |order| ::
          assert order[i] in order;
          supports[i] == SingleSupport(bound, c, order[i]))
  }

  /** All required is one group; any support is one group for each piece of evidence. */
  ghost predicate SupportsOf(bound: map<GraphID, Handle>, c: ClaimTriple, supports: seq<SupportBinding>)
    requires c.claim in bound && forall g | g in c.provenance :: g in bound
  {
    match c.mode
    case AllRequired =>
      supports == [WholeSupport(bound[c.claim], c.mode, LiftAll(c.provenance), IDsOf(bound, c.provenance))]
    case AnySupport => exists order :: SingleSupports(bound, c, supports, order)
  }

  predicate AllBound(bound: map<GraphID, Handle>, c: ClaimTriple) {
    && c.claim in bound && c.subject in bound && c.target in bound && c.source in bound
    && forall g | g in c.provenance :: g in bound
  }

  /** The upgraded claim names the same resources and groups the same evidence. */
  ghost predicate Upgraded(bound: map<GraphID, Handle>, c: ClaimTriple, u: ClaimTriple)
    requires AllBound(bound, c)
  {
    && u == ClaimTriple(
         V2, Lift(c.claim), Lift(c.subject), c.predicateKey, Lift(c.target), Lift(c.source), c.mode,
         LiftAll(c.provenance), Some(bound[c.subject].id), Some(bound[c.target].id), Some(bound[c.source].id),
         Some(bound[c.source].versions.source), IDsOf(bound, c.provenance), u.supports)
    && SupportsOf(bound, c, u.supports)
  }

  // The upgraded resources.

  predicate UpgradedResources(resources: seq<ResourceBinding>, upgraded: seq<ResourceBinding>) {
    |upgraded| == |resources| && forall i | 0 <= i < |resources| :: upgraded[i] == NewBinding(resources[i].resource)
  }

  lemma ResourcesStayValid(resources: seq<ResourceBinding>, upgraded: seq<ResourceBinding>)
    requires ValidResources(resources) && UpgradedResources(resources, upgraded)
    ensures ValidResources(upgraded) && upgraded[0].contract == V2
  {
    forall b | b in upgraded
      ensures ValidBinding(b) && b.contract == V2 && SameServing(upgraded[0].resource, b.resource)
      ensures b.resource.kind.Chunk? ==> HasParent(upgraded, b.resource)
    {
      var i :| 0 <= i < |upgraded| && upgraded[i] == b;
      assert resources[i] in resources;
      if b.resource.kind.Chunk? {
        var parent :| parent in resources
                   && parent.resource.id == b.resource.authzResource && parent.resource.kind.Document?
                   && parent.resource.authzObject == b.resource.authzObject;
        var j :| 0 <= j < |resources| && resources[j] == parent;
        assert upgraded[j] in upgraded;
      }
    }
    forall i, j | 0 <= i < j < |upgraded| ensures upgraded[i].graph != upgraded[j].graph {
      assert resources[i].resource.id != resources[j].resource.id;
    }
  }

  /** Lifting an id finds the same resource among the upgraded bindings. */
  lemma LiftedIsBound(resources: seq<ResourceBinding>, upgraded: seq<ResourceBinding>, g: GraphID)
    requires ValidResources(resources) && resources[0].contract == V1 && UpgradedResources(resources, upgraded)
    requires g in ByGraph(resources)
    ensures Lift(g) in ByGraph(upgraded) && ByGraph(upgraded)[Lift(g)] == ByGraph(resources)[g]
    ensures Lift(g) == NewGraphID(V2, ByGraph(resources)[g])
  {
    ResourcesStayValid(resources, upgraded);
    BoundIff(resources, g);
    var b :| b in resources && b.graph == g && b.resource == ByGraph(resources)[g];
    var i :| 0 <= i < |resources| && resources[i] == b;
    assert ValidBinding(b);
    assert upgraded[i] in upgraded;
    BoundAt(upgraded, upgraded[i]);
  }

  // The upgraded claims.

  /** Bound graph objects of one contract and projection are as many as their resources. */
  lemma {:induction false} AsManyIDs(bound: map<GraphID, Handle>, graphs: set<GraphID>)
    requires forall g | g in graphs :: g in bound
    requires forall g, h | g in graphs && h in graphs :: bound[g].id == bound[h].id ==> g == h
    ensures |IDsOf(bound, graphs)| == |graphs|
    decreases graphs
  {
    if graphs == {} {
      assert IDsOf(bound, graphs) == {};
    } else {
      var g :| g in graphs;
      AsManyIDs(bound, graphs - {g});
      assert bound[g].id !in IDsOf(bound, graphs - {g});
      assert IDsOf(bound, graphs) == IDsOf(bound, graphs - {g}) + {bound[g].id};
    }
  }

  lemma OneProjection(resources: seq<ResourceBinding>, g: GraphID, h: GraphID)
    requires ValidResources(resources) && g in ByGraph(resources) && h in ByGraph(resources)
    ensures ByGraph(resources)[g].id == ByGraph(resources)[h].id ==> g == h
    ensures Lift(g) == Lift(h) ==> g == h
  {
    BoundIff(resources, g);
    BoundIff(resources, h);
    BoundIsOwn(resources, g);
    BoundIsOwn(resources, h);
  }

  /** A set of lifted ids resolves, among the upgraded bindings, to the same resources. */
  lemma LiftedResolve(resources: seq<ResourceBinding>, upgraded: seq<ResourceBinding>, graphs: set<GraphID>)
    requires ValidResources(resources) && resources[0].contract == V1 && UpgradedResources(resources, upgraded)
    requires forall g | g in graphs :: g in ByGraph(resources)
    ensures IDsOf(ByGraph(upgraded), LiftAll(graphs)) == IDsOf(ByGraph(resources), graphs)
    ensures |LiftAll(graphs)| == |IDsOf(ByGraph(resources), graphs)|
    ensures forall g | g in LiftAll(graphs) :: g in ByGraph(upgraded)
  {
    var bound, lifted := ByGraph(resources), ByGraph(upgraded);
    forall g | g in graphs ensures Lift(g) in lifted && lifted[Lift(g)] == bound[g] {
      LiftedIsBound(resources, upgraded, g);
    }
    var after := IDsOf(lifted, LiftAll(graphs));
    forall id ensures id in after <==> id in IDsOf(bound, graphs) {
      if id in IDsOf(bound, graphs) {
        var g :| g in graphs && bound[g].id == id;
        assert Lift(g) in LiftAll(graphs);
      }
    }
    ResourcesStayValid(resources, upgraded);
    forall g, h | g in LiftAll(graphs) && h in LiftAll(graphs) ensures lifted[g].id == lifted[h].id ==> g == h {
      OneProjection(upgraded, g, h);
    }
    AsManyIDs(lifted, LiftAll(graphs));
  }

  lemma LiftedWithin(
    resources: seq<ResourceBinding>, upgraded: seq<ResourceBinding>, graphs: set<GraphID>, source: Handle)
    requires ValidResources(resources) && resources[0].contract == V1 && UpgradedResources(resources, upgraded)
    requires WithinSource(ByGraph(resources), graphs, source)
    ensures WithinSource(ByGraph(upgraded), LiftAll(graphs), source)
  {
    forall g | g in graphs ensures Lift(g) in ByGraph(upgraded) && ByGraph(upgraded)[Lift(g)] == ByGraph(resources)[g] {
      LiftedIsBound(resources, upgraded, g);
    }
  }

  /** What each upgraded support has to satisfy. */
  predicate SupportFits(upgraded: map<GraphID, Handle>, s: SupportBinding, source: Handle) {
    ValidGroupBinding(s) && WithinSource(upgraded, s.provenance, source) && StableMatches(upgraded, s.provenance, s.provenanceIDs)
  }

  lemma WholeFits(
    resources: seq<ResourceBinding>, upgraded: seq<ResourceBinding>, graphs: set<GraphID>, source: Handle,
    key: SupportKey)
    requires ValidResources(resources) && resources[0].contract == V1 && UpgradedResources(resources, upgraded)
    requires graphs != {} && WithinSource(ByGraph(resources), graphs, source)
    ensures SupportFits(ByGraph(upgraded), SupportBinding(key, LiftAll(graphs), IDsOf(ByGraph(resources), graphs)), source)
  {
    LiftedResolve(resources, upgraded, graphs);
    LiftedWithin(resources, upgraded, graphs, source);
    var g :| g in graphs;
    assert Lift(g) in LiftAll(graphs);
    assert ByGraph(resources)[g].id in IDsOf(ByGraph(resources), graphs);
  }

  lemma SingleFits(
    resources: seq<ResourceBinding>, upgraded: seq<ResourceBinding>, c: ClaimTriple, g: GraphID, source: Handle)
    requires ValidResources(resources) && resources[0].contract == V1 && UpgradedResources(resources, upgraded)
    requires c.claim in ByGraph(resources) && WithinSource(ByGraph(resources), {g}, source)
    ensures SupportFits(ByGraph(upgraded), SingleSupport(ByGraph(resources), c, g), source)
  {
    WholeFits(resources, upgraded, {g}, source, SingleSupport(ByGraph(resources), c, g).key);
    assert LiftAll({g}) == {Lift(g)};
    assert IDsOf(ByGraph(resources), {g}) == {ByGraph(resources)[g].id};
  }

  lemma EvidenceIsGrouped(
    bound: map<GraphID, Handle>, c: ClaimTriple, supports: seq<SupportBinding>, order: seq<GraphID>, g: GraphID)
    requires c.claim in bound && forall h | h in c.provenance :: h in bound
    requires SingleSupports(bound, c, supports, order) && g in c.provenance
    ensures Lift(g) in GroupedGraphs(supports) && bound[g].id in GroupedIDs(supports)
  {
    var i :| 0 <= i < |order| && order[i] == g;
    assert supports[i] == SingleSupport(bound, c, g);
    assert Lift(g) in supports[i].provenance && bound[g].id in supports[i].provenanceIDs;
  }

  lemma GroupIsEvidence(
    bound: map<GraphID, Handle>, c: ClaimTriple, supports: seq<SupportBinding>, order: seq<GraphID>, i: nat)
    requires c.claim in bound && forall h | h in c.provenance :: h in bound
    requires SingleSupports(bound, c, supports, order) && i < |supports|
    ensures supports[i].provenance <= LiftAll(c.provenance)
    ensures supports[i].provenanceIDs <= IDsOf(bound, c.provenance)
  {
    assert order[i] in order && order[i] in c.provenance;
    assert supports[i] == SingleSupport(bound, c, order[i]);
  }

  lemma GroupsOfSingles(
    bound: map<GraphID, Handle>, c: ClaimTriple, supports: seq<SupportBinding>, order: seq<GraphID>)
    requires c.claim in bound && forall g | g in c.provenance :: g in bound
    requires SingleSupports(bound, c, supports, order)
    ensures GroupedGraphs(supports) == LiftAll(c.provenance)
    ensures GroupedIDs(supports) == IDsOf(bound, c.provenance)
  {
    hide SingleSupports;
    forall g | g in c.provenance ensures Lift(g) in GroupedGraphs(supports) && bound[g].id in GroupedIDs(supports) {
      EvidenceIsGrouped(bound, c, supports, order, g);
    }
    forall i | 0 <= i < |supports|
      ensures supports[i].provenance <= LiftAll(c.provenance)
      ensures supports[i].provenanceIDs <= IDsOf(bound, c.provenance)
    {
      GroupIsEvidence(bound, c, supports, order, i);
    }
  }

  lemma GroupsOfWhole(s: SupportBinding)
    ensures GroupedGraphs([s]) == s.provenance && GroupedIDs([s]) == s.provenanceIDs
  {
    assert [s][0] == s;
    assert forall g | g in s.provenance :: g in [s][0].provenance;
    assert forall id | id in s.provenanceIDs :: id in [s][0].provenanceIDs;
  }

  lemma SinglesDistinct(
    resources: seq<ResourceBinding>, c: ClaimTriple, supports: seq<SupportBinding>, order: seq<GraphID>)
    requires ValidResources(resources) && AllBound(ByGraph(resources), c)
    requires SingleSupports(ByGraph(resources), c, supports, order)
    ensures DistinctKeys(supports)
  {
    var bound := ByGraph(resources);
    forall i, j | 0 <= i < j < |supports| ensures supports[i].key != supports[j].key {
      assert order[i] in order && order[j] in order;
      OneProjection(resources, order[i], order[j]);
      assert bound[order[i]].id in {bound[order[i]].id};
    }
  }

  /** The supports group the evidence exactly, under distinct keys, each fit for the contract. */
  predicate SupportsFit(
    upgraded: map<GraphID, Handle>, supports: seq<SupportBinding>, graphs: set<GraphID>, ids: set<ResourceID>,
    source: Handle)
  {
    && supports != [] && DistinctKeys(supports)
    && GroupedGraphs(supports) == graphs && GroupedIDs(supports) == ids
    && forall s | s in supports :: SupportFits(upgraded, s, source)
  }

  lemma UpgradedSupportsFit(
    resources: seq<ResourceBinding>, upgraded: seq<ResourceBinding>, c: ClaimTriple, supports: seq<SupportBinding>)
    requires ValidResources(resources) && resources[0].contract == V1 && UpgradedResources(resources, upgraded)
    requires AllBound(ByGraph(resources), c) && c.provenance != {}
    requires WithinSource(ByGraph(resources), c.provenance, ByGraph(resources)[c.source])
    requires SupportsOf(ByGraph(resources), c, supports)
    ensures SupportsFit(ByGraph(upgraded), supports, LiftAll(c.provenance), IDsOf(ByGraph(resources), c.provenance),
                        ByGraph(resources)[c.source])
  {
    var bound := ByGraph(resources);
    if c.mode.AllRequired? {
      GroupsOfWhole(supports[0]);
      WholeFits(resources, upgraded, c.provenance, bound[c.source], supports[0].key);
    } else {
      var order :| SingleSupports(bound, c, supports, order);
      GroupsOfSingles(bound, c, supports, order);
      SinglesDistinct(resources, c, supports, order);
      var g :| g in c.provenance;
      assert g in order;
      forall s | s in supports ensures SupportFits(ByGraph(upgraded), s, bound[c.source]) {
        var i :| 0 <= i < |supports| && supports[i] == s;
        assert order[i] in order;
        SingleFits(resources, upgraded, c, order[i], bound[c.source]);
      }
    }
  }

  /** An upgraded claim is one the version 2 validator accepts. */
  lemma ClaimStaysValid(
    resources: seq<ResourceBinding>, upgraded: seq<ResourceBinding>, c: ClaimTriple, u: ClaimTriple)
    requires ValidResources(resources) && resources[0].contract == V1 && UpgradedResources(resources, upgraded)
    requires ValidClaim(ByGraph(resources), V1, c) && IsSupportedPredicate(c.predicateKey)
    requires AllBound(ByGraph(resources), c) && Upgraded(ByGraph(resources), c, u)
    ensures ValidClaim(ByGraph(upgraded), V2, u)
  {
    UpgradedSupportsFit(resources, upgraded, c, u.supports);
    LiftedIsBound(resources, upgraded, c.claim);
    LiftedIsBound(resources, upgraded, c.subject);
    LiftedIsBound(resources, upgraded, c.target);
    LiftedIsBound(resources, upgraded, c.source);
    LiftedWithin(resources, upgraded, c.provenance, ByGraph(resources)[c.source]);
    LiftedResolve(resources, upgraded, c.provenance);
    var g :| g in c.provenance;
    assert Lift(g) in LiftAll(c.provenance);
    assert ByGraph(resources)[g].id in IDsOf(ByGraph(resources), c.provenance);
    AssembleClaim(ByGraph(resources), ByGraph(upgraded), c, u);
  }

  lemma AssembleClaim(bound: map<GraphID, Handle>, upgraded: map<GraphID, Handle>, c: ClaimTriple, u: ClaimTriple)
    requires ValidClaim(bound, V1, c) && IsSupportedPredicate(c.predicateKey) && AllBound(bound, c)
    requires Upgraded(bound, c, u)
    requires SupportsFit(upgraded, u.supports, LiftAll(c.provenance), IDsOf(bound, c.provenance), bound[c.source])
    requires forall g | g in {c.claim, c.subject, c.target, c.source} ::
               Lift(g) in upgraded && upgraded[Lift(g)] == bound[g]
    requires WithinSource(upgraded, LiftAll(c.provenance), bound[c.source])
    requires IDsOf(upgraded, LiftAll(c.provenance)) == IDsOf(bound, c.provenance)
    requires LiftAll(c.provenance) != {} && IDsOf(bound, c.provenance) != {}
    ensures ValidClaim(upgraded, V2, u)
  {
    hide SupportsOf, WithinSource, GroupedGraphs, GroupedIDs, IDsOf, LiftAll;
    assert c.claim in {c.claim, c.subject, c.target, c.source};
    assert forall s | s in u.supports :: SupportFits(upgraded, s, bound[c.source]);
  }

  /** A group of one is visible exactly when its evidence is. */
  lemma AnySingleVisible(
    bound: map<GraphID, Handle>, c: ClaimTriple, supports: seq<SupportBinding>, order: seq<GraphID>,
    visible: set<ResourceID>)
    requires c.claim in bound && forall g | g in c.provenance :: g in bound
    requires SingleSupports(bound, c, supports, order)
    ensures (exists s | s in supports :: s.provenanceIDs <= visible)
       <==> (exists id | id in IDsOf(bound, c.provenance) :: id in visible)
  {
    if id :| id in IDsOf(bound, c.provenance) && id in visible {
      var g :| g in c.provenance && bound[g].id == id;
      var i :| 0 <= i < |order| && order[i] == g;
      assert supports[i].provenanceIDs == {id} && supports[i] in supports;
    }
    if s :| s in supports && s.provenanceIDs <= visible {
      var i :| 0 <= i < |supports| && supports[i] == s;
      assert order[i] in order && bound[order[i]].id in s.provenanceIDs;
      assert bound[order[i]].id in IDsOf(bound, c.provenance);
    }
  }

  /**
   The upgrade preserves meaning: with any resources visible, a kept claim is
   derivable from its support groups exactly when it was from its flat provenance.
   */
  lemma DerivabilityPreserved(bound: map<GraphID, Handle>, c: ClaimTriple, u: ClaimTriple, visible: set<ResourceID>)
    requires AllBound(bound, c) && Upgraded(bound, c, u)
    ensures DerivableV2(u, visible) <==> DerivableV1(bound, c, visible)
  {
    hide SingleSupports, IDsOf, LiftAll;
    if c.mode.AnySupport? {
      var order :| SingleSupports(bound, c, u.supports, order);
      AnySingleVisible(bound, c, u.supports, order, visible);
    }
  }

  // The upgrade itself.

  datatype Upgrade = Upgrade(resources: seq<ResourceBinding>, claims: seq<ClaimTriple>)

  /** The claims whose predicate the allowlist declares. */
  function Kept(claims: seq<ClaimTriple>): seq<ClaimTriple> {
    if claims == [] then []
    else
      Kept(claims[..|claims| - 1])
      + (if IsSupportedPredicate(claims[|claims| - 1].predicateKey) then [claims[|claims| - 1]] else [])
  }

  lemma {:induction false} KeptMembers(claims: seq<ClaimTriple>)
    ensures forall c :: c in Kept(claims) <==> c in claims && IsSupportedPredicate(c.predicateKey)
    decreases |claims|
  {
    if claims != [] {
      KeptMembers(claims[..|claims| - 1]);
      assert claims == claims[..|claims| - 1] + [claims[|claims| - 1]];
    }
  }

  lemma {:induction false} KeptDistinct(claims: seq<ClaimTriple>)
    requires forall i, j | 0 <= i < j < |claims| :: claims[i].claim != claims[j].claim
    ensures forall i, j | 0 <= i < j < |Kept(claims)| :: Kept(claims)[i].claim != Kept(claims)[j].claim
    decreases |claims|
  {
    if claims != [] {
      var n := |claims| - 1;
      KeptDistinct(claims[..n]);
      KeptMembers(claims[..n]);
      forall i | 0 <= i < |Kept(claims[..n])| ensures Kept(claims[..n])[i].claim != claims[n].claim {
        assert Kept(claims[..n])[i] in claims[..n];
      }
    }
  }

  /** The upgraded claims are the kept ones, upgraded one by one. */
  ghost predicate UpgradedClaims(bound: map<GraphID, Handle>, kept: seq<ClaimTriple>, upgraded: seq<ClaimTriple>) {
    && |upgraded| == |kept|
    && forall i | 0 <= i < |kept| :: AllBound(bound, kept[i]) && Upgraded(bound, kept[i], upgraded[i])
  }

  lemma ClaimsStayValid(
    resources: seq<ResourceBinding>, claims: seq<ClaimTriple>, upgraded: seq<ResourceBinding>, us: seq<ClaimTriple>)
    requires ValidClaims(resources, claims) && resources[0].contract == V1
    requires UpgradedResources(resources, upgraded) && UpgradedClaims(ByGraph(resources), Kept(claims), us)
    ensures ValidClaims(upgraded, us)
  {
    ResourcesStayValid(resources, upgraded);
    KeptMembers(claims);
    KeptDistinct(claims);
    var kept := Kept(claims);
    hide Upgraded, ValidClaim, ValidResources, AllBound;
    forall u | u in us ensures ValidClaim(ByGraph(upgraded), V2, u) {
      var i :| 0 <= i < |us| && us[i] == u;
      assert kept[i] in kept;
      ClaimStaysValid(resources, upgraded, kept[i], u);
    }
    forall i, j | 0 <= i < j < |us| ensures us[i].claim != us[j].claim {
      assert kept[i] in kept && kept[j] in kept;
      ClaimIDsDiffer(resources, kept[i], kept[j], us[i], us[j]);
    }
  }

  lemma ClaimIDsDiffer(
    resources: seq<ResourceBinding>, c: ClaimTriple, d: ClaimTriple, u: ClaimTriple, v: ClaimTriple)
    requires ValidResources(resources) && AllBound(ByGraph(resources), c) && AllBound(ByGraph(resources), d)
    requires Upgraded(ByGraph(resources), c, u) && Upgraded(ByGraph(resources), d, v)
    requires c.claim != d.claim
    ensures u.claim != v.claim
  {
    OneProjection(resources, c.claim, d.claim);
  }

  /** The lifted ids and the resources of a set of graph objects, in one pass. */
  method LiftProvenance(bound: map<GraphID, Handle>, lifted: map<GraphID, GraphID>, graphs: set<GraphID>)
    returns (above: set<GraphID>, ids: set<ResourceID>)
    requires forall g | g in graphs :: g in bound && g in lifted && lifted[g] == Lift(g)
    ensures above == LiftAll(graphs) && ids == IDsOf(bound, graphs)
  {
    above, ids := {}, {};
    var rest := graphs;
    while rest != {}
      invariant rest <= graphs
      invariant above == LiftAll(graphs - rest) && ids == IDsOf(bound, graphs - rest)
      decreases |rest|
    {
      var g :| g in rest;
      assert graphs - (rest - {g}) == (graphs - rest) + {g};
      rest := rest - {g};
      above := above + {lifted[g]};
      ids := ids + {bound[g].id};
    }
    assert graphs - rest == graphs;
  }

  method SingleSupportsOf(bound: map<GraphID, Handle>, lifted: map<GraphID, GraphID>, c: ClaimTriple)
    returns (supports: seq<SupportBinding>, ghost order: seq<GraphID>)
    requires AllBound(bound, c) && forall g | g in c.provenance :: g in lifted && lifted[g] == Lift(g)
    ensures SingleSupports(bound, c, supports, order)
  {
    supports, order := [], [];
    var rest := c.provenance;
    while rest != {}
      invariant rest <= c.provenance
      invariant |order| == |supports| && Distinct(order)
      invariant forall g :: g in order <==> g in c.provenance && g !in rest
      invariant forall i | 0 <= i < |order| ::
                  order[i] in bound && supports[i] == SingleSupport(bound, c, order[i])
      decreases |rest|
    {
      var g :| g in rest;
      rest := rest - {g};
      var id := bound[g].id;
      supports := supports + [SupportBinding(DerivedV1(bound[c.claim].id, c.mode, {id}), {lifted[g]}, {id})];
      order := order + [g];
    }
  }

  method UpgradeClaim(bound: map<GraphID, Handle>, lifted: map<GraphID, GraphID>, c: ClaimTriple)
    returns (u: ClaimTriple)
    requires AllBound(bound, c) && forall g | g in bound :: g in lifted && lifted[g] == Lift(g)
    ensures Upgraded(bound, c, u)
  {
    var provenance, ids := LiftProvenance(bound, lifted, c.provenance);
    var supports: seq<SupportBinding>;
    match c.mode {
      case AllRequired =>
        supports := [SupportBinding(DerivedV1(bound[c.claim].id, c.mode, ids), provenance, ids)];
      case AnySupport =>
        ghost var order;
        supports, order := SingleSupportsOf(bound, lifted, c);
    }
    u := ClaimTriple(
      V2, lifted[c.claim], lifted[c.subject], c.predicateKey, lifted[c.target], lifted[c.source], c.mode, provenance,
      Some(bound[c.subject].id), Some(bound[c.target].id), Some(bound[c.source].id),
      Some(bound[c.source].versions.source), ids, supports);
  }

  method UpgradeResources(resources: seq<ResourceBinding>)
    returns (upgraded: seq<ResourceBinding>, lifted: map<GraphID, GraphID>, bound: map<GraphID, Handle>)
    requires ValidResources(resources) && resources[0].contract == V1
    ensures UpgradedResources(resources, upgraded) && bound == ByGraph(resources)
    ensures forall g | g in bound :: g in lifted && lifted[g] == Lift(g)
  {
    upgraded, lifted, bound := [], map[], map[];
    for i := 0 to |resources|
      invariant UpgradedResources(resources[..i], upgraded) && bound == ByGraph(resources[..i])
      invariant forall g | g in bound :: g in lifted && lifted[g] == Lift(g)
    {
      assert resources[..i + 1][..i] == resources[..i] && resources[i] in resources;
      var binding := NewBinding(resources[i].resource);
      upgraded := upgraded + [binding];
      lifted := lifted[resources[i].graph := binding.graph];
      bound := bound[resources[i].graph := resources[i].resource];
    }
    assert resources[..|resources|] == resources;
  }

  lemma ValidIsBound(bound: map<GraphID, Handle>, contract: nat, c: ClaimTriple)
    requires ValidClaim(bound, contract, c)
    ensures AllBound(bound, c)
  {
  }

  method UpgradeClaims(
    claims: seq<ClaimTriple>, bound: map<GraphID, Handle>, lifted: map<GraphID, GraphID>)
    returns (upgraded: seq<ClaimTriple>)
    requires forall c | c in claims :: ValidClaim(bound, V1, c)
    requires forall g | g in bound :: g in lifted && lifted[g] == Lift(g)
    ensures UpgradedClaims(bound, Kept(claims), upgraded)
  {
    upgraded := [];
    for i := 0 to |claims|
      invariant UpgradedClaims(bound, Kept(claims[..i]), upgraded)
    {
      hide Upgraded, ValidClaim, AllBound;
      assert claims[..i + 1][..i] == claims[..i] && claims[i] in claims;
      if IsSupportedPredicate(claims[i].predicateKey) {
        ValidIsBound(bound, V1, claims[i]);
        var u := UpgradeClaim(bound, lifted, claims[i]);
        upgraded := upgraded + [u];
      }
    }
    assert claims[..|claims|] == claims;
  }

  /**
   Every coherent version 1 graph projection upgrades, to one the version 2
   validators accept; version 2 input is returned unchanged; nothing else upgrades.
   */
  method UpgradeGraphBindingContract(resources: seq<ResourceBinding>, claims: seq<ClaimTriple>)
    returns (result: Option<Upgrade>)
    ensures result.Some? <==> ValidClaims(resources, claims)
    ensures result.Some? ==>
              && ValidClaims(result.value.resources, result.value.claims)
              && result.value.resources[0].contract == V2
              && if resources[0].contract == V2 then result.value == Upgrade(resources, claims)
                 else && UpgradedResources(resources, result.value.resources)
                      && UpgradedClaims(ByGraph(resources), Kept(claims), result.value.claims)
  {
    if !ValidClaims(resources, claims) {
      return None;
    }
    if resources[0].contract == V2 {
      return Some(Upgrade(resources, claims));
    }
    assert resources[0] in resources;
    var upgraded, lifted, bound := UpgradeResources(resources);
    var kept := UpgradeClaims(claims, bound, lifted);
    ClaimsStayValid(resources, claims, upgraded, kept);
    ResourcesStayValid(resources, upgraded);
    if !ValidClaims(upgraded, kept) {
      assert false;
      return None;
    }
    return Some(Upgrade(upgraded, kept));
  }
}
