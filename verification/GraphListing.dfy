/**
 Graph bindings as they are exchanged: every list in canonical order. The upgrade
 changes all graph ids, and with them their order; what it returns is sorted again
 and passes the validators, sortedness included.
 */
module GraphListing {
  import opened Wrappers
  import opened Catalog
  import opened Canonical
  import opened Ordering
  import opened GraphContract
  import opened GraphUpgrade
  import opened GraphProjecting

  /** How graph ids and support keys, which are digests, compare as strings. */
  datatype Order = Order(graph: GraphID -> nat, key: SupportKey -> nat)
  {
    ghost predicate Valid() {
      Injective(graph) && Injective(key)
    }

    function ByBinding(): ResourceBinding -> nat {
      (b: ResourceBinding) => graph(b.graph)
    }

    function BySupport(): SupportBinding -> nat {
      (s: SupportBinding) => key(s.key)
    }

    function ByClaim(): ClaimTriple -> nat {
      (c: ClaimTriple) => graph(c.claim)
    }
  }

  datatype ListedSupport = ListedSupport(key: SupportKey, provenance: seq<GraphID>, provenanceIDs: seq<ResourceID>)

  /** A claim whose evidence is listed; `triple` holds its other fields. */
  datatype ListedClaim = ListedClaim(
    triple: ClaimTriple, provenance: seq<GraphID>, provenanceIDs: seq<ResourceID>, supports: seq<ListedSupport>)

  function Unlist<T>(s: seq<T>): set<T> {
    set x | x in s
  }

  function UnlistedSupport(s: ListedSupport): SupportBinding {
    SupportBinding(s.key, Unlist(s.provenance), Unlist(s.provenanceIDs))
  }

  function UnlistedSupports(supports: seq<ListedSupport>): (r: seq<SupportBinding>)
    ensures |r| == |supports| && forall i | 0 <= i < |r| :: r[i] == UnlistedSupport(supports[i])
  {
    seq(|supports|, i requires 0 <= i < |supports| => UnlistedSupport(supports[i]))
  }

  function Unlisted(c: ListedClaim): ClaimTriple {
    c.triple.(provenance := Unlist(c.provenance), provenanceIDs := Unlist(c.provenanceIDs),
              supports := UnlistedSupports(c.supports))
  }

  function UnlistedClaims(claims: seq<ListedClaim>): (r: seq<ClaimTriple>)
    ensures |r| == |claims| && forall i | 0 <= i < |r| :: r[i] == Unlisted(claims[i])
  {
    seq(|claims|, i requires 0 <= i < |claims| => Unlisted(claims[i]))
  }

  // What the validators accept, order included.

  predicate CanonicalSupport(o: Order, s: ListedSupport) {
    Ranked(o.graph, s.provenance) && StrictlySorted(s.provenanceIDs)
  }

  /** The fields kept beside the lists are not kept twice. */
  predicate CanonicalClaim(o: Order, c: ListedClaim) {
    && c.triple.provenance == {} && c.triple.provenanceIDs == {} && c.triple.supports == []
    && Ranked(o.graph, c.provenance)
    && StrictlySorted(c.provenanceIDs)
    && Ranked(o.BySupport(), UnlistedSupports(c.supports))
    && forall s | s in c.supports :: CanonicalSupport(o, s)
  }

  predicate ValidListed(o: Order, resources: seq<ResourceBinding>, claims: seq<ListedClaim>) {
    && ValidClaims(resources, UnlistedClaims(claims))
    && Ranked(o.ByBinding(), resources)
    && Ranked(o.ByClaim(), UnlistedClaims(claims))
    && forall c | c in claims :: CanonicalClaim(o, c)
  }

  // Order plays no part in the rest of the validation.

  lemma SameBound(resources: seq<ResourceBinding>, sorted: seq<ResourceBinding>)
    requires forall b :: b in sorted <==> b in resources
    requires forall i, j | 0 <= i < j < |resources| :: resources[i].graph != resources[j].graph
    requires forall i, j | 0 <= i < j < |sorted| :: sorted[i].graph != sorted[j].graph
    ensures ByGraph(sorted) == ByGraph(resources)
  {
    var left, right := ByGraph(sorted), ByGraph(resources);
    forall g ensures (g in left <==> g in right) && (g in left ==> left[g] == right[g]) {
      BoundIff(sorted, g);
      BoundIff(resources, g);
      if g in left {
        var b :| b in sorted && b.graph == g && b.resource == left[g];
        BoundAt(resources, b);
      }
      if g in right {
        var b :| b in resources && b.graph == g && b.resource == right[g];
        BoundAt(sorted, b);
      }
    }
  }

  lemma PermutedResources(o: Order, resources: seq<ResourceBinding>, sorted: seq<ResourceBinding>)
    requires ValidResources(resources)
    requires multiset(sorted) == multiset(resources) && Ranked(o.ByBinding(), sorted)
    ensures ValidResources(sorted) && ByGraph(sorted) == ByGraph(resources)
    ensures sorted != [] && sorted[0].contract == resources[0].contract
  {
    SameMultisetMembers(sorted, resources);
    assert sorted[0] in resources;
    forall i, j | 0 <= i < j < |sorted|
      ensures sorted[i].graph != sorted[j].graph && sorted[i].resource.id != sorted[j].resource.id
    {
      assert o.ByBinding()(sorted[i]) < o.ByBinding()(sorted[j]);
      assert sorted[i] in resources && sorted[j] in resources;
      var k :| 0 <= k < |resources| && resources[k] == sorted[i];
      var l :| 0 <= l < |resources| && resources[l] == sorted[j];
      assert k != l;
    }
    forall b | b in sorted
      ensures ValidBinding(b) && b.contract == sorted[0].contract && SameServing(sorted[0].resource, b.resource)
      ensures b.resource.kind.Chunk? ==> HasParent(sorted, b.resource)
    {
      assert b in resources;
    }
    SameBound(resources, sorted);
  }

  /** The same claim with its supports in another order. */
  ghost predicate Reordered(c: ClaimTriple, d: ClaimTriple) {
    && d == c.(supports := d.supports)
    && DistinctKeys(d.supports) && |d.supports| == |c.supports|
    && forall s :: s in d.supports <==> s in c.supports
  }

  lemma SameGroups(supports: seq<SupportBinding>, others: seq<SupportBinding>)
    requires forall s :: s in supports <==> s in others
    ensures GroupedGraphs(supports) == GroupedGraphs(others) && GroupedIDs(supports) == GroupedIDs(others)
  {
    GroupsWithin(supports, others);
    GroupsWithin(others, supports);
  }

  lemma GroupsWithin(supports: seq<SupportBinding>, others: seq<SupportBinding>)
    requires forall s | s in supports :: s in others
    ensures GroupedGraphs(supports) <= GroupedGraphs(others) && GroupedIDs(supports) <= GroupedIDs(others)
  {
    forall i | 0 <= i < |supports| ensures exists j :: 0 <= j < |others| && others[j] == supports[i] {
      assert supports[i] in others;
    }
  }

  lemma ReorderedValid(bound: map<GraphID, Handle>, contract: nat, c: ClaimTriple, d: ClaimTriple)
    requires ValidClaim(bound, contract, c) && Reordered(c, d)
    ensures ValidClaim(bound, contract, d)
  {
    SameGroups(c.supports, d.supports);
    assert c.supports == [] <==> d.supports == [];
  }

  // Listing.

  /** `l` lists the claim, its supports in any order. */
  ghost predicate Lists(c: ClaimTriple, l: ListedClaim) {
    Reordered(c, Unlisted(l))
  }

  lemma DistinctKeysApart(o: Order, supports: seq<SupportBinding>)
    requires o.Valid() && DistinctKeys(supports)
    ensures Separated(o.BySupport(), supports)
  {
    assert Injective(o.key);
  }

  method ListSupport(o: Order, s: SupportBinding) returns (l: ListedSupport)
    requires o.Valid()
    ensures CanonicalSupport(o, l) && UnlistedSupport(l) == s
  {
    var provenance := Members(o.graph, s.provenance);
    var ids := Ascending(s.provenanceIDs);
    l := ListedSupport(s.key, provenance, ids);
    assert Unlist(provenance) == s.provenance && Unlist(ids) == s.provenanceIDs;
  }

  method ListClaim(o: Order, c: ClaimTriple) returns (l: ListedClaim)
    requires o.Valid() && DistinctKeys(c.supports)
    ensures CanonicalClaim(o, l) && Lists(c, l)
  {
    DistinctKeysApart(o, c.supports);
    var sorted := Arrange(o.BySupport(), c.supports);
    SameMultisetMembers(sorted, c.supports);
    var supports: seq<ListedSupport> := [];
    for i := 0 to |sorted|
      invariant |supports| == i
      invariant forall j | 0 <= j < i :: CanonicalSupport(o, supports[j]) && UnlistedSupport(supports[j]) == sorted[j]
    {
      var s := ListSupport(o, sorted[i]);
      supports := supports + [s];
    }
    var provenance := Members(o.graph, c.provenance);
    var ids := Ascending(c.provenanceIDs);
    l := ListedClaim(c.(provenance := {}, provenanceIDs := {}, supports := []), provenance, ids, supports);
    assert UnlistedSupports(supports) == sorted;
    assert Unlist(provenance) == c.provenance && Unlist(ids) == c.provenanceIDs;
    RankedKeysDistinct(o, sorted);
  }

  lemma RankedKeysDistinct(o: Order, supports: seq<SupportBinding>)
    requires Ranked(o.BySupport(), supports)
    ensures DistinctKeys(supports)
  {
    forall i, j | 0 <= i < j < |supports| ensures supports[i].key != supports[j].key {
      assert o.BySupport()(supports[i]) < o.BySupport()(supports[j]);
    }
  }

  /** Each claim of the arranged list, listed. */
  ghost predicate ListsAll(o: Order, claims: seq<ClaimTriple>, listed: seq<ListedClaim>) {
    && |listed| == |claims|
    && Ranked(o.ByClaim(), claims)
    && forall i | 0 <= i < |claims| :: CanonicalClaim(o, listed[i]) && Lists(claims[i], listed[i])
  }

  method ListClaims(o: Order, claims: seq<ClaimTriple>) returns (listed: seq<ListedClaim>, ghost arranged: seq<ClaimTriple>)
    requires o.Valid()
    requires forall i, j | 0 <= i < j < |claims| :: claims[i].claim != claims[j].claim
    requires forall c | c in claims :: DistinctKeys(c.supports)
    ensures multiset(arranged) == multiset(claims) && ListsAll(o, arranged, listed)
  {
    assert Separated(o.ByClaim(), claims) by {
      assert Injective(o.graph);
    }
    var sorted := Arrange(o.ByClaim(), claims);
    arranged := sorted;
    SameMultisetMembers(sorted, claims);
    listed := [];
    for i := 0 to |sorted|
      invariant |listed| == i
      invariant forall j | 0 <= j < i :: CanonicalClaim(o, listed[j]) && Lists(sorted[j], listed[j])
    {
      assert sorted[i] in claims;
      var l := ListClaim(o, sorted[i]);
      listed := listed + [l];
    }
  }

  method ListResources(o: Order, resources: seq<ResourceBinding>) returns (sorted: seq<ResourceBinding>)
    requires o.Valid()
    requires forall i, j | 0 <= i < j < |resources| :: resources[i].graph != resources[j].graph
    ensures multiset(sorted) == multiset(resources) && Ranked(o.ByBinding(), sorted)
  {
    assert Separated(o.ByBinding(), resources) by {
      assert Injective(o.graph);
    }
    sorted := Arrange(o.ByBinding(), resources);
  }

  /** Listed in order, valid bindings pass the validators. */
  lemma ListedValid(
    o: Order, resources: seq<ResourceBinding>, claims: seq<ClaimTriple>, sorted: seq<ResourceBinding>,
    arranged: seq<ClaimTriple>, listed: seq<ListedClaim>)
    requires ValidClaims(resources, claims)
    requires multiset(sorted) == multiset(resources) && Ranked(o.ByBinding(), sorted)
    requires multiset(arranged) == multiset(claims) && ListsAll(o, arranged, listed)
    ensures ValidListed(o, sorted, listed) && sorted[0].contract == resources[0].contract
  {
    PermutedResources(o, resources, sorted);
    SameMultisetMembers(arranged, claims);
    var us := UnlistedClaims(listed);
    var bound, contract := ByGraph(resources), resources[0].contract;
    hide ValidClaim, CanonicalClaim, ValidResources, ByGraph, Unlisted;
    forall u | u in us ensures ValidClaim(bound, contract, u) {
      var i :| 0 <= i < |us| && us[i] == u;
      assert arranged[i] in claims;
      ReorderedValid(bound, contract, arranged[i], us[i]);
    }
    forall i, j | 0 <= i < j < |us|
      ensures us[i].claim != us[j].claim && o.ByClaim()(us[i]) < o.ByClaim()(us[j])
    {
      assert Reordered(arranged[i], us[i]) && Reordered(arranged[j], us[j]);
      assert o.ByClaim()(arranged[i]) < o.ByClaim()(arranged[j]);
    }
    forall c | c in listed ensures CanonicalClaim(o, c) {
      var i :| 0 <= i < |listed| && listed[i] == c;
    }
  }

  lemma ValidHasDistinctKeys(resources: seq<ResourceBinding>, claims: seq<ClaimTriple>)
    requires ValidClaims(resources, claims)
    ensures forall c | c in claims :: DistinctKeys(c.supports)
  {
    hide ValidResources, ByGraph;
  }

  // The upgrade.

  datatype ListedGraph = ListedGraph(resources: seq<ResourceBinding>, claims: seq<ListedClaim>)

  /** The upgraded bindings, in the order of their new ids. */
  ghost predicate UpgradesTo(o: Order, resources: seq<ResourceBinding>, claims: seq<ClaimTriple>, g: ListedGraph) {
    exists upgraded, us, arranged ::
      && UpgradedResources(resources, upgraded) && multiset(g.resources) == multiset(upgraded)
      && UpgradedClaims(ByGraph(resources), Kept(claims), us) && multiset(arranged) == multiset(us)
      && ListsAll(o, arranged, g.claims)
  }

  /**
   Exactly what the validators accept upgrades, to something they accept again, in
   order; version 2 input is returned as it is.
   */
  method UpgradeListed(o: Order, resources: seq<ResourceBinding>, claims: seq<ListedClaim>)
    returns (result: Option<ListedGraph>)
    requires o.Valid()
    ensures result.Some? <==> ValidListed(o, resources, claims)
    ensures result.Some? ==>
              && ValidListed(o, result.value.resources, result.value.claims)
              && result.value.resources[0].contract == V2
              && if resources[0].contract == V2 then result.value == ListedGraph(resources, claims)
                 else UpgradesTo(o, resources, UnlistedClaims(claims), result.value)
  {
    if !ValidListed(o, resources, claims) {
      return None;
    }
    if resources[0].contract == V2 {
      return Some(ListedGraph(resources, claims));
    }
    var triples := UnlistedClaims(claims);
    var upgrade := UpgradeGraphBindingContract(resources, triples);
    hide ValidClaim, UpgradedResources, UpgradedClaims, CanonicalClaim, ByGraph, Unlisted;
    var upgraded, us := upgrade.value.resources, upgrade.value.claims;
    ValidHasDistinctKeys(upgraded, us);
    var sorted := ListResources(o, upgraded);
    ghost var arranged;
    var listed;
    listed, arranged := ListClaims(o, us);
    ListedValid(o, upgraded, us, sorted, arranged, listed);
    return Some(ListedGraph(sorted, listed));
  }

  // What the listed claims of an upgrade mean.

  /** The same graph object under version 2. */
  predicate SameObject(before: GraphID, after: GraphID) {
    after.contract == 2 && after.projection == before.projection && after.resource == before.resource
  }

  /** The same statement about the same resources, with their stable ids. */
  ghost predicate SameStatement(bound: map<GraphID, Handle>, c: ListedClaim, l: ListedClaim) {
    var before, after := c.triple, l.triple;
    && SameObject(before.claim, after.claim) && SameObject(before.subject, after.subject)
    && SameObject(before.target, after.target) && SameObject(before.source, after.source)
    && after.predicateKey == before.predicateKey && after.mode == before.mode
    && before.subject in bound && after.subjectID == Some(bound[before.subject].id)
    && before.target in bound && after.targetID == Some(bound[before.target].id)
    && before.source in bound && after.sourceID == Some(bound[before.source].id)
    && after.sourceVersion == Some(bound[before.source].versions.source)
    && (forall g :: g in l.provenance <==> exists h | h in c.provenance :: SameObject(h, g))
    && (forall id :: id in l.provenanceIDs <==> exists h | h in c.provenance :: h in bound && bound[h].id == id)
  }

  lemma UpgradedStates(bound: map<GraphID, Handle>, c: ListedClaim, u: ClaimTriple, l: ListedClaim)
    requires AllBound(bound, Unlisted(c)) && Upgraded(bound, Unlisted(c), u) && Lists(u, l)
    ensures SameStatement(bound, c, l)
  {
    hide SupportsOf;
    var before, after := Unlisted(c), Unlisted(l);
    assert after.provenance == LiftAll(before.provenance);
    forall g ensures g in l.provenance <==> exists h | h in c.provenance :: SameObject(h, g) {
      assert g in l.provenance <==> g in after.provenance;
      if g in l.provenance {
        var h :| h in before.provenance && Lift(h) == g;
        assert h in c.provenance && SameObject(h, g);
      }
      if h :| h in c.provenance && SameObject(h, g) {
        assert h in before.provenance && Lift(h) == g;
      }
    }
    forall id ensures id in l.provenanceIDs <==> exists h | h in c.provenance :: h in bound && bound[h].id == id {
      assert id in l.provenanceIDs <==> id in after.provenanceIDs;
    }
  }

  /** With any resources visible, `l` is derivable from its groups exactly when `c` was from its flat list. */
  ghost predicate KeepsMeaning(bound: map<GraphID, Handle>, c: ListedClaim, l: ListedClaim) {
    && IsSupportedPredicate(c.triple.predicateKey) && SameStatement(bound, c, l)
    && forall visible: set<ResourceID> :: DerivableV2(Unlisted(l), visible) <==> DerivableV1(bound, Unlisted(c), visible)
  }

  lemma ListedMeans(bound: map<GraphID, Handle>, c: ListedClaim, u: ClaimTriple, l: ListedClaim)
    requires IsSupportedPredicate(c.triple.predicateKey) && AllBound(bound, Unlisted(c))
    requires Upgraded(bound, Unlisted(c), u) && Lists(u, l)
    ensures KeepsMeaning(bound, c, l)
  {
    UpgradedStates(bound, c, u, l);
    hide SameStatement, Upgraded, Lists;
    forall visible: set<ResourceID>
      ensures DerivableV2(Unlisted(l), visible) <==> DerivableV1(bound, Unlisted(c), visible)
    {
      DerivabilityPreserved(bound, Unlisted(c), u, visible);
    }
  }

  lemma ListedFrom(claims: seq<ListedClaim>, i: nat) returns (c: ListedClaim)
    requires i < |Kept(UnlistedClaims(claims))|
    ensures c in claims && Unlisted(c) == Kept(UnlistedClaims(claims))[i] && IsSupportedPredicate(c.triple.predicateKey)
  {
    var us := UnlistedClaims(claims);
    KeptMembers(us);
    assert Kept(us)[i] in us;
    var k :| 0 <= k < |us| && us[k] == Kept(us)[i];
    c := claims[k];
  }

  lemma SourceOfListed(o: Order, resources: seq<ResourceBinding>, claims: seq<ListedClaim>, g: ListedGraph, l: ListedClaim)
    returns (c: ListedClaim)
    requires UpgradesTo(o, resources, UnlistedClaims(claims), g) && l in g.claims
    ensures c in claims && KeepsMeaning(ByGraph(resources), c, l)
  {
    hide UpgradedResources, Upgraded, AllBound, CanonicalClaim, Lists, ByGraph, Kept, Unlisted, KeepsMeaning, Ranked;
    var bound, kept := ByGraph(resources), Kept(UnlistedClaims(claims));
    var upgraded, us, arranged :|
      && UpgradedResources(resources, upgraded) && multiset(g.resources) == multiset(upgraded)
      && UpgradedClaims(bound, kept, us) && multiset(arranged) == multiset(us) && ListsAll(o, arranged, g.claims);
    SameMultisetMembers(arranged, us);
    var j :| 0 <= j < |g.claims| && g.claims[j] == l;
    assert arranged[j] in us;
    var i :| 0 <= i < |us| && us[i] == arranged[j];
    c := ListedFrom(claims, i);
    ListedMeans(bound, c, us[i], l);
  }

  lemma ListedOfSource(o: Order, resources: seq<ResourceBinding>, claims: seq<ListedClaim>, g: ListedGraph, c: ListedClaim)
    returns (l: ListedClaim)
    requires UpgradesTo(o, resources, UnlistedClaims(claims), g)
    requires c in claims && IsSupportedPredicate(c.triple.predicateKey)
    ensures l in g.claims && KeepsMeaning(ByGraph(resources), c, l)
  {
    hide UpgradedResources, Upgraded, AllBound, CanonicalClaim, Lists, ByGraph, Kept, Unlisted, KeepsMeaning, Ranked;
    var bound, triples := ByGraph(resources), UnlistedClaims(claims);
    var upgraded, us, arranged :|
      && UpgradedResources(resources, upgraded) && multiset(g.resources) == multiset(upgraded)
      && UpgradedClaims(bound, Kept(triples), us) && multiset(arranged) == multiset(us) && ListsAll(o, arranged, g.claims);
    SameMultisetMembers(arranged, us);
    var k :| 0 <= k < |claims| && claims[k] == c;
    assert triples[k] == Unlisted(c);
    PredicateOf(c);
    KeptMembers(triples);
    var i :| 0 <= i < |us| && Kept(triples)[i] == Unlisted(c);
    assert us[i] in arranged;
    var j :| 0 <= j < |arranged| && arranged[j] == us[i];
    l := g.claims[j];
    ListedMeans(bound, c, us[i], l);
  }

  lemma PredicateOf(c: ListedClaim)
    ensures Unlisted(c).predicateKey == c.triple.predicateKey
  {
  }

  /**
   The upgrade of listed bindings preserves meaning: each claim it returns means what
   one of the claims it was given meant, and each claim it was given with a supported
   predicate is among them.
   */
  lemma ListedMeaningPreserved(o: Order, resources: seq<ResourceBinding>, claims: seq<ListedClaim>, g: ListedGraph)
    requires UpgradesTo(o, resources, UnlistedClaims(claims), g)
    ensures forall l | l in g.claims :: exists c | c in claims :: KeepsMeaning(ByGraph(resources), c, l)
    ensures forall c | c in claims && IsSupportedPredicate(c.triple.predicateKey) ::
              exists l | l in g.claims :: KeepsMeaning(ByGraph(resources), c, l)
  {
    hide UpgradesTo, KeepsMeaning, ByGraph, UnlistedClaims;
    forall l | l in g.claims ensures exists c | c in claims :: KeepsMeaning(ByGraph(resources), c, l) {
      var c := SourceOfListed(o, resources, claims, g, l);
    }
    forall c | c in claims && IsSupportedPredicate(c.triple.predicateKey)
      ensures exists l | l in g.claims :: KeepsMeaning(ByGraph(resources), c, l)
    {
      var l := ListedOfSource(o, resources, claims, g, c);
    }
  }

  // The graph of a projection.

  /** Exactly the eligible resources and their claims, in order. */
  ghost predicate GraphOfProjection(o: Order, p: Projection, g: ListedGraph) {
    exists order, resources, claimOrder, claims, arranged ::
      && ProjectedResources(p, order, resources) && multiset(g.resources) == multiset(resources)
      && ProjectedClaims(p, claimOrder, claims) && multiset(arranged) == multiset(claims)
      && Ranked(o.ByBinding(), g.resources) && ListsAll(o, arranged, g.claims)
  }

  method ProjectListed(o: Order, p: Projection) returns (result: Option<ListedGraph>)
    requires o.Valid()
    ensures result.Some? <==> ValidProjection(p) && p.state.StatePublished? && GraphReady(p)
    ensures result.Some? ==>
              && ValidListed(o, result.value.resources, result.value.claims)
              && result.value.resources[0].contract == V2
              && GraphOfProjection(o, p, result.value)
  {
    hide ValidProjection, ProjectedResources, ProjectedClaims, ValidClaim, CanonicalClaim, ByGraph, Unlisted, GraphReady;
    ghost var order, claimOrder;
    var projected;
    projected, order, claimOrder := ProjectionGraphBindings(p);
    if projected.None? {
      return None;
    }
    var resources, claims := projected.value.resources, projected.value.claims;
    ProjectedContract(p, order, resources);
    ValidHasDistinctKeys(resources, claims);
    var sorted := ListResources(o, resources);
    ghost var arranged;
    var listed;
    listed, arranged := ListClaims(o, claims);
    ListedValid(o, resources, claims, sorted, arranged, listed);
    return Some(ListedGraph(sorted, listed));
  }

  lemma ProjectedContract(p: Projection, order: seq<ResourceID>, resources: seq<ResourceBinding>)
    requires ValidProjection(p) && ProjectedResources(p, order, resources) && resources != []
    ensures resources[0].contract == V2
  {
    hide ValidResources, GraphReady;
    ResourcesValid(p, order, resources);
  }

  // A listing is determined by what it lists.

  /** The same claim, apart from the order of its supports. */
  ghost predicate SameClaim(c: ClaimTriple, d: ClaimTriple) {
    && d == c.(supports := d.supports)
    && forall s :: s in d.supports <==> s in c.supports
  }

  lemma SupportUnique(o: Order, l: ListedSupport, m: ListedSupport)
    requires CanonicalSupport(o, l) && CanonicalSupport(o, m) && UnlistedSupport(l) == UnlistedSupport(m)
    ensures l == m
  {
    forall x ensures x in l.provenance <==> x in m.provenance {
      assert x in Unlist(l.provenance) <==> x in Unlist(m.provenance);
    }
    RankedUnique(o.graph, l.provenance, m.provenance);
    forall x ensures x in l.provenanceIDs <==> x in m.provenanceIDs {
      assert x in Unlist(l.provenanceIDs) <==> x in Unlist(m.provenanceIDs);
    }
    CanonicalUnique(l.provenanceIDs, m.provenanceIDs);
  }

  lemma ListingUnique(o: Order, c: ClaimTriple, d: ClaimTriple, l: ListedClaim, m: ListedClaim)
    requires SameClaim(c, d) && Lists(c, l) && Lists(d, m) && CanonicalClaim(o, l) && CanonicalClaim(o, m)
    ensures l == m
  {
    var u, v := Unlisted(l), Unlisted(m);
    assert u.supports == UnlistedSupports(l.supports) && v.supports == UnlistedSupports(m.supports);
    RankedUnique(o.BySupport(), u.supports, v.supports);
    forall i | 0 <= i < |l.supports| ensures l.supports[i] == m.supports[i] {
      assert u.supports[i] == v.supports[i];
      assert l.supports[i] in l.supports && m.supports[i] in m.supports;
      SupportUnique(o, l.supports[i], m.supports[i]);
    }
    assert u == v;
    assert Unlist(l.provenance) == u.provenance && Unlist(m.provenance) == v.provenance;
    SupportUnique(o, ListedSupport(NamedSupport(0), l.provenance, l.provenanceIDs),
                  ListedSupport(NamedSupport(0), m.provenance, m.provenanceIDs));
    assert l.triple == u.(provenance := {}, provenanceIDs := {}, supports := []);
  }

  lemma ProjectedOnce(p: Projection, r: Resource, c: ClaimTriple, d: ClaimTriple)
    requires ProjectsClaim(p, r, c) && ProjectsClaim(p, r, d)
    ensures SameClaim(c, d)
  {
    var provenance := r.claimRecord.value.provenance;
    ProjectedSupports(p, provenance, c.supports);
    ProjectedSupports(p, provenance, d.supports);
  }

  lemma ProjectedSupports(p: Projection, provenance: Provenance, supports: seq<SupportBinding>)
    requires exists keys :: ProjectsSupports(p, provenance, supports, keys)
    ensures forall s :: s in supports <==>
              exists key | key in provenance.supports :: s == ProjectedSupport(p, key, provenance.supports[key])
  {
    var keys :| ProjectsSupports(p, provenance, supports, keys);
    forall key | key in provenance.supports
      ensures ProjectedSupport(p, key, provenance.supports[key]) in supports
    {
      var i :| 0 <= i < |keys| && keys[i] == key;
      assert supports[i] in supports;
    }
    forall s | s in supports
      ensures exists key | key in provenance.supports :: s == ProjectedSupport(p, key, provenance.supports[key])
    {
      var i :| 0 <= i < |supports| && supports[i] == s;
      assert keys[i] in keys;
    }
  }

  /** What a list of listed claims contains, resource by resource. */
  lemma ListedClaimOf(
    o: Order, p: Projection, order: seq<ResourceID>, claims: seq<ClaimTriple>, arranged: seq<ClaimTriple>,
    listed: seq<ListedClaim>, l: ListedClaim) returns (id: ResourceID, c: ClaimTriple)
    requires ProjectedClaims(p, order, claims) && multiset(arranged) == multiset(claims)
    requires ListsAll(o, arranged, listed) && l in listed
    ensures id in order && id in p.resources && ProjectsClaim(p, p.resources[id], c)
    ensures CanonicalClaim(o, l) && Lists(c, l)
  {
    SameMultisetMembers(arranged, claims);
    hide ProjectsClaim, CanonicalClaim, Lists, ListsClaims;
    var i :| 0 <= i < |listed| && listed[i] == l;
    assert arranged[i] in claims;
    var k :| 0 <= k < |claims| && claims[k] == arranged[i];
    id, c := order[k], claims[k];
    assert order[k] in order;
  }

  lemma ListedFor(
    o: Order, p: Projection, order: seq<ResourceID>, claims: seq<ClaimTriple>, arranged: seq<ClaimTriple>,
    listed: seq<ListedClaim>, id: ResourceID) returns (l: ListedClaim, c: ClaimTriple)
    requires ProjectedClaims(p, order, claims) && multiset(arranged) == multiset(claims)
    requires ListsAll(o, arranged, listed) && id in order
    ensures id in p.resources && ProjectsClaim(p, p.resources[id], c)
    ensures l in listed && CanonicalClaim(o, l) && Lists(c, l)
  {
    SameMultisetMembers(arranged, claims);
    hide ProjectsClaim, CanonicalClaim, Lists, ListsClaims;
    var k :| 0 <= k < |order| && order[k] == id;
    c := claims[k];
    assert c in arranged;
    var i :| 0 <= i < |arranged| && arranged[i] == c;
    l := listed[i];
  }

  lemma ClaimsIncluded(
    o: Order, p: Projection, order: seq<ResourceID>, claims: seq<ClaimTriple>, arranged: seq<ClaimTriple>,
    listed: seq<ListedClaim>, order': seq<ResourceID>, claims': seq<ClaimTriple>, arranged': seq<ClaimTriple>,
    listed': seq<ListedClaim>)
    requires ProjectedClaims(p, order, claims) && multiset(arranged) == multiset(claims)
    requires ProjectedClaims(p, order', claims') && multiset(arranged') == multiset(claims')
    requires ListsAll(o, arranged, listed) && ListsAll(o, arranged', listed')
    ensures forall l | l in listed :: l in listed'
  {
    forall l | l in listed ensures l in listed' {
      var id, c := ListedClaimOf(o, p, order, claims, arranged, listed, l);
      assert id in order';
      var m, d := ListedFor(o, p, order', claims', arranged', listed', id);
      ProjectedOnce(p, p.resources[id], c, d);
      ListingUnique(o, c, d, l, m);
    }
  }

  function ByListedClaim(o: Order): ListedClaim -> nat {
    (l: ListedClaim) => o.graph(l.triple.claim)
  }

  lemma ListedRanked(o: Order, claims: seq<ClaimTriple>, listed: seq<ListedClaim>)
    requires ListsAll(o, claims, listed)
    ensures Ranked(ByListedClaim(o), listed)
  {
    forall i, j | 0 <= i < j < |listed| ensures ByListedClaim(o)(listed[i]) < ByListedClaim(o)(listed[j]) {
      assert Lists(claims[i], listed[i]) && Lists(claims[j], listed[j]);
      assert o.ByClaim()(claims[i]) < o.ByClaim()(claims[j]);
    }
  }

  lemma ResourcesAgree(
    p: Projection, order: seq<ResourceID>, resources: seq<ResourceBinding>, order': seq<ResourceID>,
    resources': seq<ResourceBinding>)
    requires ProjectedResources(p, order, resources) && ProjectedResources(p, order', resources')
    ensures forall b | b in resources :: b in resources'
  {
    forall b | b in resources ensures b in resources' {
      var i :| 0 <= i < |resources| && resources[i] == b;
      assert order[i] in order && order[i] in order';
      var j :| 0 <= j < |order'| && order'[j] == order[i];
      assert resources'[j] in resources';
    }
  }

  /** The graph is a function of the projection: two derivations list the same bindings. */
  lemma GraphUnique(o: Order, p: Projection, g: ListedGraph, h: ListedGraph)
    requires GraphOfProjection(o, p, g) && GraphOfProjection(o, p, h)
    ensures g == h
  {
    hide ProjectedResources, ProjectedClaims, ListsAll;
    var order, resources, claimOrder, claims, arranged :|
      && ProjectedResources(p, order, resources) && multiset(g.resources) == multiset(resources)
      && ProjectedClaims(p, claimOrder, claims) && multiset(arranged) == multiset(claims)
      && Ranked(o.ByBinding(), g.resources) && ListsAll(o, arranged, g.claims);
    var order', resources', claimOrder', claims', arranged' :|
      && ProjectedResources(p, order', resources') && multiset(h.resources) == multiset(resources')
      && ProjectedClaims(p, claimOrder', claims') && multiset(arranged') == multiset(claims')
      && Ranked(o.ByBinding(), h.resources) && ListsAll(o, arranged', h.claims);
    ResourcesAgree(p, order, resources, order', resources');
    ResourcesAgree(p, order', resources', order, resources);
    SameMultisetMembers(g.resources, resources);
    SameMultisetMembers(h.resources, resources');
    RankedUnique(o.ByBinding(), g.resources, h.resources);
    ClaimsIncluded(o, p, claimOrder, claims, arranged, g.claims, claimOrder', claims', arranged', h.claims);
    ClaimsIncluded(o, p, claimOrder', claims', arranged', h.claims, claimOrder, claims, arranged, g.claims);
    ListedRanked(o, arranged, g.claims);
    ListedRanked(o, arranged', h.claims);
    RankedUnique(ByListedClaim(o), g.claims, h.claims);
  }
}
