/**
 The claim tuples a published catalog projection stands for: where they exist, and
 what they let a reader of a claim see.
 */
module ClaimTuples {
  import opened Wrappers
  import opened Catalog
  import opened GraphProjecting
  import opened Tuples
  import opened AuthorizationModel
  import opened Ordering
  import TupleRewrite
  import LocalAuthorization

  /** How an authorization object reads as a reference, if it does. */
  type Names = nat -> Option<Ref>

  /** Two authorization objects never read alike. */
  ghost predicate Unambiguous(names: Names) {
    forall a, b :: names(a).Some? && names(a) == names(b) ==> a == b
  }

  /** A tuple between authorization objects, and the claim that depends on it. */
  datatype CatalogBinding = CatalogBinding(id: ResourceID, user: nat, relation: Relation, object_: nat)

  function Read(names: Names, b: CatalogBinding): Option<Tuple> {
    var user, target := names(b.user), names(b.object_);
    if user.Some? && target.Some? then Some(Tuple(user.value, b.relation, target.value)) else None
  }

  // What a projection stands for.

  /** The serving claims that are source backed. */
  function ClaimsOf(p: Projection): set<ResourceID> {
    set id | id in Eligible(p) && p.resources[id].kind.Claim?
  }

  function RecordOf(p: Projection, id: ResourceID): ClaimRecord
    requires id in ClaimsOf(p)
  {
    p.resources[id].claimRecord.value
  }

  function ObjectOf(p: Projection, id: ResourceID): nat {
    if id in p.resources then p.resources[id].authzObject else 0
  }

  /** What a claim is bound to: its source document, and its subject and object. */
  function Endpoint(p: Projection, id: ResourceID, relation: Relation): ResourceID
    requires id in ClaimsOf(p)
  {
    match relation
    case Subject => RecordOf(p, id).binding.subjectID
    case Object => RecordOf(p, id).binding.objectID
    case _ => RecordOf(p, id).source.id
  }

  function BindingFor(p: Projection, id: ResourceID, relation: Relation): CatalogBinding
    requires id in ClaimsOf(p)
  {
    CatalogBinding(id, ObjectOf(p, Endpoint(p, id, relation)), relation, ObjectOf(p, id))
  }

  /** One of the three bindings of one of the claims. */
  predicate StandsFor(p: Projection, b: CatalogBinding) {
    b.id in ClaimsOf(p) && IsSingular(b.relation) && b == BindingFor(p, b.id, b.relation)
  }

  /** Each authorization object of a serving resource belongs to one boundary. */
  predicate OneBoundary(p: Projection) {
    forall id, other | id in Serving(p) && other in Serving(p) ::
      ObjectOf(p, id) == ObjectOf(p, other) ==> p.resources[id].authzResource == p.resources[other].authzResource
  }

  predicate IsNamed(names: Names, p: Projection, id: ResourceID, kind: ObjectType) {
    var name := names(ObjectOf(p, id));
    name.Some? && name.value.IsDirect(kind)
  }

  predicate NamedClaim(names: Names, p: Projection, id: ResourceID)
    requires id in ClaimsOf(p)
  {
    && IsNamed(names, p, id, ClaimType)
    && IsNamed(names, p, Endpoint(p, id, SourceDocument), DocumentType)
    && IsNamed(names, p, Endpoint(p, id, Subject), EntityType)
    && IsNamed(names, p, Endpoint(p, id, Object), EntityType)
  }

  /** The authorization objects of claims and of what they are bound to read as such. */
  predicate WellNamed(names: Names, p: Projection) {
    forall id | id in ClaimsOf(p) :: NamedClaim(names, p, id)
  }

  // What the validator accepts.

  predicate ValidCatalogBinding(names: Names, b: CatalogBinding) {
    var t := Read(names, b);
    b.id > 0 && t.Some? && ValidTuple(t.value) && TupleRewrite.IsClaimBinding(t.value)
  }

  function ReadAll(names: Names, bindings: seq<CatalogBinding>): set<Tuple> {
    set b | b in bindings && Read(names, b).Some? :: Read(names, b).value
  }

  /** No tuple twice, and the tuples of one object depend on one resource. */
  predicate Consistent(names: Names, bindings: seq<CatalogBinding>) {
    forall i, j | 0 <= i < j < |bindings| ::
      && Read(names, bindings[i]) != Read(names, bindings[j])
      && (bindings[i].object_ == bindings[j].object_ ==> bindings[i].id == bindings[j].id)
  }

  /** Each binding valid, in order, and all of them consistent. */
  predicate Accepted(names: Names, rank: CatalogBinding -> nat, bindings: seq<CatalogBinding>) {
    && (forall b | b in bindings :: ValidCatalogBinding(names, b))
    && (forall i | 0 < i < |bindings| :: rank(bindings[i - 1]) <= rank(bindings[i]))
    && Consistent(names, bindings)
  }

  predicate ValidList(names: Names, rank: CatalogBinding -> nat, bindings: seq<CatalogBinding>) {
    Accepted(names, rank, bindings) && ValidSnapshot(ReadAll(names, bindings))
  }

  ghost predicate ReadsTo(names: Names, bindings: seq<CatalogBinding>, tuples: seq<Tuple>) {
    |tuples| == |bindings| && forall j | 0 <= j < |tuples| :: Read(names, bindings[j]) == Some(tuples[j])
  }

  /** The resource of each object so far. */
  ghost predicate Indexed(bindings: seq<CatalogBinding>, resources: map<nat, ResourceID>) {
    && (forall j | 0 <= j < |bindings| ::
          bindings[j].object_ in resources && resources[bindings[j].object_] == bindings[j].id)
    && (forall o | o in resources :: exists j | 0 <= j < |bindings| :: bindings[j].object_ == o)
  }

  lemma ConsistentWithNext(
    names: Names, s: seq<CatalogBinding>, tuples: seq<Tuple>, resources: map<nat, ResourceID>, b: CatalogBinding, t: Tuple)
    requires ReadsTo(names, s, tuples) && Indexed(s, resources) && Consistent(names, s) && Read(names, b) == Some(t)
    ensures Consistent(names, s + [b]) <==> t !in tuples && (b.object_ in resources ==> resources[b.object_] == b.id)
  {
    hide Read;
    var r := s + [b];
    if t in tuples {
      var j :| 0 <= j < |s| && tuples[j] == t;
      assert Read(names, r[j]) == Read(names, r[|s|]);
    }
    if b.object_ in resources && resources[b.object_] != b.id {
      var j :| 0 <= j < |s| && s[j].object_ == b.object_;
      assert r[j].object_ == r[|s|].object_ && r[j].id != r[|s|].id;
    }
    if t !in tuples && (b.object_ in resources ==> resources[b.object_] == b.id) {
      forall i, j | 0 <= i < j < |r|
        ensures Read(names, r[i]) != Read(names, r[j]) && (r[i].object_ == r[j].object_ ==> r[i].id == r[j].id)
      {
        assert r[i] == s[i] && tuples[i] in tuples;
        assert j < |s| ==> r[j] == s[j];
      }
    }
  }

  lemma AcceptedWithNext(
    names: Names, rank: CatalogBinding -> nat, s: seq<CatalogBinding>, tuples: seq<Tuple>,
    resources: map<nat, ResourceID>, b: CatalogBinding, t: Tuple)
    requires ReadsTo(names, s, tuples) && Indexed(s, resources) && Accepted(names, rank, s)
    requires Read(names, b) == Some(t)
    ensures Accepted(names, rank, s + [b]) <==>
              && ValidCatalogBinding(names, b)
              && (s != [] ==> rank(s[|s| - 1]) <= rank(b))
              && t !in tuples && (b.object_ in resources ==> resources[b.object_] == b.id)
  {
    hide Read, ValidCatalogBinding, Indexed, ReadsTo, Consistent;
    ConsistentWithNext(names, s, tuples, resources, b, t);
    var r := s + [b];
    assert r[|s|] == b;
    assert s != [] ==> r[|s| - 1] == s[|s| - 1];
    assert forall i | 0 <= i < |s| :: r[i] == s[i];
  }

  lemma AcceptedPrefix(names: Names, rank: CatalogBinding -> nat, s: seq<CatalogBinding>, n: nat)
    requires n <= |s| && Accepted(names, rank, s)
    ensures Accepted(names, rank, s[..n])
  {
    hide Read, ValidCatalogBinding;
  }

  lemma NextIndexed(s: seq<CatalogBinding>, resources: map<nat, ResourceID>, b: CatalogBinding)
    requires Indexed(s, resources) && (b.object_ in resources ==> resources[b.object_] == b.id)
    ensures Indexed(s + [b], resources[b.object_ := b.id])
  {
    var r := s + [b];
    var after := resources[b.object_ := b.id];
    forall o | o in after ensures exists j | 0 <= j < |r| :: r[j].object_ == o {
      if o == b.object_ {
        assert r[|s|].object_ == o;
      } else {
        var j :| 0 <= j < |s| && s[j].object_ == o;
        assert r[j].object_ == o;
      }
    }
  }

  method ValidateList(names: Names, rank: CatalogBinding -> nat, bindings: seq<CatalogBinding>) returns (ok: bool)
    ensures ok <==> ValidList(names, rank, bindings)
  {
    hide Accepted, Indexed, ValidCatalogBinding, Read, ReadAll, ValidSnapshot;
    var resources: map<nat, ResourceID> := map[];
    var tuples: seq<Tuple> := [];
    NothingYet(names, rank);
    for i := 0 to |bindings|
      invariant Accepted(names, rank, bindings[..i])
      invariant ReadsTo(names, bindings[..i], tuples) && Indexed(bindings[..i], resources)
    {
      var b := bindings[i];
      ghost var next := bindings[..i] + [b];
      assert bindings[..i + 1] == next;
      if Accepted(names, rank, bindings) {
        AcceptedPrefix(names, rank, bindings, i + 1);
      }
      if !ValidCatalogBinding(names, b) {
        RejectedWith(names, rank, bindings[..i], b);
        return false;
      }
      var t := ReadValid(names, b);
      AcceptedWithNext(names, rank, bindings[..i], tuples, resources, b, t);
      if i > 0 && rank(b) < rank(bindings[i - 1]) {
        return false;
      }
      if t in tuples {
        return false;
      }
      if b.object_ in resources && resources[b.object_] != b.id {
        return false;
      }
      NextIndexed(bindings[..i], resources, b);
      resources := resources[b.object_ := b.id];
      tuples := tuples + [t];
    }
    assert bindings[..|bindings|] == bindings;
    ok := LocalAuthorization.ValidateTuples(tuples);
    ReadInOrder(names, bindings, tuples);
  }

  lemma NothingYet(names: Names, rank: CatalogBinding -> nat)
    ensures Accepted(names, rank, []) && Indexed([], map[])
  {
  }

  lemma RejectedWith(names: Names, rank: CatalogBinding -> nat, s: seq<CatalogBinding>, b: CatalogBinding)
    requires !ValidCatalogBinding(names, b)
    ensures !Accepted(names, rank, s + [b])
  {
    hide ValidCatalogBinding, Consistent;
    assert b in s + [b];
  }

  function ReadValid(names: Names, b: CatalogBinding): (t: Tuple)
    requires ValidCatalogBinding(names, b)
    ensures Read(names, b) == Some(t)
  {
    Read(names, b).value
  }

  lemma ReadInOrder(names: Names, bindings: seq<CatalogBinding>, tuples: seq<Tuple>)
    requires ReadsTo(names, bindings, tuples)
    ensures (set t | t in tuples) == ReadAll(names, bindings)
  {
    hide Read;
    forall t ensures t in tuples <==> t in ReadAll(names, bindings) {
      if t in tuples {
        var j :| 0 <= j < |tuples| && tuples[j] == t;
        assert bindings[j] in bindings;
      }
      if t in ReadAll(names, bindings) {
        var b :| b in bindings && Read(names, b) == Some(t);
        var j :| 0 <= j < |bindings| && bindings[j] == b;
        assert tuples[j] == t;
      }
    }
  }

  // Which projections pass.

  lemma ClaimFits(p: Projection, id: ResourceID)
    requires ValidProjection(p) && id in ClaimsOf(p)
    ensures id > 0 && id in Serving(p) && p.resources[id].authzResource == id
  {
    assert ResourceFits(p, id);
  }

  /** Claims are their own boundaries, so one object belongs to one claim. */
  lemma OneClaimPerObject(p: Projection, id: ResourceID, other: ResourceID)
    requires ValidProjection(p) && OneBoundary(p) && id in ClaimsOf(p) && other in ClaimsOf(p)
    requires ObjectOf(p, id) == ObjectOf(p, other)
    ensures id == other
  {
    hide ValidProjection, ClaimsOf, Serving;
    ClaimFits(p, id);
    ClaimFits(p, other);
  }

  ghost predicate ListsClaims(p: Projection, bindings: seq<CatalogBinding>) {
    && Distinct(bindings)
    && forall b :: b in bindings <==> StandsFor(p, b)
  }

  lemma BindingValid(names: Names, p: Projection, id: ResourceID, relation: Relation)
    requires ValidProjection(p) && id in ClaimsOf(p) && IsSingular(relation)
    ensures ValidCatalogBinding(names, BindingFor(p, id, relation)) <==>
              && IsNamed(names, p, id, ClaimType)
              && IsNamed(names, p, Endpoint(p, id, relation), if relation.SourceDocument? then DocumentType else EntityType)
  {
    hide ValidProjection, ClaimsOf, Endpoint, ObjectOf;
    ClaimFits(p, id);
  }

  /** Each listed binding is valid exactly where the projection is well named. */
  lemma NamesDecide(names: Names, p: Projection, bindings: seq<CatalogBinding>)
    requires ValidProjection(p) && ListsClaims(p, bindings)
    ensures (forall b | b in bindings :: ValidCatalogBinding(names, b)) <==> WellNamed(names, p)
  {
    hide ValidProjection, ClaimsOf, ValidCatalogBinding, NamedClaim, BindingFor;
    forall id | id in ClaimsOf(p)
      ensures NamedClaim(names, p, id) <==> forall b | b in bindings && b.id == id :: ValidCatalogBinding(names, b)
    {
      ClaimNamed(names, p, id);
      ClaimStandsFor(p, id);
    }
  }

  lemma ClaimStandsFor(p: Projection, id: ResourceID)
    requires id in ClaimsOf(p)
    ensures forall b: CatalogBinding :: b.id == id && StandsFor(p, b) <==>
              b in {BindingFor(p, id, SourceDocument), BindingFor(p, id, Subject), BindingFor(p, id, Object)}
  {
    hide ClaimsOf, Endpoint;
  }

  lemma ClaimNamed(names: Names, p: Projection, id: ResourceID)
    requires ValidProjection(p) && id in ClaimsOf(p)
    ensures NamedClaim(names, p, id) <==>
              && ValidCatalogBinding(names, BindingFor(p, id, SourceDocument))
              && ValidCatalogBinding(names, BindingFor(p, id, Subject))
              && ValidCatalogBinding(names, BindingFor(p, id, Object))
  {
    hide ValidProjection, ClaimsOf, ValidCatalogBinding, IsNamed, Endpoint, BindingFor;
    BindingValid(names, p, id, SourceDocument);
    BindingValid(names, p, id, Subject);
    BindingValid(names, p, id, Object);
  }

  lemma ReadApart(names: Names, p: Projection, b: CatalogBinding, c: CatalogBinding)
    requires Unambiguous(names) && ValidProjection(p) && OneBoundary(p)
    requires StandsFor(p, b) && StandsFor(p, c) && Read(names, b).Some? && Read(names, c).Some?
    ensures Read(names, b).value.object_ == Read(names, c).value.object_ ==> b.object_ == c.object_
    ensures b.object_ == c.object_ ==> b.id == c.id
    ensures b.object_ == c.object_ && b.relation == c.relation ==> b == c
  {
    hide ValidProjection, ClaimsOf, OneBoundary;
    assert names(b.object_) == names(c.object_) ==> b.object_ == c.object_;
    if b.object_ == c.object_ {
      OneClaimPerObject(p, b.id, c.id);
    }
  }

  lemma ClaimsConsistent(names: Names, p: Projection, bindings: seq<CatalogBinding>)
    requires Unambiguous(names) && ValidProjection(p) && OneBoundary(p) && ListsClaims(p, bindings)
    requires forall b | b in bindings :: Read(names, b).Some?
    ensures Consistent(names, bindings)
  {
    hide ValidProjection, OneBoundary, StandsFor, Unambiguous;
    forall i, j | 0 <= i < j < |bindings|
      ensures Read(names, bindings[i]) != Read(names, bindings[j])
      ensures bindings[i].object_ == bindings[j].object_ ==> bindings[i].id == bindings[j].id
    {
      assert bindings[i] in bindings && bindings[j] in bindings;
      ReadApart(names, p, bindings[i], bindings[j]);
    }
  }

  lemma ClaimsSnapshot(names: Names, p: Projection, bindings: seq<CatalogBinding>)
    requires Unambiguous(names) && ValidProjection(p) && OneBoundary(p) && ListsClaims(p, bindings)
    requires forall b | b in bindings :: ValidCatalogBinding(names, b)
    ensures ValidSnapshot(ReadAll(names, bindings))
  {
    var tuples := ReadAll(names, bindings);
    hide ValidProjection, OneBoundary, StandsFor, Unambiguous, ValidTuple, ClaimsOf;
    forall s, t | s in tuples && t in tuples && s.object_ == t.object_ && s.relation == t.relation ensures s.user == t.user {
      var b :| b in bindings && Read(names, b) == Some(s);
      var c :| c in bindings && Read(names, c) == Some(t);
      ReadApart(names, p, b, c);
    }
    forall t | t in tuples ensures CompleteClaim(tuples, t.object_) {
      var b :| b in bindings && Read(names, b) == Some(t);
      BoundHere(names, p, bindings, b, SourceDocument);
      BoundHere(names, p, bindings, b, Subject);
      BoundHere(names, p, bindings, b, Object);
    }
  }

  lemma BoundHere(names: Names, p: Projection, bindings: seq<CatalogBinding>, b: CatalogBinding, relation: Relation)
    requires ListsClaims(p, bindings) && b in bindings && IsSingular(relation)
    requires forall b | b in bindings :: Read(names, b).Some?
    ensures Bound(ReadAll(names, bindings), Read(names, b).value.object_, relation)
  {
    hide ClaimsOf, Endpoint;
    assert StandsFor(p, b);
    var c := BindingFor(p, b.id, relation);
    assert StandsFor(p, c) && c in bindings;
    assert Read(names, c).value in ReadAll(names, bindings);
  }

  /** With one boundary for each object, the validator decides by the names alone. */
  lemma ListIsValid(names: Names, rank: CatalogBinding -> nat, p: Projection, bindings: seq<CatalogBinding>)
    requires Unambiguous(names) && ValidProjection(p) && OneBoundary(p)
    requires ListsClaims(p, bindings) && Ranked(rank, bindings)
    ensures ValidList(names, rank, bindings) <==> WellNamed(names, p)
  {
    hide ValidProjection, OneBoundary, ListsClaims, ValidSnapshot, Unambiguous, WellNamed, Consistent;
    NamesDecide(names, p, bindings);
    if WellNamed(names, p) {
      assert forall b | b in bindings :: ValidCatalogBinding(names, b) && Read(names, b).Some?;
      ClaimsConsistent(names, p, bindings);
      ClaimsSnapshot(names, p, bindings);
    }
  }

  // The projection itself.

  /** Maps each authorization object of a serving resource to its boundary. */
  method ServingBoundaries(p: Projection) returns (result: Option<map<nat, ResourceID>>)
    ensures result.Some? <==> OneBoundary(p)
    ensures result.Some? ==> forall id | id in Serving(p) ::
              ObjectOf(p, id) in result.value && result.value[ObjectOf(p, id)] == p.resources[id].authzResource
  {
    var boundaries: map<nat, ResourceID> := map[];
    var rest := p.resources.Keys;
    while rest != {}
      invariant rest <= p.resources.Keys
      invariant forall id | id in Serving(p) - rest ::
                  ObjectOf(p, id) in boundaries && boundaries[ObjectOf(p, id)] == p.resources[id].authzResource
      invariant forall a | a in boundaries :: exists id | id in Serving(p) - rest :: ObjectOf(p, id) == a
      decreases |rest|
    {
      var id :| id in rest;
      rest := rest - {id};
      var r := p.resources[id];
      if r.IsServing() {
        assert id in Serving(p);
        if r.authzObject in boundaries && boundaries[r.authzObject] != r.authzResource {
          return None;
        }
        boundaries := boundaries[r.authzObject := r.authzResource];
      }
    }
    return Some(boundaries);
  }

  function ServingResource(p: Projection, id: ResourceID, kind: ResourceType): Option<Resource> {
    if id in p.resources && p.resources[id].kind == kind && p.resources[id].IsServing() then Some(p.resources[id])
    else None
  }

  lemma EndpointsServe(p: Projection, id: ResourceID)
    requires ValidProjection(p) && id in ClaimsOf(p)
    ensures ServingResource(p, Endpoint(p, id, SourceDocument), Document).Some?
    ensures ServingResource(p, Endpoint(p, id, Subject), Entity).Some?
    ensures ServingResource(p, Endpoint(p, id, Object), Entity).Some?
  {
    hide ValidProjection, ServingResource, IsEligible;
    HasRecord(p, id);
    DependenciesEligible(p, id);
    EligibleServes(p, Endpoint(p, id, SourceDocument));
    EligibleServes(p, Endpoint(p, id, Subject));
    EligibleServes(p, Endpoint(p, id, Object));
  }

  lemma HasRecord(p: Projection, id: ResourceID)
    requires id in ClaimsOf(p)
    ensures id in p.resources && p.resources[id].claimRecord.Some?
    ensures p.resources[id].claimRecord.value.binding.SourceBacked?
  {
  }

  lemma EligibleServes(p: Projection, id: ResourceID)
    requires id in Eligible(p)
    ensures ServingResource(p, id, p.resources[id].kind).Some?
  {
  }

  lemma ServingObject(p: Projection, id: ResourceID, kind: ResourceType)
    ensures ServingResource(p, id, kind).Some? ==> ServingResource(p, id, kind).value.authzObject == ObjectOf(p, id)
  {
  }

  /** The bindings of one claim, whose endpoints a valid projection always serves. */
  method ClaimBindings(p: Projection, id: ResourceID) returns (result: Option<seq<CatalogBinding>>)
    requires ValidProjection(p) && id in ClaimsOf(p)
    ensures result == Some([BindingFor(p, id, SourceDocument), BindingFor(p, id, Subject), BindingFor(p, id, Object)])
  {
    hide ValidProjection, ClaimsOf, ServingResource;
    HasRecord(p, id);
    EndpointsServe(p, id);
    var claim, record := p.resources[id], RecordOf(p, id);
    var source := ServingResource(p, record.source.id, Document);
    ServingObject(p, record.source.id, Document);
    if source.None? {
      return None;
    }
    var subject := ServingResource(p, record.binding.subjectID, Entity);
    ServingObject(p, record.binding.subjectID, Entity);
    if subject.None? {
      return None;
    }
    var target := ServingResource(p, record.binding.objectID, Entity);
    ServingObject(p, record.binding.objectID, Entity);
    if target.None? {
      return None;
    }
    return Some([
      CatalogBinding(id, source.value.authzObject, SourceDocument, claim.authzObject),
      CatalogBinding(id, subject.value.authzObject, Subject, claim.authzObject),
      CatalogBinding(id, target.value.authzObject, Object, claim.authzObject)]);
  }

  method CollectBindings(p: Projection) returns (result: Option<seq<CatalogBinding>>)
    requires ValidProjection(p)
    ensures result.Some? && ListsClaims(p, result.value)
  {
    hide ValidProjection, Endpoint, IsEligible;
    var bindings: seq<CatalogBinding> := [];
    var rest := p.resources.Keys;
    while rest != {}
      invariant rest <= p.resources.Keys
      invariant Distinct(bindings)
      invariant forall b :: b in bindings <==> StandsFor(p, b) && b.id !in rest
      decreases |rest|
    {
      var id :| id in rest;
      rest := rest - {id};
      var claim := p.resources[id];
      if claim.kind.Claim? && IsEligible(claim) {
        assert id in ClaimsOf(p);
        var more := ClaimBindings(p, id);
        if more.None? {
          return None;
        }
        bindings := bindings + more.value;
      }
    }
    return Some(bindings);
  }

  /**
   Exactly the published projections with one boundary for each authorization object
   and well named claims have claim tuples, and they are all of the tuples of all of
   the serving source backed claims, in order.
   */
  method ProjectCatalogClaimTuples(names: Names, rank: CatalogBinding -> nat, p: Projection)
    returns (result: Option<seq<CatalogBinding>>)
    requires Unambiguous(names) && Injective(rank)
    ensures result.Some? <==>
              ValidProjection(p) && p.state.StatePublished? && OneBoundary(p) && WellNamed(names, p)
    ensures result.Some? ==>
              && ListsClaims(p, result.value) && Ranked(rank, result.value)
              && ValidList(names, rank, result.value)
  {
    hide OneBoundary, WellNamed, ValidList, ListsClaims;
    if !ValidProjection(p) || !p.state.StatePublished? {
      return None;
    }
    hide ValidProjection, Unambiguous;
    var boundaries := ServingBoundaries(p);
    if boundaries.None? {
      return None;
    }
    var collected := CollectBindings(p);
    if collected.None? {
      return None;
    }
    DistinctRanks(rank, p, collected.value);
    var bindings := Arrange(rank, collected.value);
    Rearranged(rank, p, collected.value, bindings);
    ListIsValid(names, rank, p, bindings);
    var ok := ValidateList(names, rank, bindings);
    result := if ok then Some(bindings) else None;
  }

  lemma DistinctRanks(rank: CatalogBinding -> nat, p: Projection, bindings: seq<CatalogBinding>)
    requires Injective(rank) && ListsClaims(p, bindings)
    ensures Separated(rank, bindings)
  {
    hide StandsFor;
  }

  lemma Rearranged(rank: CatalogBinding -> nat, p: Projection, bindings: seq<CatalogBinding>, sorted: seq<CatalogBinding>)
    requires ListsClaims(p, bindings) && multiset(sorted) == multiset(bindings) && Ranked(rank, sorted)
    ensures ListsClaims(p, sorted)
  {
    hide StandsFor;
    SameMultisetMembers(sorted, bindings);
  }

  /** A serving document without claims, known to the authorizer under this object. */
  function DocumentUnder(id: ResourceID, authzObject: nat): Resource {
    Resource(id, Document, Scope(1, 1), authzObject, id, 1, ResourceVersions(1, 1, 1, 1, 1, 1), StatePublished, Succeeded,
             0, 1, {}, None, None)
  }

  function TwoDocuments(): Projection {
    Projection(Scope(1, 1), 1, Snapshot(Scope(1, 1), 1, 1, 1, 2), StatePublished,
               map[1 := DocumentUnder(1, 1), 2 := DocumentUnder(2, 1)], {}, map[])
  }

  /** A valid published projection need not have claim tuples: two documents may share their object. */
  lemma SharedObject()
    ensures ValidProjection(TwoDocuments()) && TwoDocuments().state.StatePublished? && !OneBoundary(TwoDocuments())
  {
    var p := TwoDocuments();
    assert CountedDocuments(p.resources) == {1, 2};
    assert 1 in Serving(p) && 2 in Serving(p);
    forall id | id in p.resources ensures ResourceFits(p, id) {
      assert p.resources[id] == DocumentUnder(id, 1);
    }
  }

  /** Two runs over one projection give the same list. */
  lemma TuplesUnique(rank: CatalogBinding -> nat, p: Projection, s: seq<CatalogBinding>, t: seq<CatalogBinding>)
    requires ListsClaims(p, s) && ListsClaims(p, t) && Ranked(rank, s) && Ranked(rank, t)
    ensures s == t
  {
    hide StandsFor;
    RankedUnique(rank, s, t);
  }

  /**
   The record decides who is bound how: the claim's own document as its source, its
   subject as subject, its object as object, each by its authorization object.
   */
  lemma TuplesOfRecord(p: Projection, bindings: seq<CatalogBinding>, id: ResourceID, record: ClaimRecord)
    requires ValidProjection(p) && ListsClaims(p, bindings)
    requires id in Serving(p) && p.resources[id].claimRecord == Some(record) && record.binding.SourceBacked?
    ensures var ids := {record.source.id, record.binding.subjectID, record.binding.objectID}; ids <= Serving(p)
    ensures forall b :: b in bindings && b.id == id <==>
              var own := p.resources[id].authzObject;
              b in {CatalogBinding(id, p.resources[record.source.id].authzObject, SourceDocument, own),
                    CatalogBinding(id, p.resources[record.binding.subjectID].authzObject, Subject, own),
                    CatalogBinding(id, p.resources[record.binding.objectID].authzObject, Object, own)}
  {
    hide ValidProjection, ClaimsOf, StandsFor;
    ClaimHasKind(p, id);
    ClaimStandsFor(p, id);
    ClaimEndpoints(p, id, record);
  }

  lemma ClaimHasKind(p: Projection, id: ResourceID)
    requires ValidProjection(p) && id in Serving(p) && p.resources[id].claimRecord.Some?
    requires p.resources[id].claimRecord.value.binding.SourceBacked?
    ensures id in ClaimsOf(p)
  {
    assert ResourceFits(p, id);
  }

  lemma ClaimEndpoints(p: Projection, id: ResourceID, record: ClaimRecord)
    requires ValidProjection(p) && id in ClaimsOf(p) && p.resources[id].claimRecord == Some(record)
    ensures {record.source.id, record.binding.subjectID, record.binding.objectID} <= Serving(p)
    ensures BindingFor(p, id, SourceDocument)
         == CatalogBinding(id, p.resources[record.source.id].authzObject, SourceDocument, p.resources[id].authzObject)
    ensures BindingFor(p, id, Subject)
         == CatalogBinding(id, p.resources[record.binding.subjectID].authzObject, Subject, p.resources[id].authzObject)
    ensures BindingFor(p, id, Object)
         == CatalogBinding(id, p.resources[record.binding.objectID].authzObject, Object, p.resources[id].authzObject)
  {
    hide ValidProjection, ClaimsOf, ServingResource;
    HasRecord(p, id);
    EndpointsServe(p, id);
    ServesFound(p, record.source.id, Document);
    ServesFound(p, record.binding.subjectID, Entity);
    ServesFound(p, record.binding.objectID, Entity);
  }

  lemma ServesFound(p: Projection, id: ResourceID, kind: ResourceType)
    requires ServingResource(p, id, kind).Some?
    ensures id in Serving(p) && p.resources[id].authzObject == ObjectOf(p, id)
  {
  }

  // The tuples as the rewriting protocol takes them.

  ghost function IDFor(names: Names, bindings: seq<CatalogBinding>, t: Tuple): ResourceID
    requires t in ReadAll(names, bindings)
  {
    var b :| b in bindings && Read(names, b) == Some(t);
    b.id
  }

  ghost function BindingsOf(names: Names, bindings: seq<CatalogBinding>): TupleRewrite.Bindings {
    map t | t in ReadAll(names, bindings) :: IDFor(names, bindings, t)
  }

  lemma IDForObject(names: Names, bindings: seq<CatalogBinding>, s: Tuple, t: Tuple)
    requires Unambiguous(names) && Consistent(names, bindings)
    requires s in ReadAll(names, bindings) && t in ReadAll(names, bindings) && s.object_ == t.object_
    ensures IDFor(names, bindings, s) == IDFor(names, bindings, t)
  {
    var b :| b in bindings && Read(names, b) == Some(s) && b.id == IDFor(names, bindings, s);
    var c :| c in bindings && Read(names, c) == Some(t) && c.id == IDFor(names, bindings, t);
    assert names(b.object_) == names(c.object_);
    var i :| 0 <= i < |bindings| && bindings[i] == b;
    var j :| 0 <= j < |bindings| && bindings[j] == c;
    if i != j {
      assert bindings[i].object_ == bindings[j].object_;
    }
  }

  /** What the projection returns is what a delta is computed between. */
  lemma ProjectedIsValid(names: Names, rank: CatalogBinding -> nat, bindings: seq<CatalogBinding>)
    requires Unambiguous(names) && ValidList(names, rank, bindings)
    ensures TupleRewrite.ValidBindings(BindingsOf(names, bindings))
    ensures forall b | b in bindings :: Read(names, b).Some?
              && Read(names, b).value in BindingsOf(names, bindings)
              && BindingsOf(names, bindings)[Read(names, b).value] == b.id
  {
    hide ValidSnapshot, Unambiguous, Consistent, ValidTuple;
    var m := BindingsOf(names, bindings);
    assert m.Keys == ReadAll(names, bindings);
    forall t | t in m ensures m[t] > 0 && TupleRewrite.IsClaimBinding(t) {
      var b :| b in bindings && Read(names, b) == Some(t) && b.id == IDFor(names, bindings, t);
      assert ValidCatalogBinding(names, b);
    }
    forall s, t | s in m && t in m && s.object_ == t.object_ ensures m[s] == m[t] {
      IDForObject(names, bindings, s, t);
    }
    forall b | b in bindings
      ensures Read(names, b).Some? && Read(names, b).value in m && m[Read(names, b).value] == b.id
    {
      assert ValidCatalogBinding(names, b);
      OneReading(names, bindings, b);
    }
  }

  lemma OneReading(names: Names, bindings: seq<CatalogBinding>, b: CatalogBinding)
    requires Consistent(names, bindings) && b in bindings && Read(names, b).Some?
    ensures IDFor(names, bindings, Read(names, b).value) == b.id
  {
    hide Read;
    var t := Read(names, b).value;
    var c :| c in bindings && Read(names, c) == Some(t) && c.id == IDFor(names, bindings, t);
    var i :| 0 <= i < |bindings| && bindings[i] == b;
    var j :| 0 <= j < |bindings| && bindings[j] == c;
  }

  // What the tuples let a reader see.

  lemma EndpointReached(
    names: Names, p: Projection, bindings: seq<CatalogBinding>, tuples: set<Tuple>, user: nat, id: ResourceID,
    relation: Relation, edit: bool)
    requires ListsClaims(p, bindings) && (forall b | b in bindings :: Read(names, b).Some?)
    requires ReadAll(names, bindings) <= tuples && (forall t | t in tuples :: ValidTuple(t)) && Singular(tuples)
    requires id in ClaimsOf(p) && IsSingular(relation) && IsNamed(names, p, id, ClaimType)
    requires Access(tuples, user, names(ObjectOf(p, id)).value, edit)
    requires !Granted(tuples, user, names(ObjectOf(p, id)).value, edit)
    ensures names(ObjectOf(p, Endpoint(p, id, relation))).Some?
    ensures Access(tuples, user, names(ObjectOf(p, Endpoint(p, id, relation))).value, edit)
  {
    hide Access, Granted, ValidTuple, Singular, ClaimsOf, Endpoint, ObjectOf;
    var b := BindingFor(p, id, relation);
    assert StandsFor(p, b) && b in bindings;
    var t := Read(names, b).value;
    assert t in ReadAll(names, bindings) && t.object_ == names(ObjectOf(p, id)).value;
    ClaimAccessReachesEndpoints(tuples, user, t, edit);
  }

  /** Evidence has the authorization object of the source document. */
  lemma EvidenceObject(p: Projection, id: ResourceID, e: EvidenceRef)
    requires ValidProjection(p) && id in ClaimsOf(p) && e in RecordOf(p, id).provenance.Evidence()
    ensures e.id in Serving(p) && ObjectOf(p, e.id) == ObjectOf(p, RecordOf(p, id).source.id)
  {
    EvidenceEligible(p, id, e);
    assert ResourceFits(p, e.id);
  }

  /**
   In any valid tuple store that holds the tuples of the projection, whoever may view
   or edit a claim without a grant on it may view or edit its subject, its object and
   every piece of evidence its catalog record names.
   */
  lemma ClaimAccessReachesRecord(
    names: Names, rank: CatalogBinding -> nat, p: Projection, bindings: seq<CatalogBinding>, tuples: set<Tuple>,
    user: nat, id: ResourceID, edit: bool)
    requires Unambiguous(names) && ValidProjection(p) && ListsClaims(p, bindings) && ValidList(names, rank, bindings)
    requires ReadAll(names, bindings) <= tuples && (forall t | t in tuples :: ValidTuple(t)) && Singular(tuples)
    requires id in ClaimsOf(p) && IsNamed(names, p, id, ClaimType)
    requires Access(tuples, user, names(ObjectOf(p, id)).value, edit)
    requires !Granted(tuples, user, names(ObjectOf(p, id)).value, edit)
    ensures forall other |
              || other in {RecordOf(p, id).binding.subjectID, RecordOf(p, id).binding.objectID}
              || exists e | e in RecordOf(p, id).provenance.Evidence() :: other == e.id ::
              names(ObjectOf(p, other)).Some? && Access(tuples, user, names(ObjectOf(p, other)).value, edit)
  {
    hide ValidProjection, Access, Granted, ValidTuple, Singular, ClaimsOf, ObjectOf, ListsClaims, IsNamed, Consistent,
      ValidSnapshot, Unambiguous;
    assert forall b | b in bindings :: ValidCatalogBinding(names, b);
    EndpointReached(names, p, bindings, tuples, user, id, SourceDocument, edit);
    EndpointReached(names, p, bindings, tuples, user, id, Subject, edit);
    EndpointReached(names, p, bindings, tuples, user, id, Object, edit);
    forall e | e in RecordOf(p, id).provenance.Evidence()
      ensures ObjectOf(p, e.id) == ObjectOf(p, RecordOf(p, id).source.id)
    {
      EvidenceObject(p, id, e);
    }
  }
}
