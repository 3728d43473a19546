/**
 The in-process authorizer: a tuple set with an incrementally kept index of claim
 bindings, and the mutually recursive evaluator over them.
 */
module LocalAuthorization {
  import opened Wrappers
  import opened Tuples
  import opened AuthorizationModel

  // The index of claim bindings.

  datatype BindingState = BindingState(tupleCount: nat, bindings: map<Relation, Ref>)

  const NoBindings := BindingState(0, map[])

  type Index = map<Ref, BindingState>

  function OfObject(tuples: set<Tuple>, o: Ref): set<Tuple> {
    set t | t in tuples && t.object_ == o
  }

  /** What the index has to say about one claim that has tuples. */
  ghost predicate StateMatches(tuples: set<Tuple>, o: Ref, state: BindingState) {
    && state.tupleCount == |OfObject(tuples, o)|
    && (forall relation :: relation in state.bindings <==> IsSingular(relation) && Bound(tuples, o, relation))
    && (forall t | t in tuples && t.object_ == o && IsSingular(t.relation) ::
          t.relation in state.bindings && state.bindings[t.relation] == t.user)
  }

  /** The index equals the one recomputed from the tuples. */
  ghost predicate Agrees(tuples: set<Tuple>, index: Index) {
    && (forall o: Ref :: o in index <==> o.kind.ClaimType? && OfObject(tuples, o) != {})
    && (forall o | o in index :: StateMatches(tuples, o, index[o]))
  }

  predicate Conflicts(tuples: set<Tuple>, t: Tuple) {
    && t.object_.kind.ClaimType? && IsSingular(t.relation)
    && exists s | s in tuples :: s.object_ == t.object_ && s.relation == t.relation && s.user != t.user
  }

  /** A claim's bindings after one more tuple, unless that would be a second value. */
  function AddBinding(state: BindingState, t: Tuple): Option<BindingState> {
    if IsSingular(t.relation) && t.relation in state.bindings && state.bindings[t.relation] != t.user then None
    else
      Some(BindingState(
             state.tupleCount + 1,
             if IsSingular(t.relation) then state.bindings[t.relation := t.user] else state.bindings))
  }

  function RemoveBinding(state: BindingState, t: Tuple): BindingState
    requires state.tupleCount > 0
  {
    BindingState(
      state.tupleCount - 1,
      if IsSingular(t.relation) && t.relation in state.bindings && state.bindings[t.relation] == t.user
      then state.bindings - {t.relation}
      else state.bindings)
  }

  predicate IsComplete(state: BindingState) {
    SourceDocument in state.bindings && Subject in state.bindings && Object in state.bindings
  }

  lemma AgreesSingular(tuples: set<Tuple>, index: Index)
    requires Agrees(tuples, index)
    ensures Singular(tuples)
    ensures forall o | o in index :: IsComplete(index[o]) <==> CompleteClaim(tuples, o)
  {
    forall s, t | s in tuples && t in tuples && s.object_ == t.object_ && s.object_.kind.ClaimType?
                  && s.relation == t.relation && IsSingular(s.relation)
      ensures s.user == t.user
    {
      assert s in OfObject(tuples, s.object_);
      assert s.object_ in index;
    }
  }

  function StateOf(index: Index, o: Ref): BindingState {
    if o in index then index[o] else NoBindings
  }

  /** A tuple is refused exactly when it would be a second value of a singular relation. */
  lemma AddConflicts(tuples: set<Tuple>, state: BindingState, t: Tuple)
    requires StateMatches(tuples, t.object_, state) && t.object_.kind.ClaimType?
    ensures AddBinding(state, t).None? <==> Conflicts(tuples, t)
  {
    if IsSingular(t.relation) && Bound(tuples, t.object_, t.relation) {
      var s :| s in tuples && s.object_ == t.object_ && s.relation == t.relation;
      assert state.bindings[t.relation] == s.user;
    }
  }

  lemma OfObjectAdd(tuples: set<Tuple>, t: Tuple, o: Ref)
    ensures o == t.object_ ==> OfObject(tuples + {t}, o) != {}
    ensures o != t.object_ ==> OfObject(tuples + {t}, o) == OfObject(tuples, o)
  {
    assert o == t.object_ ==> t in OfObject(tuples + {t}, o);
  }

  lemma AddAgrees(tuples: set<Tuple>, index: Index, t: Tuple, after: BindingState)
    requires Agrees(tuples, index) && t !in tuples && t.object_.kind.ClaimType?
    requires AddBinding(StateOf(index, t.object_), t) == Some(after)
    ensures Agrees(tuples + {t}, index[t.object_ := after])
  {
    hide AddBinding, StateMatches, OfObject, StateOf;
    var more, grown := tuples + {t}, index[t.object_ := after];
    BeforeMatches(tuples, index, t.object_);
    AddMatches(tuples, t, StateOf(index, t.object_), after);
    forall o: Ref ensures o in grown <==> o.kind.ClaimType? && OfObject(more, o) != {} {
      OfObjectAdd(tuples, t, o);
    }
    forall o | o in grown ensures StateMatches(more, o, grown[o]) {
      if o != t.object_ {
        OfObjectAdd(tuples, t, o);
        OtherMatches(tuples, more, o, index[o]);
      }
    }
  }

  lemma BeforeMatches(tuples: set<Tuple>, index: Index, o: Ref)
    requires Agrees(tuples, index) && o.kind.ClaimType?
    ensures StateMatches(tuples, o, StateOf(index, o))
  {
    if o !in index {
      assert OfObject(tuples, o) == {};
      forall t | t in tuples ensures t.object_ != o {
        assert t.object_ == o ==> t in OfObject(tuples, o);
      }
    }
  }

  lemma AddMatches(tuples: set<Tuple>, t: Tuple, before: BindingState, after: BindingState)
    requires StateMatches(tuples, t.object_, before) && t !in tuples
    requires AddBinding(before, t) == Some(after)
    ensures StateMatches(tuples + {t}, t.object_, after)
  {
    var more := tuples + {t};
    assert OfObject(more, t.object_) == OfObject(tuples, t.object_) + {t};
    forall relation
      ensures relation in after.bindings <==> IsSingular(relation) && Bound(more, t.object_, relation)
    {
      assert t in more;
      assert Bound(more, t.object_, relation) <==> Bound(tuples, t.object_, relation) || relation == t.relation;
    }
  }

  /** A claim none of whose tuples changed keeps its state. */
  lemma OtherMatches(tuples: set<Tuple>, others: set<Tuple>, o: Ref, state: BindingState)
    requires StateMatches(tuples, o, state)
    requires OfObject(others, o) == OfObject(tuples, o)
    ensures StateMatches(others, o, state)
  {
    forall t ensures t in tuples && t.object_ == o <==> t in others && t.object_ == o {
      assert t in OfObject(tuples, o) <==> t in OfObject(others, o);
    }
  }

  lemma RemoveMatches(tuples: set<Tuple>, t: Tuple, before: BindingState)
    requires StateMatches(tuples, t.object_, before) && t in tuples
    ensures before.tupleCount > 0
    ensures StateMatches(tuples - {t}, t.object_, RemoveBinding(before, t))
  {
    var fewer := tuples - {t};
    assert t in OfObject(tuples, t.object_);
    assert OfObject(fewer, t.object_) == OfObject(tuples, t.object_) - {t};
    var after := RemoveBinding(before, t);
    forall relation
      ensures relation in after.bindings <==> IsSingular(relation) && Bound(fewer, t.object_, relation)
    {
      if relation == t.relation && IsSingular(relation) {
        forall s | s in fewer ensures !(s.object_ == t.object_ && s.relation == relation) {
          assert s.object_ == t.object_ && s.relation == relation ==> s == t;
        }
      } else if Bound(tuples, t.object_, relation) {
        var s :| s in tuples && s.object_ == t.object_ && s.relation == relation;
        assert IsSingular(relation) ==> s in fewer;
      }
    }
  }

  lemma RemoveAgrees(tuples: set<Tuple>, index: Index, t: Tuple)
    requires Agrees(tuples, index) && t in tuples && t.object_.kind.ClaimType?
    ensures t.object_ in index && index[t.object_].tupleCount > 0
    ensures var after := RemoveBinding(index[t.object_], t);
            Agrees(tuples - {t}, if after.tupleCount == 0 then index - {t.object_} else index[t.object_ := after])
  {
    OfObjectRemove(tuples, t, t.object_);
    RemoveMatches(tuples, t, index[t.object_]);
    RemovalAgrees(tuples, index, t, RemoveBinding(index[t.object_], t));
  }

  lemma OfObjectRemove(tuples: set<Tuple>, t: Tuple, o: Ref)
    requires t in tuples
    ensures o == t.object_ ==> OfObject(tuples, o) != {}
    ensures o != t.object_ ==> OfObject(tuples - {t}, o) == OfObject(tuples, o)
  {
    assert o == t.object_ ==> t in OfObject(tuples, o);
  }

  lemma RemovalAgrees(tuples: set<Tuple>, index: Index, t: Tuple, after: BindingState)
    requires Agrees(tuples, index) && t in tuples && t.object_.kind.ClaimType?
    requires StateMatches(tuples - {t}, t.object_, after)
    ensures Agrees(tuples - {t}, if after.tupleCount == 0 then index - {t.object_} else index[t.object_ := after])
  {
    var fewer := tuples - {t};
    var shrunk := if after.tupleCount == 0 then index - {t.object_} else index[t.object_ := after];
    assert after.tupleCount == 0 <==> OfObject(fewer, t.object_) == {};
    hide StateMatches, OfObject;
    OfObjectRemove(tuples, t, t.object_);
    forall o: Ref ensures o in shrunk <==> o.kind.ClaimType? && OfObject(fewer, o) != {} {
      OfObjectRemove(tuples, t, o);
    }
    forall o | o in shrunk ensures StateMatches(fewer, o, shrunk[o]) {
      if o != t.object_ {
        OfObjectRemove(tuples, t, o);
        OtherMatches(tuples, fewer, o, index[o]);
      }
    }
  }

  lemma ElsewhereAgrees(tuples: set<Tuple>, others: set<Tuple>, index: Index, t: Tuple)
    requires Agrees(tuples, index) && !t.object_.kind.ClaimType?
    requires others == tuples + {t} || others == tuples - {t}
    ensures Agrees(others, index)
  {
    forall o: Ref | o.kind.ClaimType? ensures OfObject(others, o) == OfObject(tuples, o) {
    }
    forall o | o in index ensures StateMatches(others, o, index[o]) {
      OtherMatches(tuples, others, o, index[o]);
    }
  }

  /** So an index that agrees with the tuples is the recomputed one, and no other. */
  lemma IndexUnique(tuples: set<Tuple>, i: Index, j: Index)
    requires Agrees(tuples, i) && Agrees(tuples, j)
    ensures i == j
  {
    hide StateMatches, OfObject;
    forall o | o in i ensures i[o] == j[o] {
      StateUnique(tuples, o, i[o], j[o]);
    }
  }

  lemma StateUnique(tuples: set<Tuple>, o: Ref, x: BindingState, y: BindingState)
    requires StateMatches(tuples, o, x) && StateMatches(tuples, o, y)
    ensures x == y
  {
    forall relation | relation in x.bindings
      ensures relation in y.bindings && x.bindings[relation] == y.bindings[relation]
    {
      var t :| t in tuples && t.object_ == o && t.relation == relation;
    }
    assert x.bindings == y.bindings;
  }

  // Evaluation, as one answer per request.

  datatype EvaluationError = InvalidRequest | InvalidCardinality

  predicate IsStored(kind: ObjectType, relation: Relation) {
    match kind
    case GroupType | OrganizationType => relation.Member?
    case KnowledgeBaseType => relation.Organization? || relation.Viewer? || relation.Editor?
    case DocumentType =>
      relation.Organization? || relation.Parent? || relation.Viewer? || relation.Editor? || relation.Restricted?
    case EntityType =>
      || relation.Organization? || relation.SourceDocument? || relation.Viewer? || relation.Editor?
      || relation.Restricted?
    case ClaimType =>
      || relation.Organization? || relation.SourceDocument? || relation.Subject? || relation.Object?
      || relation.Viewer? || relation.Editor? || relation.Restricted?
    case _ => false
  }

  /** The relations the model computes for each type. */
  predicate IsComputed(kind: ObjectType, relation: Relation) {
    match kind
    case KnowledgeBaseType => relation.UnscopedReader? || relation.CanView? || relation.CanEdit?
    case DocumentType | EntityType =>
      || relation.InheritedReader? || relation.InheritedEditor? || relation.UnscopedReader? || relation.UnscopedEditor?
      || relation.CanView? || relation.CanEdit?
    case ClaimType => Rank(relation) > 0
    case _ => false
  }

  predicate Supported(kind: ObjectType, relation: Relation) {
    IsStored(kind, relation) || IsComputed(kind, relation)
  }

  predicate InheritedAccess(tuples: set<Tuple>, user: nat, o: Ref, edit: bool) {
    && !IsRestricted(tuples, user, o)
    && match o.kind
       case DocumentType => ParentAccess(tuples, user, o, edit)
       case EntityType => SourceAccess(tuples, user, o, edit)
       case ClaimType => SourceAccess(tuples, user, o, edit) && EntitiesAccess(tuples, user, o, edit)
       case _ => false
  }

  /** What each relation of the model means. */
  predicate Holds(tuples: set<Tuple>, user: nat, relation: Relation, o: Ref) {
    match relation
    case InheritedReader => InheritedAccess(tuples, user, o, false)
    case InheritedEditor => InheritedAccess(tuples, user, o, true)
    case UnscopedReader => Granted(tuples, user, o, false) || InheritedAccess(tuples, user, o, false)
    case UnscopedEditor => Granted(tuples, user, o, true) || InheritedAccess(tuples, user, o, true)
    case CanView => Access(tuples, user, o, false)
    case CanEdit => Access(tuples, user, o, true)
    case SourceReader => SourceAccess(tuples, user, o, false)
    case SourceEditor => SourceAccess(tuples, user, o, true)
    case SubjectReader => EndpointAccess(tuples, user, o, Subject, false)
    case SubjectEditor => EndpointAccess(tuples, user, o, Subject, true)
    case ObjectReader => EndpointAccess(tuples, user, o, Object, false)
    case ObjectEditor => EndpointAccess(tuples, user, o, Object, true)
    case EntitiesReader => EntitiesAccess(tuples, user, o, false)
    case EntitiesEditor => EntitiesAccess(tuples, user, o, true)
    case InheritableReader => SourceAccess(tuples, user, o, false) && EntitiesAccess(tuples, user, o, false)
    case InheritableEditor => SourceAccess(tuples, user, o, true) && EntitiesAccess(tuples, user, o, true)
    case _ => Direct(tuples, user, relation, o)
  }

  /** The answer to a request; a claim without tuples denies, an incomplete one is an error. */
  function Answer(tuples: set<Tuple>, user: nat, relation: Relation, o: Ref): Result<bool, EvaluationError> {
    if o.kind.ClaimType? && OfObject(tuples, o) == {} then Ok(false)
    else if o.kind.ClaimType? && !CompleteClaim(tuples, o) then Err(InvalidCardinality)
    else if Supported(o.kind, relation) then Ok(Holds(tuples, user, relation, o))
    else Err(InvalidRequest)
  }

  /** On every object the evaluator answers, whoever can edit can view. */
  lemma CanEditImpliesCanView(tuples: set<Tuple>, user: nat, o: Ref)
    requires Answer(tuples, user, CanEdit, o) == Ok(true)
    ensures Answer(tuples, user, CanView, o) == Ok(true)
  {
    EditImpliesView(tuples, user, o);
  }

  /**
   In every set of tuples an authorizer can hold, other claims incomplete or not: a
   request on a claim that is granted without a direct grant is granted on its
   source document, its subject and its object, and all three are bound.
   */
  lemma ClaimAnswersReachEndpoints(tuples: set<Tuple>, user: nat, claim: Ref, edit: bool)
    requires (forall t | t in tuples :: ValidTuple(t)) && Singular(tuples) && claim.kind.ClaimType?
    requires Answer(tuples, user, AccessRelation(edit), claim) == Ok(true) && !Granted(tuples, user, claim, edit)
    ensures CompleteClaim(tuples, claim)
    ensures forall t | t in tuples && t.object_ == claim && IsSingular(t.relation) ::
              Answer(tuples, user, AccessRelation(edit), t.user) == Ok(true)
  {
    hide Access, Holds, Granted;
    AnswerIsAccess(tuples, user, claim, edit);
    forall t | t in tuples && t.object_ == claim && IsSingular(t.relation)
      ensures Answer(tuples, user, AccessRelation(edit), t.user) == Ok(true)
    {
      assert ValidTuple(t);
      ClaimAccessReachesEndpoints(tuples, user, t, edit);
      AnswerIsAccess(tuples, user, t.user, edit);
    }
  }

  /** On the types that carry the permissions, the answer is access by the model. */
  lemma AnswerIsAccess(tuples: set<Tuple>, user: nat, o: Ref, edit: bool)
    requires o.kind.DocumentType? || o.kind.EntityType? || o.kind.ClaimType?
    ensures Answer(tuples, user, AccessRelation(edit), o) == Ok(true)
       <==> Access(tuples, user, o, edit) && (o.kind.ClaimType? ==> CompleteClaim(tuples, o))
  {
    hide DocumentAccess, EntityAccess, ClaimAccess;
    if o.kind.ClaimType? && CompleteClaim(tuples, o) {
      var t :| t in tuples && t.object_ == o;
      assert t in OfObject(tuples, o);
    }
  }

  // The termination measure: types are stratified, and so are the relations of a type.

  function Stratum(kind: ObjectType): nat {
    match kind
    case OrganizationType => 1
    case KnowledgeBaseType => 2
    case DocumentType => 3
    case EntityType => 4
    case ClaimType => 5
    case _ => 0
  }

  function Rank(relation: Relation): nat {
    match relation
    case SourceReader | SourceEditor | SubjectReader | SubjectEditor | ObjectReader | ObjectEditor => 1
    case EntitiesReader | EntitiesEditor => 2
    case InheritableReader | InheritableEditor => 3
    case InheritedReader | InheritedEditor => 4
    case UnscopedReader | UnscopedEditor => 5
    case CanView | CanEdit => 6
    case _ => 0
  }

  datatype EvaluationKey = EvaluationKey(user: nat, relation: Relation, object_: Ref)

  /** Everything being visited lies strictly above this type and relation. */
  predicate Below(visiting: set<EvaluationKey>, stratum: nat, rank: nat) {
    forall key | key in visiting ::
      stratum < Stratum(key.object_.kind) || (stratum == Stratum(key.object_.kind) && rank < Rank(key.relation))
  }

  /** The request itself is being visited and everything else lies above it. */
  predicate Visited(visiting: set<EvaluationKey>, o: Ref, relation: Relation) {
    forall key | key in visiting ::
      || Stratum(o.kind) < Stratum(key.object_.kind)
      || (Stratum(o.kind) == Stratum(key.object_.kind) && Rank(relation) <= Rank(key.relation))
  }

  predicate AtMost(visiting: set<EvaluationKey>, stratum: nat) {
    forall key | key in visiting :: stratum <= Stratum(key.object_.kind)
  }

  // What the scan loops need to know about the model.

  predicate Reaches(tuples: set<Tuple>, user: nat, subject: Ref) {
    || subject == Person(user) || subject.IsEveryone()
    || (subject.IsGroupMembers() && InGroup(tuples, user, subject.(userset := None)))
  }

  lemma MemberOfGroup(tuples: set<Tuple>, user: nat, group: Ref)
    requires (forall t | t in tuples :: ValidTuple(t)) && group.kind.GroupType?
    ensures Direct(tuples, user, Member, group) <==> InGroup(tuples, user, group)
  {
    if InGroup(tuples, user, group) {
      assert Tuple(Person(user), Member, group).object_ == group;
    }
  }

  predicate Related(tuples: set<Tuple>, user: nat, tupleRelation: Relation, computed: Relation, o: Ref) {
    exists t | t in tuples ::
      t.relation == tupleRelation && t.object_ == o && Holds(tuples, user, computed, t.user)
  }

  /** The tuple leads to an object of a lower stratum on which the relation is defined. */
  predicate Leads(t: Tuple, computed: Relation, o: Ref) {
    && Stratum(t.user.kind) < Stratum(o.kind) && !t.user.kind.ClaimType?
    && t.user.userset.None? && t.user.id != 0
    && Supported(t.user.kind, computed)
  }

  predicate Lower(tuples: set<Tuple>, tupleRelation: Relation, computed: Relation, o: Ref) {
    forall t | t in tuples && t.relation == tupleRelation && t.object_ == o :: Leads(t, computed, o)
  }

  lemma OrganizationsLower(tuples: set<Tuple>, o: Ref)
    requires (forall t | t in tuples :: ValidTuple(t)) && 2 <= Stratum(o.kind)
    ensures Lower(tuples, Organization, Member, o)
  {
    forall t | t in tuples && t.relation == Organization && t.object_ == o ensures Leads(t, Member, o) {
      assert ValidTuple(t);
    }
  }

  lemma OrganizationMeans(tuples: set<Tuple>, user: nat, o: Ref)
    ensures Related(tuples, user, Organization, Member, o) <==> InOrganization(tuples, user, o)
  {
  }

  /** The computed relation that viewing, or editing, follows to a related object. */
  function AccessRelation(edit: bool): Relation {
    if edit then CanEdit else CanView
  }

  lemma ParentMeans(tuples: set<Tuple>, user: nat, o: Ref, edit: bool)
    requires (forall t | t in tuples :: ValidTuple(t)) && o.kind.DocumentType?
    ensures Lower(tuples, Parent, AccessRelation(edit), o)
    ensures Related(tuples, user, Parent, AccessRelation(edit), o) <==> ParentAccess(tuples, user, o, edit)
  {
    forall t | t in tuples && t.relation == Parent && t.object_ == o
      ensures Leads(t, AccessRelation(edit), o)
      ensures Holds(tuples, user, AccessRelation(edit), t.user) <==> KnowledgeBaseAccess(tuples, user, t.user, edit)
    {
      assert ValidTuple(t);
    }
  }

  lemma SourceMeans(tuples: set<Tuple>, user: nat, o: Ref, edit: bool)
    requires (forall t | t in tuples :: ValidTuple(t)) && (o.kind.EntityType? || o.kind.ClaimType?)
    ensures Lower(tuples, SourceDocument, AccessRelation(edit), o)
    ensures Related(tuples, user, SourceDocument, AccessRelation(edit), o) <==> SourceAccess(tuples, user, o, edit)
  {
    forall t | t in tuples && t.relation == SourceDocument && t.object_ == o
      ensures Leads(t, AccessRelation(edit), o)
      ensures Holds(tuples, user, AccessRelation(edit), t.user) <==> DocumentAccess(tuples, user, t.user, edit)
    {
      assert ValidTuple(t);
    }
  }

  lemma EndpointMeans(tuples: set<Tuple>, user: nat, o: Ref, relation: Relation, edit: bool)
    requires (forall t | t in tuples :: ValidTuple(t)) && o.kind.ClaimType? && (relation.Subject? || relation.Object?)
    ensures Lower(tuples, relation, AccessRelation(edit), o)
    ensures Related(tuples, user, relation, AccessRelation(edit), o)
       <==> EndpointAccess(tuples, user, o, relation, edit)
  {
    forall t | t in tuples && t.relation == relation && t.object_ == o
      ensures Leads(t, AccessRelation(edit), o)
      ensures Holds(tuples, user, AccessRelation(edit), t.user) <==> EntityAccess(tuples, user, t.user, edit)
    {
      assert ValidTuple(t);
    }
  }

  class LocalAuthorizer {
    var tuples: set<Tuple>
    var claimBindings: Index

    ghost predicate Valid()
      reads this
    {
      (forall t | t in tuples :: ValidTuple(t)) && Agrees(tuples, claimBindings)
    }

    constructor ()
      ensures Valid() && tuples == {}
    {
      tuples, claimBindings := {}, map[];
    }

    method AddTuple(t: Tuple) returns (ok: bool)
      requires Valid()
      modifies this
      ensures Valid()
      ensures ok <==> ValidTuple(t) && (t in old(tuples) || !Conflicts(old(tuples), t))
      ensures ok ==> tuples == old(tuples) + {t}
      ensures !ok ==> tuples == old(tuples) && claimBindings == old(claimBindings)
    {
      if !ValidTuple(t) {
        return false;
      }
      if t in tuples {
        assert tuples == tuples + {t};
        return true;
      }
      if t.object_.kind.ClaimType? {
        var state := if t.object_ in claimBindings then claimBindings[t.object_] else NoBindings;
        BeforeMatches(tuples, claimBindings, t.object_);
        AddConflicts(tuples, state, t);
        var added := AddBinding(state, t);
        if added.None? {
          return false;
        }
        AddAgrees(tuples, claimBindings, t, added.value);
        claimBindings := claimBindings[t.object_ := added.value];
      } else {
        ElsewhereAgrees(tuples, tuples + {t}, claimBindings, t);
      }
      tuples := tuples + {t};
      return true;
    }

    method RemoveTuple(t: Tuple) returns (ok: bool)
      requires Valid()
      modifies this
      ensures Valid()
      ensures ok <==> ValidTuple(t)
      ensures tuples == if ok then old(tuples) - {t} else old(tuples)
      ensures tuples == old(tuples) ==> claimBindings == old(claimBindings)
    {
      if !ValidTuple(t) {
        return false;
      }
      if t !in tuples {
        assert tuples == tuples - {t};
        return true;
      }
      if t.object_.kind.ClaimType? {
        RemoveAgrees(tuples, claimBindings, t);
        var state := RemoveBinding(claimBindings[t.object_], t);
        claimBindings := if state.tupleCount == 0 then claimBindings - {t.object_}
                         else claimBindings[t.object_ := state];
      } else {
        ElsewhereAgrees(tuples, tuples - {t}, claimBindings, t);
      }
      tuples := tuples - {t};
      return true;
    }

    /** Installs a snapshot tuple by tuple, once all of it has been validated. */
    method Install(snapshot: seq<Tuple>) returns (ok: bool)
      requires Valid() && tuples == {}
      modifies this
      ensures Valid()
      ensures ok <==> ValidSnapshot(set t | t in snapshot)
      ensures ok ==> tuples == set t | t in snapshot
      ensures !ok ==> tuples == {}
    {
      ghost var wanted := set t | t in snapshot;
      var valid := ValidateTuples(snapshot);
      if !valid {
        return false;
      }
      for i := 0 to |snapshot|
        invariant Valid() && tuples == set t | t in snapshot[..i]
      {
        assert snapshot[..i + 1] == snapshot[..i] + [snapshot[i]];
        assert forall s | s in tuples :: s in wanted;
        assert snapshot[i] in wanted;
        var added := AddTuple(snapshot[i]);
        assert added;
      }
      assert snapshot[..|snapshot|] == snapshot;
      return true;
    }

    // The evaluator. `visiting` holds the requests on the way to this one.

    method MatchingTuples(relation: Relation, o: Ref) returns (matches: seq<Tuple>)
      ensures forall t :: t in matches <==> t in tuples && t.relation == relation && t.object_ == o
    {
      matches := [];
      var rest := tuples;
      while rest != {}
        invariant rest <= tuples
        invariant forall t :: t in matches <==> t in tuples - rest && t.relation == relation && t.object_ == o
        decreases |rest|
      {
        var t :| t in rest;
        rest := rest - {t};
        if t.relation == relation && t.object_ == o {
          matches := matches + [t];
        }
      }
    }

    method DirectLocked(user: nat, relation: Relation, o: Ref, visiting: set<EvaluationKey>)
      returns (result: Result<bool, EvaluationError>)
      requires Valid() && user != 0 && AtMost(visiting, Stratum(o.kind))
      ensures result == Ok(Direct(tuples, user, relation, o))
      decreases Stratum(o.kind), 0, 0
    {
      hide Agrees, InOrganization, Granted, CompleteClaim, Singular, KnowledgeBaseAccess, DocumentAccess, EntityAccess,
        InheritedAccess, SourceAccess, EndpointAccess;
      var matches := MatchingTuples(relation, o);
      for i := 0 to |matches|
        invariant forall j | 0 <= j < i :: !Reaches(tuples, user, matches[j].user)
      {
        var subject := matches[i].user;
        assert ValidTuple(matches[i]);
        if subject == Person(user) {
          return Ok(true);
        }
        if subject.id == 0 && subject.userset.None? && subject.kind.UserType? {
          return Ok(true);
        }
        if subject.userset.Some? {
          var base := subject.(userset := None);
          var allowed := Evaluate(user, subject.userset.value, base, visiting);
          MemberOfGroup(tuples, user, base);
          if allowed != Ok(false) {
            return allowed;
          }
        }
      }
      return Ok(false);
    }

    method MemberOfRelatedObjects(
      user: nat, tupleRelation: Relation, computed: Relation, o: Ref, visiting: set<EvaluationKey>)
      returns (result: Result<bool, EvaluationError>)
      requires Valid() && user != 0 && AtMost(visiting, Stratum(o.kind))
      requires Lower(tuples, tupleRelation, computed, o)
      ensures result == Ok(Related(tuples, user, tupleRelation, computed, o))
      decreases Stratum(o.kind), 0, 0
    {
      hide Direct, InOrganization, Granted, SourceAccess, EndpointAccess, ParentAccess, OfObject, ValidTuple, Agrees;
      var matches := MatchingTuples(tupleRelation, o);
      for i := 0 to |matches|
        invariant forall j | 0 <= j < i :: !Holds(tuples, user, computed, matches[j].user)
      {
        assert Leads(matches[i], computed, o);
        var allowed := Evaluate(user, computed, matches[i].user, visiting);
        if allowed != Ok(false) {
          return allowed;
        }
      }
      return Ok(false);
    }

    method IntersectOrganization(user: nat, relation: Relation, o: Ref, visiting: set<EvaluationKey>)
      returns (result: Result<bool, EvaluationError>)
      requires Valid() && user != 0 && o.userset.None? && o.id != 0
      requires 2 <= Stratum(o.kind) && Below(visiting, Stratum(o.kind), Rank(relation))
      ensures result == if InOrganization(tuples, user, o) then Answer(tuples, user, relation, o) else Ok(false)
      decreases Stratum(o.kind), Rank(relation), 4
    {
      OrganizationsLower(tuples, o);
      var member := MemberOfRelatedObjects(user, Organization, Member, o, visiting);
      OrganizationMeans(tuples, user, o);
      if member != Ok(true) {
        return member;
      }
      result := Evaluate(user, relation, o, visiting);
    }

    /** All of the given computed relations of the object. */
    method AllComputed(user: nat, o: Ref, relations: seq<Relation>, ghost bound: nat, visiting: set<EvaluationKey>)
      returns (result: Result<bool, EvaluationError>)
      requires Valid() && user != 0 && o.userset.None? && o.id != 0
      requires Below(visiting, Stratum(o.kind), bound)
      requires forall relation | relation in relations ::
                 && Rank(relation) <= bound
                 && Answer(tuples, user, relation, o) == Ok(Holds(tuples, user, relation, o))
      ensures result == Ok(forall relation | relation in relations :: Holds(tuples, user, relation, o))
      decreases Stratum(o.kind), bound, 4
    {
      hide Holds, Answer, OfObject, Agrees, ValidTuple;
      for i := 0 to |relations|
        invariant forall j | 0 <= j < i :: Holds(tuples, user, relations[j], o)
      {
        assert relations[i] in relations;
        var allowed := Evaluate(user, relations[i], o, visiting);
        if allowed != Ok(true) {
          return allowed;
        }
      }
      return Ok(true);
    }

    method DirectOrInherited(user: nat, o: Ref, inherited: Relation, visiting: set<EvaluationKey>)
      returns (result: Result<bool, EvaluationError>)
      requires Valid() && user != 0 && o.userset.None? && o.id != 0
      requires inherited.InheritedReader? || inherited.InheritedEditor?
      requires Below(visiting, Stratum(o.kind), Rank(inherited))
      ensures result == if Granted(tuples, user, o, inherited.InheritedEditor?) then Ok(true)
                        else Answer(tuples, user, inherited, o)
      decreases Stratum(o.kind), Rank(inherited), 4
    {
      if inherited.InheritedReader? {
        var viewer := DirectLocked(user, Viewer, o, visiting);
        if viewer != Ok(false) {
          return viewer;
        }
      }
      var direct := DirectLocked(user, Editor, o, visiting);
      if direct != Ok(false) {
        return direct;
      }
      result := Evaluate(user, inherited, o, visiting);
    }

    method EvaluateKnowledgeBase(user: nat, relation: Relation, o: Ref, visiting: set<EvaluationKey>)
      returns (result: Result<bool, EvaluationError>)
      requires Valid() && user != 0 && o.userset.None? && o.id != 0 && o.kind.KnowledgeBaseType?
      requires Visited(visiting, o, relation)
      ensures result == Answer(tuples, user, relation, o)
      decreases Stratum(o.kind), Rank(relation), 2
    {
      hide Direct, InOrganization, SourceAccess, ParentAccess, Related, Lower, OfObject, ValidTuple, Agrees;
      match relation
      case Organization | Viewer | Editor => result := DirectLocked(user, relation, o, visiting);
      case UnscopedReader =>
        result := DirectLocked(user, Viewer, o, visiting);
        if result == Ok(false) {
          result := DirectLocked(user, Editor, o, visiting);
        }
      case CanView => result := IntersectOrganization(user, UnscopedReader, o, visiting);
      case CanEdit => result := IntersectOrganization(user, Editor, o, visiting);
      case _ => result := Err(InvalidRequest);
    }

    /** An inherited relation: nothing while restricted, else access through related objects. */
    method EvaluateInherited(
      user: nat, tupleRelation: Relation, edit: bool, o: Ref, visiting: set<EvaluationKey>)
      returns (result: Result<bool, EvaluationError>)
      requires Valid() && user != 0 && AtMost(visiting, Stratum(o.kind))
      requires Lower(tuples, tupleRelation, AccessRelation(edit), o)
      ensures result == Ok(!IsRestricted(tuples, user, o)
                           && Related(tuples, user, tupleRelation, AccessRelation(edit), o))
      decreases Stratum(o.kind), 0, 2
    {
      var restricted := DirectLocked(user, Restricted, o, visiting);
      if restricted != Ok(false) {
        return Ok(false);
      }
      result := MemberOfRelatedObjects(user, tupleRelation, AccessRelation(edit), o, visiting);
    }

    method EvaluateDocument(user: nat, relation: Relation, o: Ref, visiting: set<EvaluationKey>)
      returns (result: Result<bool, EvaluationError>)
      requires Valid() && user != 0 && o.userset.None? && o.id != 0 && o.kind.DocumentType?
      requires Visited(visiting, o, relation)
      ensures result == Answer(tuples, user, relation, o)
      decreases Stratum(o.kind), Rank(relation), 2
    {
      hide Direct, InOrganization, SourceAccess, ParentAccess, Related, Lower, OfObject, ValidTuple, Agrees;
      match relation
      case Organization | Parent | Viewer | Editor | Restricted => result := DirectLocked(user, relation, o, visiting);
      case InheritedReader | InheritedEditor =>
        ParentMeans(tuples, user, o, relation.InheritedEditor?);
        result := EvaluateInherited(user, Parent, relation.InheritedEditor?, o, visiting);
      case UnscopedReader =>
        result := DirectOrInherited(user, o, InheritedReader, visiting);
      case UnscopedEditor =>
        result := DirectOrInherited(user, o, InheritedEditor, visiting);
      case CanView => result := IntersectOrganization(user, UnscopedReader, o, visiting);
      case CanEdit => result := IntersectOrganization(user, UnscopedEditor, o, visiting);
      case _ => result := Err(InvalidRequest);
    }

    method EvaluateEntity(user: nat, relation: Relation, o: Ref, visiting: set<EvaluationKey>)
      returns (result: Result<bool, EvaluationError>)
      requires Valid() && user != 0 && o.userset.None? && o.id != 0 && o.kind.EntityType?
      requires Visited(visiting, o, relation)
      ensures result == Answer(tuples, user, relation, o)
      decreases Stratum(o.kind), Rank(relation), 2
    {
      hide Direct, InOrganization, SourceAccess, ParentAccess, Related, Lower, OfObject, ValidTuple, Agrees;
      match relation
      case Organization | SourceDocument | Viewer | Editor | Restricted =>
        result := DirectLocked(user, relation, o, visiting);
      case InheritedReader | InheritedEditor =>
        SourceMeans(tuples, user, o, relation.InheritedEditor?);
        result := EvaluateInherited(user, SourceDocument, relation.InheritedEditor?, o, visiting);
      case UnscopedReader => result := DirectOrInherited(user, o, InheritedReader, visiting);
      case UnscopedEditor => result := DirectOrInherited(user, o, InheritedEditor, visiting);
      case CanView => result := IntersectOrganization(user, UnscopedReader, o, visiting);
      case CanEdit => result := IntersectOrganization(user, UnscopedEditor, o, visiting);
      case _ => result := Err(InvalidRequest);
    }

    method EvaluateClaim(user: nat, relation: Relation, o: Ref, visiting: set<EvaluationKey>)
      returns (result: Result<bool, EvaluationError>)
      requires Valid() && user != 0 && o.userset.None? && o.id != 0 && o.kind.ClaimType?
      requires Visited(visiting, o, relation)
      ensures result == Answer(tuples, user, relation, o)
      decreases Stratum(o.kind), Rank(relation), 2
    {
      if o !in claimBindings {
        return Ok(false);
      }
      AgreesSingular(tuples, claimBindings);
      if !IsComplete(claimBindings[o]) {
        return Err(InvalidCardinality);
      }
      result := EvaluateCompleteClaim(user, relation, o, visiting);
    }

    method EvaluateCompleteClaim(user: nat, relation: Relation, o: Ref, visiting: set<EvaluationKey>)
      returns (result: Result<bool, EvaluationError>)
      requires Valid() && user != 0 && o.userset.None? && o.id != 0 && o.kind.ClaimType?
      requires OfObject(tuples, o) != {} && CompleteClaim(tuples, o)
      requires Visited(visiting, o, relation)
      ensures result == Answer(tuples, user, relation, o)
      decreases Stratum(o.kind), Rank(relation), 1
    {
      hide Direct, InOrganization, Granted, SourceAccess, EndpointAccess, IsRestricted, OfObject, CompleteClaim,
        ValidTuple, Agrees, KnowledgeBaseAccess, DocumentAccess, EntityAccess, Related, Lower, Bound;
      match relation
      case Organization | SourceDocument | Subject | Object | Viewer | Editor | Restricted =>
        result := DirectLocked(user, relation, o, visiting);
      case SourceReader => result := EvaluateReach(user, SourceDocument, false, o, visiting);
      case SourceEditor => result := EvaluateReach(user, SourceDocument, true, o, visiting);
      case SubjectReader => result := EvaluateReach(user, Subject, false, o, visiting);
      case SubjectEditor => result := EvaluateReach(user, Subject, true, o, visiting);
      case ObjectReader => result := EvaluateReach(user, Object, false, o, visiting);
      case ObjectEditor => result := EvaluateReach(user, Object, true, o, visiting);
      case EntitiesReader | EntitiesEditor | InheritableReader | InheritableEditor =>
        result := EvaluateBoth(user, relation, o, visiting);
      case InheritedReader | InheritedEditor =>
        result := EvaluateClaimInherited(user, relation, o, visiting);
      case UnscopedReader => result := DirectOrInherited(user, o, InheritedReader, visiting);
      case UnscopedEditor => result := DirectOrInherited(user, o, InheritedEditor, visiting);
      case CanView => result := IntersectOrganization(user, UnscopedReader, o, visiting);
      case CanEdit => result := IntersectOrganization(user, UnscopedEditor, o, visiting);
      case _ => result := Err(InvalidRequest);
    }

    /** The relations of a claim that intersect two others. */
    method EvaluateBoth(user: nat, relation: Relation, o: Ref, visiting: set<EvaluationKey>)
      returns (result: Result<bool, EvaluationError>)
      requires Valid() && user != 0 && o.userset.None? && o.id != 0 && o.kind.ClaimType?
      requires OfObject(tuples, o) != {} && CompleteClaim(tuples, o)
      requires relation.EntitiesReader? || relation.EntitiesEditor?
            || relation.InheritableReader? || relation.InheritableEditor?
      requires Visited(visiting, o, relation)
      ensures result == Ok(Holds(tuples, user, relation, o))
      decreases Stratum(o.kind), Rank(relation), 0
    {
      hide Direct, InOrganization, Granted, SourceAccess, EndpointAccess, OfObject, CompleteClaim, ValidTuple, Agrees;
      match relation
      case EntitiesReader => result := BothComputed(user, o, SubjectReader, ObjectReader, 1, visiting);
      case EntitiesEditor => result := BothComputed(user, o, SubjectEditor, ObjectEditor, 1, visiting);
      case InheritableReader => result := BothComputed(user, o, SourceReader, EntitiesReader, 2, visiting);
      case InheritableEditor => result := BothComputed(user, o, SourceEditor, EntitiesEditor, 2, visiting);
    }

    /** Access to the source document, the subject or the object of a claim. */
    method EvaluateReach(user: nat, tupleRelation: Relation, edit: bool, o: Ref, visiting: set<EvaluationKey>)
      returns (result: Result<bool, EvaluationError>)
      requires Valid() && user != 0 && o.kind.ClaimType? && IsSingular(tupleRelation)
      requires AtMost(visiting, Stratum(o.kind))
      ensures result == Ok(if tupleRelation.SourceDocument? then SourceAccess(tuples, user, o, edit)
                           else EndpointAccess(tuples, user, o, tupleRelation, edit))
      decreases Stratum(o.kind), 0, 1
    {
      if tupleRelation.SourceDocument? {
        SourceMeans(tuples, user, o, edit);
      } else {
        EndpointMeans(tuples, user, o, tupleRelation, edit);
      }
      result := MemberOfRelatedObjects(user, tupleRelation, AccessRelation(edit), o, visiting);
    }

    method EvaluateClaimInherited(user: nat, relation: Relation, o: Ref, visiting: set<EvaluationKey>)
      returns (result: Result<bool, EvaluationError>)
      requires Valid() && user != 0 && o.userset.None? && o.id != 0 && o.kind.ClaimType?
      requires OfObject(tuples, o) != {} && CompleteClaim(tuples, o)
      requires relation.InheritedReader? || relation.InheritedEditor?
      requires Visited(visiting, o, relation)
      ensures result == Ok(InheritedAccess(tuples, user, o, relation.InheritedEditor?))
      decreases Stratum(o.kind), Rank(relation), 0
    {
      hide Direct, InOrganization, Granted, SourceAccess, EndpointAccess, OfObject, CompleteClaim, ValidTuple, Agrees;
      var restricted := DirectLocked(user, Restricted, o, visiting);
      if restricted != Ok(false) {
        return Ok(false);
      }
      var inheritable := if relation.InheritedReader? then InheritableReader else InheritableEditor;
      result := Evaluate(user, inheritable, o, visiting);
    }

    method BothComputed(
      user: nat, o: Ref, left: Relation, right: Relation, ghost bound: nat, visiting: set<EvaluationKey>)
      returns (result: Result<bool, EvaluationError>)
      requires Valid() && user != 0 && o.userset.None? && o.id != 0
      requires Below(visiting, Stratum(o.kind), bound) && Rank(left) <= bound && Rank(right) <= bound
      requires Answer(tuples, user, left, o) == Ok(Holds(tuples, user, left, o))
      requires Answer(tuples, user, right, o) == Ok(Holds(tuples, user, right, o))
      ensures result == Ok(Holds(tuples, user, left, o) && Holds(tuples, user, right, o))
      decreases Stratum(o.kind), bound, 5
    {
      hide Holds, Answer, OfObject, Agrees, ValidTuple;
      var relations := [left, right];
      assert left in relations && right in relations;
      result := AllComputed(user, o, relations, bound, visiting);
    }

    /** One step of the evaluation. The guard against revisiting a request never fires. */
    method Evaluate(user: nat, relation: Relation, o: Ref, visiting: set<EvaluationKey>)
      returns (result: Result<bool, EvaluationError>)
      requires Valid() && user != 0 && o.userset.None? && o.id != 0
      requires Below(visiting, Stratum(o.kind), Rank(relation))
      ensures EvaluationKey(user, relation, o) !in visiting
      ensures result == Answer(tuples, user, relation, o)
      decreases Stratum(o.kind), Rank(relation), 3
    {
      var key := EvaluationKey(user, relation, o);
      if key in visiting {
        assert false;
        return Ok(false);
      }
      var entered := visiting + {key};
      match o.kind
      case GroupType | OrganizationType =>
        if !relation.Member? {
          return Err(InvalidRequest);
        }
        result := DirectLocked(user, relation, o, entered);
      case KnowledgeBaseType => result := EvaluateKnowledgeBase(user, relation, o, entered);
      case DocumentType => result := EvaluateDocument(user, relation, o, entered);
      case EntityType => result := EvaluateEntity(user, relation, o, entered);
      case ClaimType => result := EvaluateClaim(user, relation, o, entered);
      case _ => result := Err(InvalidRequest);
    }

    /** Answers one request of a concrete user about a concrete object. */
    method Check(user: nat, relation: Relation, o: Ref) returns (result: Result<bool, EvaluationError>)
      requires Valid()
      ensures result == if user == 0 || o.userset.Some? || o.id == 0 then Err(InvalidRequest)
                        else Answer(tuples, user, relation, o)
    {
      if user == 0 || o.userset.Some? || o.id == 0 {
        return Err(InvalidRequest);
      }
      result := Evaluate(user, relation, o, {});
    }
  }

  /** Validates a complete snapshot, counting claim bindings as it goes. */
  method ValidateTuples(snapshot: seq<Tuple>) returns (ok: bool)
    ensures ok <==> ValidSnapshot(set t | t in snapshot)
  {
    var unique: set<Tuple>, index: Index := {}, map[];
    ghost var wanted := set t | t in snapshot;
    for i := 0 to |snapshot|
      invariant unique == set t | t in snapshot[..i]
      invariant forall t | t in unique :: ValidTuple(t)
      invariant Agrees(unique, index)
    {
      var t := snapshot[i];
      assert t in wanted && snapshot[..i + 1] == snapshot[..i] + [t];
      if !ValidTuple(t) {
        return false;
      }
      if t !in unique {
        if t.object_.kind.ClaimType? {
          var state := if t.object_ in index then index[t.object_] else NoBindings;
          BeforeMatches(unique, index, t.object_);
          AddConflicts(unique, state, t);
          var added := AddBinding(state, t);
          if added.None? {
            ConflictSpoils(unique, wanted, t);
            return false;
          }
          AddAgrees(unique, index, t, added.value);
          index := index[t.object_ := added.value];
        } else {
          ElsewhereAgrees(unique, unique + {t}, index, t);
        }
        unique := unique + {t};
      }
    }
    assert snapshot[..|snapshot|] == snapshot;
    assert unique == wanted;
    AgreesSingular(unique, index);
    var incomplete := AnyIncomplete(index);
    ClaimsIndexed(unique, index);
    return !incomplete;
  }

  lemma ConflictSpoils(seen: set<Tuple>, wanted: set<Tuple>, t: Tuple)
    requires Conflicts(seen, t) && seen <= wanted && t in wanted
    ensures !Singular(wanted)
  {
    var s :| s in seen && s.object_ == t.object_ && s.relation == t.relation && s.user != t.user;
    assert s in wanted;
  }

  lemma ClaimsIndexed(tuples: set<Tuple>, index: Index)
    requires Agrees(tuples, index)
    ensures (forall o | o in index :: CompleteClaim(tuples, o))
       <==> (forall t | t in tuples :: t.object_.kind.ClaimType? ==> CompleteClaim(tuples, t.object_))
  {
    forall t | t in tuples && t.object_.kind.ClaimType? ensures t.object_ in index {
      assert t in OfObject(tuples, t.object_);
    }
    forall o | o in index ensures exists t :: t in tuples && t.object_ == o && o.kind.ClaimType? {
      var t :| t in OfObject(tuples, o);
    }
  }

  method AnyIncomplete(index: Index) returns (incomplete: bool)
    ensures incomplete <==> exists o | o in index :: !IsComplete(index[o])
  {
    var objects := index.Keys;
    while objects != {}
      invariant objects <= index.Keys
      invariant forall o | o in index && o !in objects :: IsComplete(index[o])
      decreases |objects|
    {
      var o :| o in objects;
      objects := objects - {o};
      if !IsComplete(index[o]) {
        return true;
      }
    }
    return false;
  }
}
