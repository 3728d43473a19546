/**
 The relational authorization model, relation by relation and stratum by stratum,
 without recursion: what a user holds on an object in a set of tuples.
 */
module AuthorizationModel {
  import opened Wrappers
  import opened Tuples

  function Person(user: nat): Ref {
    Ref(UserType, user, None)
  }

  predicate InGroup(tuples: set<Tuple>, user: nat, group: Ref) {
    Tuple(Person(user), Member, group) in tuples
  }

  /** The user, everyone, or a group of the user is related to the object. */
  predicate Direct(tuples: set<Tuple>, user: nat, relation: Relation, o: Ref) {
    exists t | t in tuples ::
      && t.relation == relation && t.object_ == o
      && (t.user == Person(user) || t.user.IsEveryone()
          || (t.user.IsGroupMembers() && InGroup(tuples, user, t.user.(userset := None))))
  }

  predicate InOrganization(tuples: set<Tuple>, user: nat, o: Ref) {
    exists t | t in tuples :: t.relation.Organization? && t.object_ == o && Direct(tuples, user, Member, t.user)
  }

  /** Viewing and editing follow one pattern; `edit` selects the editing relations. */
  predicate Granted(tuples: set<Tuple>, user: nat, o: Ref, edit: bool) {
    Direct(tuples, user, Editor, o) || (!edit && Direct(tuples, user, Viewer, o))
  }

  predicate KnowledgeBaseAccess(tuples: set<Tuple>, user: nat, o: Ref, edit: bool) {
    InOrganization(tuples, user, o) && Granted(tuples, user, o, edit)
  }

  predicate IsRestricted(tuples: set<Tuple>, user: nat, o: Ref) {
    Direct(tuples, user, Restricted, o)
  }

  predicate ParentAccess(tuples: set<Tuple>, user: nat, o: Ref, edit: bool) {
    exists t | t in tuples :: t.relation.Parent? && t.object_ == o && KnowledgeBaseAccess(tuples, user, t.user, edit)
  }

  predicate DocumentAccess(tuples: set<Tuple>, user: nat, o: Ref, edit: bool) {
    && InOrganization(tuples, user, o)
    && (Granted(tuples, user, o, edit)
        || (!IsRestricted(tuples, user, o) && ParentAccess(tuples, user, o, edit)))
  }

  predicate SourceAccess(tuples: set<Tuple>, user: nat, o: Ref, edit: bool) {
    exists t | t in tuples ::
      t.relation.SourceDocument? && t.object_ == o && DocumentAccess(tuples, user, t.user, edit)
  }

  predicate EntityAccess(tuples: set<Tuple>, user: nat, o: Ref, edit: bool) {
    && InOrganization(tuples, user, o)
    && (Granted(tuples, user, o, edit)
        || (!IsRestricted(tuples, user, o) && SourceAccess(tuples, user, o, edit)))
  }

  predicate EndpointAccess(tuples: set<Tuple>, user: nat, o: Ref, relation: Relation, edit: bool) {
    exists t | t in tuples :: t.relation == relation && t.object_ == o && EntityAccess(tuples, user, t.user, edit)
  }

  predicate EntitiesAccess(tuples: set<Tuple>, user: nat, o: Ref, edit: bool) {
    EndpointAccess(tuples, user, o, Subject, edit) && EndpointAccess(tuples, user, o, Object, edit)
  }

  predicate ClaimAccess(tuples: set<Tuple>, user: nat, o: Ref, edit: bool) {
    && InOrganization(tuples, user, o)
    && (Granted(tuples, user, o, edit)
        || (&& !IsRestricted(tuples, user, o)
            && SourceAccess(tuples, user, o, edit)
            && EntitiesAccess(tuples, user, o, edit)))
  }

  /** Access on any object; the types without a viewing relation give none. */
  predicate Access(tuples: set<Tuple>, user: nat, o: Ref, edit: bool) {
    match o.kind
    case KnowledgeBaseType => KnowledgeBaseAccess(tuples, user, o, edit)
    case DocumentType => DocumentAccess(tuples, user, o, edit)
    case EntityType => EntityAccess(tuples, user, o, edit)
    case ClaimType => ClaimAccess(tuples, user, o, edit)
    case _ => false
  }

  // What follows from the model.

  lemma EditImpliesViewBelow(tuples: set<Tuple>, user: nat, o: Ref)
    ensures Granted(tuples, user, o, true) ==> Granted(tuples, user, o, false)
    ensures KnowledgeBaseAccess(tuples, user, o, true) ==> KnowledgeBaseAccess(tuples, user, o, false)
    ensures ParentAccess(tuples, user, o, true) ==> ParentAccess(tuples, user, o, false)
    ensures DocumentAccess(tuples, user, o, true) ==> DocumentAccess(tuples, user, o, false)
  {
    forall t | t in tuples && KnowledgeBaseAccess(tuples, user, t.user, true)
      ensures KnowledgeBaseAccess(tuples, user, t.user, false)
    {
    }
  }

  lemma EditImpliesViewSource(tuples: set<Tuple>, user: nat, o: Ref)
    ensures SourceAccess(tuples, user, o, true) ==> SourceAccess(tuples, user, o, false)
    ensures EntityAccess(tuples, user, o, true) ==> EntityAccess(tuples, user, o, false)
  {
    EditImpliesViewBelow(tuples, user, o);
    forall t | t in tuples && DocumentAccess(tuples, user, t.user, true)
      ensures DocumentAccess(tuples, user, t.user, false)
    {
      EditImpliesViewBelow(tuples, user, t.user);
    }
  }

  /** Whoever may edit may view, on every type. */
  lemma EditImpliesView(tuples: set<Tuple>, user: nat, o: Ref)
    requires Access(tuples, user, o, true)
    ensures Access(tuples, user, o, false)
  {
    EditImpliesViewBelow(tuples, user, o);
    EditImpliesViewSource(tuples, user, o);
    forall t | t in tuples && EntityAccess(tuples, user, t.user, true)
      ensures EntityAccess(tuples, user, t.user, false)
    {
      EditImpliesViewSource(tuples, user, t.user);
    }
  }

  /**
   A user without a grant on the claim itself who may view or edit it may view or
   edit its source document and both its entities.
   */
  lemma ClaimAccessReachesEndpoints(tuples: set<Tuple>, user: nat, t: Tuple, edit: bool)
    requires (forall u | u in tuples :: ValidTuple(u)) && Singular(tuples)
    requires t in tuples && t.object_.kind.ClaimType? && IsSingular(t.relation)
    requires Access(tuples, user, t.object_, edit) && !Granted(tuples, user, t.object_, edit)
    ensures Access(tuples, user, t.user, edit)
  {
    hide Direct, InOrganization, KnowledgeBaseAccess, ParentAccess, CompleteClaim;
    assert ValidTuple(t);
    if t.relation.SourceDocument? {
      assert SourceAccess(tuples, user, t.object_, edit);
      var s :| s in tuples && s.relation.SourceDocument? && s.object_ == t.object_
            && DocumentAccess(tuples, user, s.user, edit);
      assert s.user == t.user;
    } else {
      assert EndpointAccess(tuples, user, t.object_, t.relation, edit);
      var s :| s in tuples && s.relation == t.relation && s.object_ == t.object_
            && EntityAccess(tuples, user, s.user, edit);
      assert s.user == t.user;
    }
  }

  /** A restricted claim is accessible through a grant on itself only. */
  lemma RestrictedNeedsGrant(tuples: set<Tuple>, user: nat, o: Ref, edit: bool)
    requires Tuple(Ref(UserType, 0, None), Restricted, o) in tuples && !o.kind.KnowledgeBaseType?
    requires Access(tuples, user, o, edit)
    ensures Granted(tuples, user, o, edit)
  {
    assert Tuple(Ref(UserType, 0, None), Restricted, o).user.IsEveryone();
  }

  // More tuples give more access, unless they restrict.

  ghost predicate Extends(few: set<Tuple>, many: set<Tuple>) {
    few <= many && forall t | t in many && t !in few :: !t.relation.Restricted?
  }

  lemma GrantsGrow(few: set<Tuple>, many: set<Tuple>, user: nat, o: Ref, edit: bool)
    requires Extends(few, many)
    ensures InOrganization(few, user, o) ==> InOrganization(many, user, o)
    ensures Granted(few, user, o, edit) ==> Granted(many, user, o, edit)
    ensures KnowledgeBaseAccess(few, user, o, edit) ==> KnowledgeBaseAccess(many, user, o, edit)
  {
    forall relation, r: Ref | Direct(few, user, relation, r) ensures Direct(many, user, relation, r) {
    }
  }

  /** A restriction counts once: a group membership cannot add one. */
  lemma RestrictionStays(few: set<Tuple>, many: set<Tuple>, user: nat, o: Ref)
    requires Extends(few, many) && forall t | t in many :: ValidTuple(t)
    ensures IsRestricted(many, user, o) ==> IsRestricted(few, user, o)
  {
    if IsRestricted(many, user, o) {
      var t :| t in many && t.relation == Restricted && t.object_ == o;
      assert ValidTuple(t) && t in few;
    }
  }

  lemma DocumentsGrow(few: set<Tuple>, many: set<Tuple>, user: nat, o: Ref, edit: bool)
    requires Extends(few, many) && forall t | t in many :: ValidTuple(t)
    ensures DocumentAccess(few, user, o, edit) ==> DocumentAccess(many, user, o, edit)
  {
    hide Direct, InOrganization, Granted, KnowledgeBaseAccess, ValidTuple;
    GrantsGrow(few, many, user, o, edit);
    RestrictionStays(few, many, user, o);
    forall t | t in few && KnowledgeBaseAccess(few, user, t.user, edit)
      ensures KnowledgeBaseAccess(many, user, t.user, edit)
    {
      GrantsGrow(few, many, user, t.user, edit);
    }
  }

  lemma EntitiesGrow(few: set<Tuple>, many: set<Tuple>, user: nat, o: Ref, edit: bool)
    requires Extends(few, many) && forall t | t in many :: ValidTuple(t)
    ensures SourceAccess(few, user, o, edit) ==> SourceAccess(many, user, o, edit)
    ensures EntityAccess(few, user, o, edit) ==> EntityAccess(many, user, o, edit)
  {
    hide Direct, InOrganization, Granted, DocumentAccess, ValidTuple;
    GrantsGrow(few, many, user, o, edit);
    RestrictionStays(few, many, user, o);
    forall t | t in few && DocumentAccess(few, user, t.user, edit) ensures DocumentAccess(many, user, t.user, edit) {
      DocumentsGrow(few, many, user, t.user, edit);
    }
  }

  lemma EndpointsGrow(few: set<Tuple>, many: set<Tuple>, user: nat, o: Ref, relation: Relation, edit: bool)
    requires Extends(few, many) && forall t | t in many :: ValidTuple(t)
    ensures EndpointAccess(few, user, o, relation, edit) ==> EndpointAccess(many, user, o, relation, edit)
  {
    hide EntityAccess, ValidTuple;
    forall t | t in few && EntityAccess(few, user, t.user, edit) ensures EntityAccess(many, user, t.user, edit) {
      EntitiesGrow(few, many, user, t.user, edit);
    }
  }

  /** Writing tuples other than restrictions never takes access away, anywhere. */
  lemma AccessGrows(few: set<Tuple>, many: set<Tuple>, user: nat, o: Ref, edit: bool)
    requires Extends(few, many) && forall t | t in many :: ValidTuple(t)
    requires Access(few, user, o, edit)
    ensures Access(many, user, o, edit)
  {
    hide Direct, InOrganization, Granted, KnowledgeBaseAccess, DocumentAccess, EntityAccess, SourceAccess,
      EndpointAccess, IsRestricted, ValidTuple;
    GrantsGrow(few, many, user, o, edit);
    RestrictionStays(few, many, user, o);
    DocumentsGrow(few, many, user, o, edit);
    EntitiesGrow(few, many, user, o, edit);
    EndpointsGrow(few, many, user, o, Subject, edit);
    EndpointsGrow(few, many, user, o, Object, edit);
  }
}
