/**
 Who may view or edit what, read off the tuples: the organization boundary, grants made
 to a user or to a group, and inheritance from related objects the user may already see.
 */
module AuthorizationBounds {
  import opened Wrappers
  import opened Tuples
  import opened AuthorizationModel
  import opened LocalAuthorization

  // The tuples the model admits.

  predicate One(r: Ref, kind: ObjectType) {
    r.kind == kind && r.id != 0 && r.userset.None?
  }

  predicate UserOrGroup(r: Ref) {
    One(r, UserType) || (r.kind.GroupType? && r.id != 0 && r.userset == Some(Member))
  }

  /** Who may stand in a relation to an object, type by type. */
  predicate Admits(kind: ObjectType, relation: Relation, user: Ref) {
    match relation
    case Member => (kind.GroupType? && One(user, UserType)) || (kind.OrganizationType? && UserOrGroup(user))
    case Organization =>
      One(user, OrganizationType)
      && (kind.KnowledgeBaseType? || kind.DocumentType? || kind.EntityType? || kind.ClaimType?)
    case Parent => kind.DocumentType? && One(user, KnowledgeBaseType)
    case SourceDocument => (kind.EntityType? || kind.ClaimType?) && One(user, DocumentType)
    case Subject => kind.ClaimType? && One(user, EntityType)
    case Object => kind.ClaimType? && One(user, EntityType)
    case Viewer =>
      UserOrGroup(user) && (kind.KnowledgeBaseType? || kind.DocumentType? || kind.EntityType? || kind.ClaimType?)
    case Editor =>
      UserOrGroup(user) && (kind.KnowledgeBaseType? || kind.DocumentType? || kind.EntityType? || kind.ClaimType?)
    case Restricted =>
      user == Ref(UserType, 0, None) && (kind.DocumentType? || kind.EntityType? || kind.ClaimType?)
    case _ => false
  }

  /** The validator, written type by type, admits exactly what the model does, relation by relation. */
  lemma ValidExactly(t: Tuple)
    ensures ValidTuple(t) <==> One(t.object_, t.object_.kind) && Admits(t.object_.kind, t.relation, t.user)
  {
  }

  // Membership and grants.

  /** The relation is written for the user, or for a group the user is a member of. */
  predicate Named(tuples: set<Tuple>, user: nat, relation: Relation, o: Ref) {
    || Tuple(Ref(UserType, user, None), relation, o) in tuples
    || exists t | t in tuples ::
         && t.relation == relation && t.object_ == o
         && t.user.kind.GroupType? && t.user.userset == Some(Member)
         && Tuple(Ref(UserType, user, None), Member, Ref(GroupType, t.user.id, None)) in tuples
  }

  /** The object has an organization the user is a member of. */
  predicate BelongsTo(tuples: set<Tuple>, user: nat, o: Ref) {
    exists t | t in tuples ::
      t.relation.Organization? && t.object_ == o && Named(tuples, user, Member, t.user)
  }

  predicate HasGrant(tuples: set<Tuple>, user: nat, o: Ref, edit: bool) {
    Named(tuples, user, Editor, o) || (!edit && Named(tuples, user, Viewer, o))
  }

  function Question(edit: bool): Relation {
    if edit then CanEdit else CanView
  }

  /** Some object related in this way answers the same question with yes. */
  predicate Through(tuples: set<Tuple>, user: nat, relation: Relation, o: Ref, edit: bool) {
    exists t | t in tuples ::
      t.relation == relation && t.object_ == o && Answer(tuples, user, Question(edit), t.user) == Ok(true)
  }

  /** Documents follow their knowledge base, entities their document, claims all they are bound to. */
  predicate Inherits(tuples: set<Tuple>, user: nat, o: Ref, edit: bool) {
    && Tuple(Ref(UserType, 0, None), Restricted, o) !in tuples
    && match o.kind
       case DocumentType => Through(tuples, user, Parent, o, edit)
       case EntityType => Through(tuples, user, SourceDocument, o, edit)
       case ClaimType =>
         && Through(tuples, user, SourceDocument, o, edit)
         && Through(tuples, user, Subject, o, edit)
         && Through(tuples, user, Object, o, edit)
       case _ => false
  }

  // Where the model of relations comes to the same.

  lemma DirectIsNamed(tuples: set<Tuple>, user: nat, relation: Relation, o: Ref)
    requires forall t | t in tuples :: ValidTuple(t)
    requires relation.Member? || relation.Viewer? || relation.Editor?
    ensures Direct(tuples, user, relation, o) <==> Named(tuples, user, relation, o)
  {
    forall t | t in tuples && t.relation == relation
      ensures !t.user.IsEveryone()
      ensures t.user.IsGroupMembers() <==> t.user.kind.GroupType? && t.user.userset == Some(Member)
    {
      assert ValidTuple(t);
    }
    hide ValidTuple;
    if Named(tuples, user, relation, o) && Tuple(Ref(UserType, user, None), relation, o) !in tuples {
      var t :| && t in tuples && t.relation == relation && t.object_ == o
               && t.user.kind.GroupType? && t.user.userset == Some(Member)
               && Tuple(Ref(UserType, user, None), Member, Ref(GroupType, t.user.id, None)) in tuples;
      assert t.user.(userset := None) == Ref(GroupType, t.user.id, None);
    }
  }

  lemma GrantedIsGrant(tuples: set<Tuple>, user: nat, o: Ref, edit: bool)
    requires forall t | t in tuples :: ValidTuple(t)
    ensures Granted(tuples, user, o, edit) <==> HasGrant(tuples, user, o, edit)
    ensures InOrganization(tuples, user, o) <==> BelongsTo(tuples, user, o)
  {
    hide Direct, Named, ValidTuple;
    DirectIsNamed(tuples, user, Editor, o);
    DirectIsNamed(tuples, user, Viewer, o);
    forall t: Tuple ensures Direct(tuples, user, Member, t.user) <==> Named(tuples, user, Member, t.user) {
      DirectIsNamed(tuples, user, Member, t.user);
    }
  }

  lemma RestrictedIsWritten(tuples: set<Tuple>, user: nat, o: Ref)
    requires forall t | t in tuples :: ValidTuple(t)
    ensures IsRestricted(tuples, user, o) <==> Tuple(Ref(UserType, 0, None), Restricted, o) in tuples
  {
    if IsRestricted(tuples, user, o) {
      var t :| t in tuples && t.relation == Restricted && t.object_ == o;
      assert ValidTuple(t);
    }
    if Tuple(Ref(UserType, 0, None), Restricted, o) in tuples {
      assert Tuple(Ref(UserType, 0, None), Restricted, o).user.IsEveryone();
    }
  }

  lemma KnowledgeBaseAnswers(tuples: set<Tuple>, user: nat, o: Ref, edit: bool)
    requires o.kind.KnowledgeBaseType?
    ensures Answer(tuples, user, Question(edit), o) == Ok(true) <==> KnowledgeBaseAccess(tuples, user, o, edit)
  {
  }

  lemma QuestionIsAccess(tuples: set<Tuple>, user: nat, o: Ref, edit: bool)
    requires o.kind.DocumentType? || o.kind.EntityType? || o.kind.ClaimType?
    ensures Answer(tuples, user, Question(edit), o) == Ok(true)
       <==> Access(tuples, user, o, edit) && (o.kind.ClaimType? ==> CompleteClaim(tuples, o))
  {
    hide Access, Answer;
    AnswerIsAccess(tuples, user, o, edit);
  }

  lemma ParentsAnswer(tuples: set<Tuple>, user: nat, o: Ref, edit: bool)
    requires (forall t | t in tuples :: ValidTuple(t)) && o.kind.DocumentType?
    ensures ParentAccess(tuples, user, o, edit) <==> Through(tuples, user, Parent, o, edit)
  {
    forall t | t in tuples && t.relation.Parent? && t.object_ == o
      ensures Answer(tuples, user, Question(edit), t.user) == Ok(true) <==> KnowledgeBaseAccess(tuples, user, t.user, edit)
    {
      assert ValidTuple(t);
      KnowledgeBaseAnswers(tuples, user, t.user, edit);
    }
    hide ValidTuple, Answer, KnowledgeBaseAccess;
  }

  lemma SourcesAnswer(tuples: set<Tuple>, user: nat, o: Ref, edit: bool)
    requires forall t | t in tuples :: ValidTuple(t)
    ensures SourceAccess(tuples, user, o, edit) <==> Through(tuples, user, SourceDocument, o, edit)
  {
    hide Answer, DocumentAccess, CompleteClaim;
    forall t | t in tuples && t.relation.SourceDocument? && t.object_ == o
      ensures Answer(tuples, user, Question(edit), t.user) == Ok(true) <==> DocumentAccess(tuples, user, t.user, edit)
    {
      assert ValidTuple(t);
      QuestionIsAccess(tuples, user, t.user, edit);
    }
    hide ValidTuple;
  }

  lemma EndpointsAnswer(tuples: set<Tuple>, user: nat, o: Ref, relation: Relation, edit: bool)
    requires (forall t | t in tuples :: ValidTuple(t)) && o.kind.ClaimType? && (relation.Subject? || relation.Object?)
    ensures EndpointAccess(tuples, user, o, relation, edit) <==> Through(tuples, user, relation, o, edit)
  {
    hide Answer, EntityAccess, CompleteClaim;
    forall t | t in tuples && t.relation == relation && t.object_ == o
      ensures Answer(tuples, user, Question(edit), t.user) == Ok(true) <==> EntityAccess(tuples, user, t.user, edit)
    {
      assert ValidTuple(t);
      QuestionIsAccess(tuples, user, t.user, edit);
    }
    hide ValidTuple;
  }

  /**
   Exactly the members of an organization of the object may view or edit it: those with
   a grant, and where nothing restricts it those who may do so with what it belongs to.
   */
  lemma AnswersExactly(tuples: set<Tuple>, user: nat, o: Ref, edit: bool)
    requires forall t | t in tuples :: ValidTuple(t)
    requires o.kind.KnowledgeBaseType? || o.kind.DocumentType? || o.kind.EntityType? || o.kind.ClaimType?
    ensures Answer(tuples, user, Question(edit), o) == Ok(true) <==>
              && (o.kind.ClaimType? ==> CompleteClaim(tuples, o))
              && BelongsTo(tuples, user, o)
              && (HasGrant(tuples, user, o, edit) || Inherits(tuples, user, o, edit))
  {
    hide Answer, Granted, HasGrant, InOrganization, BelongsTo, IsRestricted, ParentAccess, SourceAccess, EndpointAccess,
      Through, CompleteClaim, ValidTuple;
    GrantedIsGrant(tuples, user, o, edit);
    RestrictedIsWritten(tuples, user, o);
    if o.kind.KnowledgeBaseType? {
      KnowledgeBaseAnswers(tuples, user, o, edit);
    } else {
      QuestionIsAccess(tuples, user, o, edit);
      SourcesAnswer(tuples, user, o, edit);
      if o.kind.DocumentType? {
        ParentsAnswer(tuples, user, o, edit);
      }
      if o.kind.ClaimType? {
        EndpointsAnswer(tuples, user, o, Subject, edit);
        EndpointsAnswer(tuples, user, o, Object, edit);
      }
    }
  }
}
