/**
 Relationship tuples and the rules a tuple and a complete tuple snapshot obey.
 A reference is a type, an opaque id (zero is the wildcard) and, for a userset,
 a relation.
 */
module Tuples {
  import opened Wrappers

  datatype ObjectType =
    | UserType
    | GroupType
    | OrganizationType
    | KnowledgeBaseType
    | DocumentType
    | EntityType
    | ClaimType
    | OtherType(name: nat)

  datatype Relation =
    | Member
    | Organization
    | Parent
    | SourceDocument
    | Subject
    | Object
    | Viewer
    | Editor
    | Restricted
    | CanView
    | CanEdit
    | InheritedReader
    | InheritedEditor
    | UnscopedReader
    | UnscopedEditor
    | SourceReader
    | SourceEditor
    | SubjectReader
    | SubjectEditor
    | ObjectReader
    | ObjectEditor
    | EntitiesReader
    | EntitiesEditor
    | InheritableReader
    | InheritableEditor
    | OtherRelation(name: nat)

  datatype Ref = Ref(kind: ObjectType, id: nat, userset: Option<Relation>)
  {
    predicate IsDirect(k: ObjectType) {
      kind == k && id != 0 && userset.None?
    }

    predicate IsGroupMembers() {
      kind.GroupType? && id != 0 && userset == Some(Member)
    }

    predicate IsEveryone() {
      kind.UserType? && id == 0 && userset.None?
    }

    /** A user, or the members of a group. */
    predicate IsGrantee() {
      IsDirect(UserType) || IsGroupMembers()
    }
  }

  datatype Tuple = Tuple(user: Ref, relation: Relation, object_: Ref)

  predicate ValidShared(t: Tuple, sources: bool) {
    match t.relation
    case Organization => t.user.IsDirect(OrganizationType)
    case SourceDocument => sources && t.user.IsDirect(DocumentType)
    case Viewer | Editor => t.user.IsGrantee()
    case Restricted => t.user.IsEveryone()
    case _ => false
  }

  predicate ValidTuple(t: Tuple) {
    && t.object_.id != 0 && t.object_.userset.None?
    && match t.object_.kind
       case GroupType => t.relation.Member? && t.user.IsDirect(UserType)
       case OrganizationType => t.relation.Member? && t.user.IsGrantee()
       case KnowledgeBaseType =>
         && (t.relation.Organization? || t.relation.Viewer? || t.relation.Editor?)
         && ValidShared(t, false)
       case DocumentType =>
         if t.relation.Parent? then t.user.IsDirect(KnowledgeBaseType) else ValidShared(t, false)
       case EntityType => ValidShared(t, true)
       case ClaimType =>
         if t.relation.Subject? || t.relation.Object? then t.user.IsDirect(EntityType) else ValidShared(t, true)
       case _ => false
  }

  predicate IsSingular(relation: Relation) {
    relation.SourceDocument? || relation.Subject? || relation.Object?
  }

  /** No claim has two different bindings for one singular relation. */
  predicate Singular(tuples: set<Tuple>) {
    forall s, t | s in tuples && t in tuples ::
      s.object_ == t.object_ && s.object_.kind.ClaimType? && s.relation == t.relation && IsSingular(s.relation)
      ==> s.user == t.user
  }

  predicate Bound(tuples: set<Tuple>, claim: Ref, relation: Relation) {
    exists t | t in tuples :: t.object_ == claim && t.relation == relation
  }

  predicate CompleteClaim(tuples: set<Tuple>, claim: Ref) {
    Bound(tuples, claim, SourceDocument) && Bound(tuples, claim, Subject) && Bound(tuples, claim, Object)
  }

  /** Every tuple is valid and every claim has exactly one source, subject and object. */
  predicate ValidSnapshot(tuples: set<Tuple>) {
    && (forall t | t in tuples :: ValidTuple(t))
    && Singular(tuples)
    && (forall t | t in tuples :: t.object_.kind.ClaimType? ==> CompleteClaim(tuples, t.object_))
  }
}
