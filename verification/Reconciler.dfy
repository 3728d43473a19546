/**
 The objects that drive the publication point and the lifecycle: the tuple
 reconciler and the permissioned revision state. A `Faults` value says which
 external calls fail; a run without interleaving is proved against the state
 before the call.
 */
module Reconciling {
  import opened Wrappers
  import opened Canonical
  import opened Ordering
  import opened Revisions
  import opened RevisionProtocol
  import opened Tuples
  import opened TupleRewrite
  import opened TupleStoring

  /** A write fails at some batch, the one with this index or the last. */
  datatype Faults = Faults(
    current: bool,
    reserve: bool,
    prepare: bool,
    invalidate: bool,
    write: Option<nat>,
    commit: bool,
    publish: bool)
  {
    predicate Lifecycle() {
      prepare || invalidate || write.Some? || commit
    }
  }

  datatype Outcome = ReconciliationSucceeded | ReconciliationNoop

  /** The delta of two claim tuple projections, and the transition that goes with it. */
  datatype TuplePlan = TuplePlan(
    current: Bindings, desired: Bindings, writes: Bindings, deletes: Bindings, transition: Transition)

  /** The canonical list of the resources that depend on these tuples. */
  predicate AreResourcesOf(ids: seq<ResourceID>, b: Bindings) {
    CanonicalIDs(ids) && (set id | id in ids) == b.Values
  }

  predicate IsDelta(plan: TuplePlan) {
    && ValidBindings(plan.current) && ValidBindings(plan.desired)
    && Rewritable(plan.current, plan.desired)
    && plan.writes == plan.desired - plan.current.Keys
    && plan.deletes == plan.current - plan.desired.Keys
  }

  /** Deleted tuples retire their resources, written ones grant theirs. */
  predicate ValidReconciliation(plan: TuplePlan) {
    var transition := plan.transition;
    && IsDelta(plan)
    && AreResourcesOf(transition.retired, plan.deletes) && AreResourcesOf(transition.granted, plan.writes)
    && ValidRevision(transition.base) && ValidRevision(transition.target)
    && if transition.target == transition.base then !transition.HasResources()
       else Advances(transition.target, transition.base)
            && (transition.HasResources() ==> transition.target.acl != transition.base.acl)
  }

  predicate Applied(before: set<Tuple>, plan: TuplePlan, t: Tuple) {
    t in plan.writes || (t in before && t !in plan.deletes)
  }

  /** The tuples of an object are as before, or wholly as planned. */
  ghost predicate ObjectWhole(before: set<Tuple>, after: set<Tuple>, plan: TuplePlan, o: Ref) {
    || (forall t: Tuple | t.object_ == o :: t in after <==> t in before)
    || (forall t: Tuple | t.object_ == o :: t in after <==> Applied(before, plan, t))
  }

  lemma NoResourcesNoChanges(plan: TuplePlan)
    requires AreResourcesOf(plan.transition.retired, plan.deletes)
    requires AreResourcesOf(plan.transition.granted, plan.writes)
    ensures plan.transition.HasResources() <==> plan.writes != map[] || plan.deletes != map[]
  {
    SomeValue(plan.transition.retired, plan.deletes);
    SomeValue(plan.transition.granted, plan.writes);
  }

  lemma PlanTransitions(plan: TuplePlan)
    requires ValidReconciliation(plan) && plan.transition.target != plan.transition.base
    ensures plan.transition.HasResources() ==> TransitionError(plan.transition).None?
  {
  }

  lemma SomeValue(ids: seq<ResourceID>, b: Bindings)
    requires AreResourcesOf(ids, b)
    ensures ids == [] <==> b == map[]
  {
    if b != map[] {
      var t :| t in b;
      assert b[t] in b.Values;
    }
    if ids != [] {
      assert ids[0] in ids && ids[0] in (set id | id in ids);
      assert ids[0] in b.Values;
      var t :| t in b && b[t] == ids[0];
    }
  }

  /** After some of its batches a delta has reached each object wholly or not at all. */
  lemma BatchesReachWhole(
    before: set<Tuple>, after: set<Tuple>, plan: TuplePlan, writes: seq<Tuple>, deletes: seq<Tuple>,
    batches: seq<Batch>, written: nat)
    requires Batches(writes, deletes, batches) && written <= |batches|
    requires forall t :: t in writes <==> t in plan.writes
    requires forall t :: t in deletes <==> t in plan.deletes
    requires after == ApplyBatches(before, batches[..written])
    ensures forall o :: ObjectWhole(before, after, plan, o)
    ensures written == |batches| ==> forall t :: t in after <==> Applied(before, plan, t)
  {
    forall t
      ensures t in after <==> if TouchedBy(batches, written, t.object_) then Applied(before, plan, t) else t in before
      ensures t in writes || t in deletes ==> TouchedBy(batches, |batches|, t.object_)
    {
      PrefixEffect(before, writes, deletes, batches, written, t);
      if t in writes || t in deletes {
        AllTouched(writes, deletes, batches, t);
      }
    }
    hide Batches, ApplyBatches, TouchedBy;
    forall o ensures ObjectWhole(before, after, plan, o) {
      assert TouchedBy(batches, written, o) || !TouchedBy(batches, written, o);
    }
  }

  lemma ChangesNeedBatches(writes: seq<Tuple>, deletes: seq<Tuple>, batches: seq<Batch>)
    requires Batches(writes, deletes, batches) && batches == []
    ensures writes == [] && deletes == []
  {
    assert |multiset(writes)| == 0 && |multiset(deletes)| == 0;
  }

  /** Gating and then committing, as one change of the gates. */
  ghost predicate Transitions(before: Gates, after: Gates, plan: Transition) {
    if plan.HasResources()
    then exists closed :: Gated(before, closed, plan) && CommitsTo(closed, after, plan)
    else after == before
  }

  /** What a run that gave up may have done to the gates. */
  ghost predicate Abandoned(before: Gates, after: Gates, plan: Transition) {
    after == before || (plan.HasResources() && (Gated(before, after, plan) || Transitions(before, after, plan)))
  }

  lemma GatedMayCommit(before: Gates, closed: Gates, plan: Transition)
    requires Gated(before, closed, plan)
    ensures MayCommit(closed, plan)
  {
    forall id | plan.Touches(id) ensures MayCommitOne(closed, plan, id) {
    }
  }

  /** How tuples and objects compare as strings. */
  datatype TupleOrder = TupleOrder(tuples: Tuple -> nat, objects: Ref -> nat)
  {
    ghost predicate Valid() {
      Injective(tuples) && Injective(objects)
    }
  }

  class TupleReconciler {
    const revisions: AtomicRevisionPublisher
    const lifecycle: EpochRevocationLifecycle
    const writer: TupleStore

    constructor (revisions: AtomicRevisionPublisher, lifecycle: EpochRevocationLifecycle, writer: TupleStore)
      ensures this.revisions == revisions && this.lifecycle == lifecycle && this.writer == writer
    {
      this.revisions, this.lifecycle, this.writer := revisions, lifecycle, writer;
    }

    /** When reconciling alone goes through to publication. */
    ghost predicate Reconcilable(p: Publication, gates: Gates, plan: TuplePlan, faults: Faults) {
      var transition := plan.transition;
      && ValidReconciliation(plan) && !faults.current && p.current == transition.base
      && transition.target != transition.base && !faults.reserve && p.pending.None?
      && (transition.HasResources() ==> MayGate(gates, transition) && !faults.Lifecycle())
      && !faults.publish
    }

    method Reconcile(plan: TuplePlan, order: TupleOrder, faults: Faults) returns (result: Result<Outcome, RevisionError>)
      requires order.Valid()
      modifies revisions, lifecycle, writer
      ensures result == Ok(ReconciliationSucceeded) <==>
                Reconcilable(old(revisions.State()), old(lifecycle.gates), plan, faults)
      ensures result == Ok(ReconciliationSucceeded) ==>
                && revisions.State() == old(revisions.State()).(current := plan.transition.target,
                     nextReservation := old(revisions.nextReservation) + 1)
                && Transitions(old(lifecycle.gates), lifecycle.gates, plan.transition)
                && forall t :: t in writer.tuples <==> Applied(old(writer.tuples), plan, t)
      ensures result == Ok(ReconciliationNoop) <==>
                ValidReconciliation(plan) && !faults.current
                && plan.transition.target == plan.transition.base == old(revisions.current)
      ensures result == Ok(ReconciliationNoop) ==>
                && revisions.State() == old(revisions.State()) && lifecycle.gates == old(lifecycle.gates)
                && writer.tuples == old(writer.tuples)
      ensures result.Err? ==>
                && revisions.current == old(revisions.current) && revisions.pending == old(revisions.pending)
                && old(revisions.nextReservation) <= revisions.nextReservation <= old(revisions.nextReservation) + 1
                && Abandoned(old(lifecycle.gates), lifecycle.gates, plan.transition)
                && forall o :: ObjectWhole(old(writer.tuples), writer.tuples, plan, o)
    {
      var transition := plan.transition;
      if !ValidReconciliation(plan) {
        return Err(InvalidRequest);
      }
      if faults.current {
        return Err(ContextFailure);
      }
      if revisions.current != transition.base {
        return Err(RevisionSkew);
      }
      if transition.target == transition.base {
        return Ok(ReconciliationNoop);
      }
      var reserved := revisions.Reserve(transition.base, transition.target, faults.reserve);
      if reserved.Err? {
        return Err(reserved.error);
      }
      var moved := MoveGates(plan, order, faults);
      if moved.Err? {
        revisions.Abort(reserved.value);
        return Err(moved.error);
      }
      var published := revisions.Publish(reserved.value, faults.publish);
      if published.Err? {
        revisions.Abort(reserved.value);
        assert forall o :: ObjectWhole(old(writer.tuples), writer.tuples, plan, o);
        return Err(published.error);
      }
      return Ok(ReconciliationSucceeded);
    }

    /** Prepare, write, commit; nothing at all for a plan without resources. */
    method MoveGates(plan: TuplePlan, order: TupleOrder, faults: Faults) returns (result: Result<(), RevisionError>)
      requires ValidReconciliation(plan) && plan.transition.target != plan.transition.base && order.Valid()
      modifies lifecycle, writer
      ensures result.Ok? <==>
                (plan.transition.HasResources() ==>
                   MayGate(old(lifecycle.gates), plan.transition) && !faults.Lifecycle())
      ensures if result.Ok? then Transitions(old(lifecycle.gates), lifecycle.gates, plan.transition)
              else Abandoned(old(lifecycle.gates), lifecycle.gates, plan.transition)
      ensures result.Ok? ==> forall t :: t in writer.tuples <==> Applied(old(writer.tuples), plan, t)
      ensures forall o :: ObjectWhole(old(writer.tuples), writer.tuples, plan, o)
    {
      hide IsDelta, AreResourcesOf, Applied, ObjectWhole;
      var transition := plan.transition;
      NoResourcesNoChanges(plan);
      PlanTransitions(plan);
      if !transition.HasResources() {
        NothingApplied(writer.tuples, plan);
        return Ok(());
      }
      ghost var before, tuples := lifecycle.gates, writer.tuples;
      StillWhole(tuples, plan);
      var prepared := lifecycle.Prepare(transition, faults.prepare, !faults.invalidate);
      if prepared.Err? {
        return Err(prepared.error);
      }
      var ok := WriteTuples(plan, order, faults.write);
      if !ok {
        return Err(WriteFailed);
      }
      GatedMayCommit(before, lifecycle.gates, transition);
      var committed := lifecycle.Commit(transition, faults.commit);
      if committed.Err? {
        return Err(committed.error);
      }
      return Ok(());
    }

    /** The delta in canonical order, batch by batch; between projections none is oversized. */
    method WriteTuples(plan: TuplePlan, order: TupleOrder, fails: Option<nat>) returns (ok: bool)
      requires IsDelta(plan) && order.Valid()
      modifies writer
      ensures ok <==> fails.None? || (plan.writes == map[] && plan.deletes == map[])
      ensures ok ==> forall t :: t in writer.tuples <==> Applied(old(writer.tuples), plan, t)
      ensures forall o :: ObjectWhole(old(writer.tuples), writer.tuples, plan, o)
    {
      hide ValidBindings, Applied, ObjectWhole, Injective, Oversized;
      var writes := Ordering.Members(order.tuples, plan.writes.Keys);
      var deletes := Ordering.Members(order.tuples, plan.deletes.Keys);
      RankedDistinct(order.tuples, writes);
      RankedDistinct(order.tuples, deletes);
      DeltaNeverOversized(plan.current, plan.desired, writes, deletes);
      ghost var before := writer.tuples;
      ghost var batches, written;
      ok, batches, written := writer.ApplyTupleChanges(writes, deletes, order.objects, fails);
      BatchesReachWhole(before, writer.tuples, plan, writes, deletes, batches, written);
      EmptyLists(plan, writes, deletes, batches);
    }
  }

  lemma RankedDistinct(rank: Tuple -> nat, s: seq<Tuple>)
    requires Ranked(rank, s)
    ensures forall i, j | 0 <= i < j < |s| :: s[i] != s[j]
  {
    forall i, j | 0 <= i < j < |s| ensures s[i] != s[j] {
      assert rank(s[i]) < rank(s[j]);
    }
  }

  lemma EmptyLists(plan: TuplePlan, writes: seq<Tuple>, deletes: seq<Tuple>, batches: seq<Batch>)
    requires forall t :: t in writes <==> t in plan.writes
    requires forall t :: t in deletes <==> t in plan.deletes
    requires Batches(writes, deletes, batches)
    ensures batches == [] <==> plan.writes == map[] && plan.deletes == map[]
  {
    if batches == [] {
      ChangesNeedBatches(writes, deletes, batches);
    }
    if batches != [] {
      SomethingRequested(writes, deletes, batches);
    }
  }

  lemma SomethingRequested(writes: seq<Tuple>, deletes: seq<Tuple>, batches: seq<Batch>)
    requires Batches(writes, deletes, batches) && batches != []
    ensures (exists t :: t in writes) || exists t :: t in deletes
  {
    var b := batches[0];
    assert Fits(b);
    if b.writes != [] {
      BatchHasAll(writes, deletes, batches, 0, b.writes[0]);
    } else {
      BatchHasAll(writes, deletes, batches, 0, b.deletes[0]);
    }
  }

  lemma NothingApplied(tuples: set<Tuple>, plan: TuplePlan)
    requires plan.writes == map[] && plan.deletes == map[]
    ensures forall t :: t in tuples <==> Applied(tuples, plan, t)
    ensures forall o :: ObjectWhole(tuples, tuples, plan, o)
  {
  }

  lemma StillWhole(tuples: set<Tuple>, plan: TuplePlan)
    ensures forall o :: ObjectWhole(tuples, tuples, plan, o)
  {
  }

  /**
   What a reconciliation that published leaves behind. If the store held the current
   claim bindings it now holds the desired ones, and nothing else has changed.
   */
  lemma ReconciledIsDesired(before: set<Tuple>, after: set<Tuple>, plan: TuplePlan)
    requires IsDelta(plan) && BindingsIn(before) == plan.current.Keys
    requires forall t :: t in after <==> Applied(before, plan, t)
    ensures BindingsIn(after) == plan.desired.Keys
    ensures after - plan.desired.Keys == before - plan.current.Keys
  {
    hide ValidSnapshot;
    forall t | IsClaimBinding(t) ensures t in before <==> t in plan.current {
      assert t in BindingsIn(before) <==> t in plan.current.Keys;
    }
    forall t | t in plan.current || t in plan.desired ensures IsClaimBinding(t) {
    }
    forall t ensures t in BindingsIn(after) <==> t in plan.desired {
    }
  }

  lemma ResourcesGiven(ids: seq<ResourceID>, b: Bindings, r: ResourceID)
    requires AreResourcesOf(ids, b)
    ensures r in ids <==> exists t | t in b :: b[t] == r
  {
    assert r in ids <==> r in (set id | id in ids);
    if r in ids {
      assert r in b.Values;
      var t :| t in b && b[t] == r;
    }
    if t :| t in b && b[t] == r {
      assert b[t] in b.Values;
    }
  }

  /** Changed tuples move the store's revision on, with another watermark; unchanged ones may keep it. */
  lemma ChangesAdvance(plan: TuplePlan)
    requires ValidReconciliation(plan)
    ensures plan.current.Keys != plan.desired.Keys ==>
              var base, target := plan.transition.base, plan.transition.target;
              target.store == base.store && target.epoch > base.epoch && target.acl != base.acl
  {
    hide IsDelta, AreResourcesOf;
    NoResourcesNoChanges(plan);
    if plan.writes == map[] && plan.deletes == map[] {
      NoChangesSameKeys(plan);
    }
  }

  lemma NoChangesSameKeys(plan: TuplePlan)
    requires IsDelta(plan) && plan.writes == map[] && plan.deletes == map[]
    ensures plan.current.Keys == plan.desired.Keys
  {
    hide ValidBindings, Rewritable;
    forall t ensures t in plan.current.Keys <==> t in plan.desired.Keys {
      assert t !in plan.writes && t !in plan.deletes;
    }
  }

  /** Bound in the new projection by a tuple the old one lacks. */
  predicate BoundAnew(plan: TuplePlan, r: ResourceID) {
    exists t | t in plan.desired :: t !in plan.current && plan.desired[t] == r
  }

  /** Bound in the old projection, and no longer in the new one. */
  predicate Unbound(plan: TuplePlan, r: ResourceID) {
    && (exists t | t in plan.current :: plan.current[t] == r)
    && (forall t | t in plan.desired :: plan.desired[t] != r)
  }

  lemma TouchedBindings(plan: TuplePlan, r: ResourceID)
    requires ValidReconciliation(plan)
    ensures BoundAnew(plan, r) ==> r in plan.transition.granted
    ensures Unbound(plan, r) ==> r in plan.transition.retired && r !in plan.transition.granted
  {
    hide AreResourcesOf, ValidBindings;
    ResourcesGiven(plan.transition.granted, plan.writes, r);
    ResourcesGiven(plan.transition.retired, plan.deletes, r);
    if BoundAnew(plan, r) {
      var t :| t in plan.desired && t !in plan.current && plan.desired[t] == r;
      assert t in plan.writes;
    }
    if Unbound(plan, r) {
      var t :| t in plan.current && plan.current[t] == r;
      assert t in plan.deletes;
    }
  }

  lemma TransitionGates(before: Gates, after: Gates, t: Transition, r: ResourceID, v: Revision)
    requires Transitions(before, after, t) && t.Touches(r)
    ensures r in t.granted ==> Allows(after, t.target, r)
    ensures r !in t.granted && v.store == t.target.store ==> !Allows(after, v, r)
  {
    assert t.HasResources();
    var closed :| Gated(before, closed, t) && CommitsTo(closed, after, t);
    assert closed[Key(t.target.store, r)] == Gate(t.target, true, r in t.granted);
  }

  /** A resource bound anew may then be read at the target, one left without bindings at no revision. */
  lemma ReconciledAccess(before: Gates, after: Gates, plan: TuplePlan, r: ResourceID, v: Revision)
    requires ValidReconciliation(plan) && Transitions(before, after, plan.transition)
    ensures BoundAnew(plan, r) ==> Allows(after, plan.transition.target, r)
    ensures Unbound(plan, r) && v.store == plan.transition.target.store ==> !Allows(after, v, r)
  {
    hide ValidReconciliation, Transitions, Allows, BoundAnew, Unbound;
    TouchedBindings(plan, r);
    if plan.transition.Touches(r) {
      TransitionGates(before, after, plan.transition, r, v);
    }
  }

  /** The parts of an authorization context that name a revision. */
  datatype ContextRevision = ContextRevision(model: nat, identity: nat, acl: nat)

  predicate Names(c: ContextRevision, v: Revision) {
    c == ContextRevision(v.model, v.identity, v.acl)
  }

  class PermissionedRevisionState {
    const publisher: AtomicRevisionPublisher
    const lifecycle: EpochRevocationLifecycle
    var scope: BoundScope

    constructor (publisher: AtomicRevisionPublisher, lifecycle: EpochRevocationLifecycle, scope: BoundScope)
      ensures this.publisher == publisher && this.lifecycle == lifecycle && this.scope == scope
    {
      this.publisher, this.lifecycle, this.scope := publisher, lifecycle, scope;
    }

    /** Moves the revision and then the bound scope to what the provider reports. */
    method RefreshScope(provided: Option<BoundScope>, faults: Faults) returns (result: Result<(), RevisionError>)
      modifies this, publisher
      ensures result.Ok? <==>
                && provided.Some?
                && (provided.value == old(scope)
                    || (&& !faults.current && !faults.reserve && !faults.publish
                        && Reservable(old(publisher.State()), old(publisher.current),
                                      Refreshed(old(publisher.current), provided.value))))
      ensures result.Ok? ==> scope == provided.value
      ensures result.Ok? && scope == old(scope) ==> publisher.State() == old(publisher.State())
      ensures result.Ok? && scope != old(scope) ==>
                && publisher.current == Refreshed(old(publisher.current), provided.value)
                && publisher.current == old(publisher.current).(
                     acl := provided.value.acl, epoch := old(publisher.current.epoch) + 1)
                && publisher.pending.None?
                && publisher.nextReservation == old(publisher.nextReservation) + 1
      ensures result.Err? ==>
                && scope == old(scope)
                && publisher.current == old(publisher.current) && publisher.pending == old(publisher.pending)
                && old(publisher.nextReservation) <= publisher.nextReservation <= old(publisher.nextReservation) + 1
    {
      if provided.None? {
        return Err(Unavailable);
      }
      var next := provided.value;
      if next == scope {
        return Ok(());
      }
      if faults.current {
        return Err(Unavailable);
      }
      var current := publisher.current;
      var reserved := publisher.Reserve(current, Refreshed(current, next), faults.reserve);
      if reserved.Err? {
        return Err(Unavailable);
      }
      var published := publisher.Publish(reserved.value, faults.publish);
      if published.Err? {
        publisher.Abort(reserved.value);
        return Err(Unavailable);
      }
      scope := next;
      return Ok(());
    }

    method Begin(provided: Option<BoundScope>, authorization: ContextRevision, faults: Faults)
      returns (result: Result<Revision, RevisionError>)
      ensures result.Ok? <==> provided == Some(scope) && !faults.current && Names(authorization, publisher.current)
      ensures result.Ok? ==> result.value == publisher.current
    {
      if provided != Some(scope) {
        return Err(Unavailable);
      }
      var current := publisher.current;
      if faults.current || current.model != authorization.model || current.identity != authorization.identity
         || current.acl != authorization.acl {
        return Err(Unavailable);
      }
      return Ok(current);
    }

    /** Succeeds exactly when the revision is still current and allows every resource. */
    method Finish(provided: Option<BoundScope>, expected: Revision, ids: seq<ResourceID>, faults: Faults)
      returns (result: Result<(), RevisionError>)
      ensures result.Ok? <==>
                && provided == Some(scope) && !faults.current && publisher.current == expected
                && forall id | id in ids && id != 0 ::
                     ValidRevision(expected) && Allows(lifecycle.gates, expected, id)
    {
      if provided != Some(scope) {
        return Err(Unavailable);
      }
      if faults.current || publisher.current != expected {
        return Err(Unavailable);
      }
      var named: seq<ResourceID> := [];
      for i := 0 to |ids|
        invariant forall id :: id in named <==> id in ids[..i] && id != 0
      {
        assert ids[..i + 1] == ids[..i] + [ids[i]];
        if ids[i] != 0 {
          named := named + [ids[i]];
        }
      }
      assert ids[..|ids|] == ids;
      var canonical := CanonicalUnion(named, []);
      for i := 0 to |canonical|
        invariant forall j | 0 <= j < i ::
                    ValidRevision(expected) && Allows(lifecycle.gates, expected, canonical[j])
      {
        assert canonical[i] in ids && canonical[i] != 0;
        var allowed := lifecycle.Allow(expected, canonical[i]);
        if allowed != Ok(true) {
          return Err(Unavailable);
        }
      }
      assert forall id | id in ids && id != 0 :: id in canonical;
      return Ok(());
    }
  }
}
