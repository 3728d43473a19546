/**
 Authorization revisions: the compare-and-swap publication point with its single
 reservation, and the lifecycle that gates every touched resource by epoch.
 Parameters named `cancelled` say that a context check failed on the way.
 */
module Revisions {
  import opened Wrappers
  import opened Canonical

  type ResourceID = nat

  /** Epochs are 64-bit unsigned. */
  const MAX_EPOCH := 0xFFFF_FFFF_FFFF_FFFF

  datatype Revision = Revision(store: nat, model: nat, identity: nat, acl: nat, epoch: nat)

  datatype RevisionError =
    | InvalidRequest
    | RevisionSkew
    | RegrantRevision
    | RevisionPending
    | ContextFailure
    | InvalidationFailed
    | WriteFailed
    | Unavailable

  predicate ValidRevision(r: Revision) {
    r.store > 0 && r.model > 0 && r.identity > 0 && r.acl > 0 && 0 < r.epoch <= MAX_EPOCH
  }

  function AdvanceError(next: Revision, base: Revision): Option<RevisionError> {
    if !ValidRevision(base) || !ValidRevision(next) || next.store != base.store then Some(InvalidRequest)
    else if next.epoch <= base.epoch then Some(RegrantRevision)
    else None
  }

  predicate Advances(next: Revision, base: Revision) {
    AdvanceError(next, base).None?
  }

  // The publication point.

  datatype Reservation = Reservation(id: nat, expected: Revision, target: Revision)

  datatype Publication = Publication(current: Revision, pending: Option<Reservation>, nextReservation: nat)

  predicate Reservable(p: Publication, expected: Revision, next: Revision) {
    Advances(next, expected) && p.pending.None? && p.current == expected
  }

  function Reserving(p: Publication, expected: Revision, next: Revision): (Publication, Reservation) {
    var reservation := Reservation(p.nextReservation + 1, expected, next);
    (p.(pending := Some(reservation), nextReservation := p.nextReservation + 1), reservation)
  }

  predicate Publishable(p: Publication, reservation: Reservation) {
    p.pending == Some(reservation) && p.current == reservation.expected
    && Advances(reservation.target, reservation.expected)
  }

  function Publishing(p: Publication, reservation: Reservation): Publication {
    p.(current := reservation.target, pending := None)
  }

  function Aborting(p: Publication, reservation: Reservation): Publication {
    if p.pending == Some(reservation) then p.(pending := None) else p
  }

  class AtomicRevisionPublisher {
    var current: Revision
    var pending: Option<Reservation>
    var nextReservation: nat

    constructor (initial: Revision)
      requires ValidRevision(initial)
      ensures State() == Publication(initial, None, 0)
    {
      current, pending, nextReservation := initial, None, 0;
    }

    /** Rejects exactly the invalid initial revisions. */
    static method Create(initial: Revision) returns (result: Result<AtomicRevisionPublisher, RevisionError>)
      ensures result.Ok? <==> ValidRevision(initial)
      ensures result.Ok? ==> fresh(result.value) && result.value.State() == Publication(initial, None, 0)
      ensures result.Err? ==> result.error == InvalidRequest
    {
      if !ValidRevision(initial) {
        return Err(InvalidRequest);
      }
      var publisher := new AtomicRevisionPublisher(initial);
      return Ok(publisher);
    }

    function State(): Publication
      reads this
    {
      Publication(current, pending, nextReservation)
    }

    method Reserve(expected: Revision, next: Revision, cancelled: bool)
      returns (result: Result<Reservation, RevisionError>)
      modifies this
      ensures result.Ok? <==> !cancelled && Reservable(old(State()), expected, next)
      ensures result.Ok? ==> (State(), result.value) == Reserving(old(State()), expected, next)
      ensures result.Err? ==> State() == old(State())
    {
      var invalid := AdvanceError(next, expected);
      if invalid.Some? {
        return Err(invalid.value);
      }
      if cancelled {
        return Err(ContextFailure);
      }
      if pending.Some? {
        return Err(RevisionPending);
      }
      if current != expected {
        return Err(RevisionSkew);
      }
      nextReservation := nextReservation + 1;
      var reservation := Reservation(nextReservation, expected, next);
      pending := Some(reservation);
      return Ok(reservation);
    }

    method Publish(reservation: Reservation, cancelled: bool) returns (result: Result<(), RevisionError>)
      modifies this
      ensures result.Ok? <==> !cancelled && Publishable(old(State()), reservation)
      ensures State() == if result.Ok? then Publishing(old(State()), reservation) else old(State())
    {
      var invalid := AdvanceError(reservation.target, reservation.expected);
      if invalid.Some? {
        return Err(invalid.value);
      }
      if cancelled {
        return Err(ContextFailure);
      }
      if pending != Some(reservation) || current != reservation.expected {
        return Err(RevisionSkew);
      }
      current := reservation.target;
      pending := None;
      return Ok(());
    }

    method Abort(reservation: Reservation)
      modifies this
      ensures State() == Aborting(old(State()), reservation)
    {
      if pending == Some(reservation) {
        pending := None;
      }
    }
  }

  // The lifecycle gate.

  datatype Transition = Transition(
    base: Revision, target: Revision, retired: seq<ResourceID>, granted: seq<ResourceID>)
  {
    predicate Touches(id: ResourceID) {
      id in retired || id in granted
    }

    predicate HasResources() {
      retired != [] || granted != []
    }
  }

  predicate CanonicalIDs(ids: seq<ResourceID>) {
    StrictlySorted(ids) && forall id | id in ids :: id > 0
  }

  function TransitionError(t: Transition): Option<RevisionError> {
    if !Advances(t.target, t.base) then AdvanceError(t.target, t.base)
    else if !CanonicalIDs(t.retired) || !CanonicalIDs(t.granted) || !t.HasResources() then Some(InvalidRequest)
    else None
  }

  datatype Key = Key(store: nat, id: ResourceID)

  datatype Gate = Gate(revision: Revision, blocked: bool, pendingGrant: bool)

  type Gates = map<Key, Gate>

  /** Why a transition may not gate a resource. */
  function Conflict(gates: Gates, t: Transition, id: ResourceID): Option<RevisionError> {
    var key := Key(t.target.store, id);
    if key !in gates then None
    else
      var gate := gates[key];
      if gate.revision.epoch > t.target.epoch then Some(RevisionSkew)
      else if id in t.granted && gate.blocked && !gate.pendingGrant && t.target.epoch <= gate.revision.epoch then
        Some(RegrantRevision)
      else if && id in t.granted && !gate.blocked && gate.revision.epoch == t.target.epoch
              && t.base.epoch >= t.target.epoch then
        Some(RegrantRevision)
      else None
  }

  ghost predicate MayGate(gates: Gates, t: Transition) {
    forall id | t.Touches(id) :: Conflict(gates, t, id).None?
  }

  /** Gating closes every touched resource for the target revision, and nothing else. */
  ghost predicate Gated(before: Gates, after: Gates, t: Transition) {
    && (forall key | key in before :: key in after)
    && (forall key | key in after && key !in before :: key.store == t.target.store && t.Touches(key.id))
    && (forall id | t.Touches(id) ::
          && Key(t.target.store, id) in after
          && after[Key(t.target.store, id)] == Gate(t.target, true, id in t.granted))
    && (forall key | key in before && !(key.store == t.target.store && t.Touches(key.id)) :: after[key] == before[key])
  }

  predicate MayCommitOne(gates: Gates, t: Transition, id: ResourceID) {
    var key := Key(t.target.store, id);
    && key in gates
    && gates[key].revision == t.target
    && (gates[key].blocked || (id in t.granted && !gates[key].pendingGrant))
  }

  ghost predicate MayCommit(gates: Gates, t: Transition) {
    forall id | t.Touches(id) :: MayCommitOne(gates, t, id)
  }

  /** Committing opens every granted resource, and nothing else. */
  ghost predicate CommitsTo(before: Gates, after: Gates, t: Transition) {
    && after.Keys == before.Keys
    && (forall key | key in before ::
          after[key] == if key.store == t.target.store && key.id in t.granted
                        then before[key].(blocked := false, pendingGrant := false)
                        else before[key])
  }

  /** Whether a reader holding the revision may use evidence for the resource. */
  predicate Allows(gates: Gates, v: Revision, id: ResourceID) {
    var key := Key(v.store, id);
    key in gates ==>
      && !gates[key].blocked
      && gates[key].revision.epoch <= v.epoch
      && (gates[key].revision.epoch == v.epoch ==> gates[key].revision == v)
  }

  class EpochRevocationLifecycle {
    var gates: Gates

    constructor ()
      ensures gates == map[]
    {
      gates := map[];
    }

    /** Gates first; when the invalidator then fails the gate stays closed. */
    method Prepare(t: Transition, cancelled: bool, invalidated: bool) returns (result: Result<(), RevisionError>)
      modifies this
      ensures result.Ok? <==> TransitionError(t).None? && !cancelled && MayGate(old(gates), t) && invalidated
      ensures if TransitionError(t).None? && !cancelled && MayGate(old(gates), t)
              then Gated(old(gates), gates, t)
              else gates == old(gates)
    {
      var invalid := TransitionError(t);
      if invalid.Some? {
        return Err(invalid.value);
      }
      if cancelled {
        return Err(ContextFailure);
      }
      var touched := CanonicalUnion(t.retired, t.granted);
      for i := 0 to |touched|
        invariant forall j | 0 <= j < i :: Conflict(gates, t, touched[j]).None?
      {
        var conflict := Conflict(gates, t, touched[i]);
        if conflict.Some? {
          assert t.Touches(touched[i]);
          return Err(conflict.value);
        }
      }
      ghost var before := gates;
      assert MayGate(before, t);
      for i := 0 to |touched|
        invariant forall key | key in before :: key in gates
        invariant forall key | key in gates && key !in before :: key.store == t.target.store && t.Touches(key.id)
        invariant forall j | 0 <= j < i ::
                    && Key(t.target.store, touched[j]) in gates
                    && gates[Key(t.target.store, touched[j])] == Gate(t.target, true, touched[j] in t.granted)
        invariant forall key | key in before && !(key.store == t.target.store && t.Touches(key.id)) ::
                    gates[key] == before[key]
      {
        var id := touched[i];
        assert t.Touches(id);
        gates := gates[Key(t.target.store, id) := Gate(t.target, true, id in t.granted)];
      }
      if !invalidated {
        return Err(InvalidationFailed);
      }
      return Ok(());
    }

    method Commit(t: Transition, cancelled: bool) returns (result: Result<(), RevisionError>)
      modifies this
      ensures result.Ok? <==> TransitionError(t).None? && !cancelled && MayCommit(old(gates), t)
      ensures if result.Ok? then CommitsTo(old(gates), gates, t) else gates == old(gates)
    {
      var invalid := TransitionError(t);
      if invalid.Some? {
        return Err(invalid.value);
      }
      if cancelled {
        return Err(ContextFailure);
      }
      var touched := CanonicalUnion(t.retired, t.granted);
      for i := 0 to |touched|
        invariant forall j | 0 <= j < i :: MayCommitOne(gates, t, touched[j])
      {
        if !MayCommitOne(gates, t, touched[i]) {
          assert t.Touches(touched[i]);
          return Err(RevisionSkew);
        }
      }
      ghost var before := gates;
      assert MayCommit(before, t);
      for i := 0 to |t.granted|
        invariant gates.Keys == before.Keys
        invariant forall key | key in before ::
                    gates[key] == if key.store == t.target.store && key.id in t.granted[..i]
                                  then before[key].(blocked := false, pendingGrant := false)
                                  else before[key]
      {
        var id := t.granted[i];
        var key := Key(t.target.store, id);
        assert t.Touches(id) && MayCommitOne(before, t, id);
        assert t.granted[..i + 1] == t.granted[..i] + [id];
        gates := gates[key := gates[key].(blocked := false, pendingGrant := false)];
      }
      assert t.granted[..|t.granted|] == t.granted;
      return Ok(());
    }

    method Allow(v: Revision, id: ResourceID) returns (result: Result<bool, RevisionError>)
      ensures result == if !ValidRevision(v) || id == 0 then Err(InvalidRequest) else Ok(Allows(gates, v, id))
    {
      if !ValidRevision(v) || id == 0 {
        return Err(InvalidRequest);
      }
      var key := Key(v.store, id);
      if key !in gates {
        return Ok(true);
      }
      var gate := gates[key];
      if gate.blocked || v.epoch < gate.revision.epoch {
        return Ok(false);
      }
      if v.epoch == gate.revision.epoch && v != gate.revision {
        return Ok(false);
      }
      return Ok(true);
    }
  }
}
