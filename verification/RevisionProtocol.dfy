/**
 The revision protocol as an interleaved system: any number of reconcilers,
 scope refreshers and readers share one publication point and one lifecycle.
 Every mutex-protected body is one atomic step. A participant may give up at any
 point, which aborts the reservation it holds.
 */
module RevisionProtocol {
  import opened Wrappers
  import opened Revisions

  type Actor = nat

  /** What a scope provider reports; `acl` is the watermark it carries. */
  datatype BoundScope = BoundScope(acl: nat, content: nat)

  datatype Phase =
    | Idle
    // A reconciler on its way from checking to publishing.
    | Checked(plan: Transition)
    | Reserved(plan: Transition, reservation: Reservation)
    | Closed(plan: Transition, reservation: Reservation)
    | Invalidated(plan: Transition, reservation: Reservation)
    | Written(plan: Transition, reservation: Reservation)
    | Committed(plan: Transition, reservation: Reservation)
    // A refresher, which holds the scope lock.
    | Refreshing(next: BoundScope)
    | RefreshRead(next: BoundScope, current: Revision)
    | RefreshReserved(next: BoundScope, reservation: Reservation)
    | RefreshPublished(next: BoundScope)
    // A reader entering, between begin and finish, and within finish.
    | Entering
    | Reading(v: Revision)
    | Leaving(v: Revision)
    | Finishing(v: Revision, remaining: set<ResourceID>)
  {
    predicate HoldsReservation() {
      Reserved? || Closed? || Invalidated? || Written? || Committed? || RefreshReserved?
    }

    predicate HoldsScopeLock() {
      Refreshing? || RefreshRead? || RefreshReserved? || RefreshPublished?
    }
  }

  datatype System = System(
    publication: Publication, gates: Gates, scope: BoundScope, phases: map<Actor, Phase>)
  {
    function PhaseOf(a: Actor): Phase {
      if a in phases then phases[a] else Idle
    }

    function With(a: Actor, phase: Phase): System {
      this.(phases := phases[a := phase])
    }
  }

  datatype Step =
    | Check(actor: Actor, plan: Transition)
    | Reserve(actor: Actor)
    | Close(actor: Actor)
    | Invalidate(actor: Actor)
    | Write(actor: Actor)
    | Commit(actor: Actor)
    | Publish(actor: Actor)
    | StartRefresh(actor: Actor, provided: BoundScope)
    | ReadCurrent(actor: Actor)
    | BindScope(actor: Actor)
    | VerifyScope(actor: Actor, provided: BoundScope)
    | Begin(actor: Actor)
    | Finish(actor: Actor, ids: set<ResourceID>)
    | CheckAllowed(actor: Actor, id: ResourceID)
    | Deliver(actor: Actor)
    | GiveUp(actor: Actor)

  /** The revision a refresher asks for; the epoch counter wraps around. */
  function Refreshed(current: Revision, next: BoundScope): Revision {
    current.(acl := next.acl, epoch := if current.epoch == MAX_EPOCH then 0 else current.epoch + 1)
  }

  function AfterReserve(phase: Phase, reservation: Reservation): Phase
    requires phase.Checked? || phase.RefreshRead?
  {
    if phase.Checked? then Reserved(phase.plan, reservation) else RefreshReserved(phase.next, reservation)
  }

  ghost predicate ReconcilerStep(s: System, step: Step, t: System) {
    var a, phase := step.actor, s.PhaseOf(step.actor);
    match step
    case Check(_, plan) =>
      && phase.Idle? && s.publication.current == plan.base && Advances(plan.target, plan.base)
      && CanonicalIDs(plan.retired) && CanonicalIDs(plan.granted)
      && t == s.With(a, Checked(plan))
    case Reserve(_) =>
      && (phase.Checked? || phase.RefreshRead?)
      && (var expected := if phase.Checked? then phase.plan.base else phase.current;
          var target := if phase.Checked? then phase.plan.target else Refreshed(phase.current, phase.next);
          && Reservable(s.publication, expected, target)
          && (var (publication, reservation) := Reserving(s.publication, expected, target);
              t == s.(publication := publication).With(a, AfterReserve(phase, reservation))))
    case Close(_) =>
      && phase.Reserved? && phase.plan.HasResources() && MayGate(s.gates, phase.plan)
      && Gated(s.gates, t.gates, phase.plan)
      && t == s.(gates := t.gates).With(a, Closed(phase.plan, phase.reservation))
    case Invalidate(_) =>
      && (phase.Closed? || (phase.Reserved? && !phase.plan.HasResources()))
      && t == s.With(a, Invalidated(phase.plan, phase.reservation))
    case Write(_) =>
      phase.Invalidated? && t == s.With(a, Written(phase.plan, phase.reservation))
    case Commit(_) =>
      && phase.Written?
      && (if phase.plan.HasResources()
          then MayCommit(s.gates, phase.plan) && CommitsTo(s.gates, t.gates, phase.plan)
          else t.gates == s.gates)
      && t == s.(gates := t.gates).With(a, Committed(phase.plan, phase.reservation))
    case Publish(_) =>
      && (phase.Committed? || phase.RefreshReserved?)
      && Publishable(s.publication, phase.reservation)
      && t == s.(publication := Publishing(s.publication, phase.reservation))
               .With(a, if phase.Committed? then Idle else RefreshPublished(phase.next))
    case GiveUp(_) =>
      && !phase.RefreshPublished?
      && t == s.(publication := if phase.HoldsReservation() then Aborting(s.publication, phase.reservation)
                                else s.publication)
               .With(a, Idle)
    case _ => false
  }

  ghost predicate ScopeUnlocked(s: System) {
    forall b :: !s.PhaseOf(b).HoldsScopeLock()
  }

  ghost predicate ScopeStep(s: System, step: Step, t: System) {
    var a, phase := step.actor, s.PhaseOf(step.actor);
    match step
    case StartRefresh(_, provided) =>
      phase.Idle? && provided != s.scope && ScopeUnlocked(s) && t == s.With(a, Refreshing(provided))
    case ReadCurrent(_) =>
      phase.Refreshing? && t == s.With(a, RefreshRead(phase.next, s.publication.current))
    case BindScope(_) =>
      phase.RefreshPublished? && t == s.(scope := phase.next).With(a, Idle)
    case VerifyScope(_, provided) =>
      && (phase.Idle? || phase.Reading?) && provided == s.scope && ScopeUnlocked(s)
      && t == s.With(a, if phase.Idle? then Entering else Leaving(phase.v))
    case _ => false
  }

  ghost predicate ReaderStep(s: System, step: Step, t: System) {
    var a, phase := step.actor, s.PhaseOf(step.actor);
    match step
    case Begin(_) => phase.Entering? && t == s.With(a, Reading(s.publication.current))
    // Empty resource IDs are dropped before the rest is checked.
    case Finish(_, ids) =>
      phase.Leaving? && s.publication.current == phase.v && t == s.With(a, Finishing(phase.v, ids - {0}))
    case CheckAllowed(_, id) =>
      && phase.Finishing? && id in phase.remaining && id > 0 && Allows(s.gates, phase.v, id)
      && t == s.With(a, Finishing(phase.v, phase.remaining - {id}))
    case Deliver(_) => phase.Finishing? && phase.remaining == {} && t == s.With(a, Idle)
    case _ => false
  }

  ghost predicate Next(s: System, step: Step, t: System) {
    ReconcilerStep(s, step, t) || ScopeStep(s, step, t) || ReaderStep(s, step, t)
  }

  predicate Initial(s: System) {
    && ValidRevision(s.publication.current) && s.publication.pending.None?
    && s.gates == map[] && s.phases == map[]
  }

  datatype Trace = Trace(states: seq<System>, steps: seq<Step>)

  ghost predicate IsRun(run: Trace) {
    && |run.states| == |run.steps| + 1
    && Initial(run.states[0])
    && forall i | 0 <= i < |run.steps| :: Next(run.states[i], run.steps[i], run.states[i + 1])
  }

  // The invariant.

  predicate PublicationOk(p: Publication) {
    && ValidRevision(p.current)
    && (p.pending.Some? ==>
          && p.pending.value.expected == p.current
          && Advances(p.pending.value.target, p.current)
          && p.pending.value.id <= p.nextReservation)
  }

  function ClosedGate(plan: Transition, id: ResourceID): Gate {
    Gate(plan.target, true, id in plan.granted)
  }

  /** A committed transition opens what it grants and keeps the rest closed. */
  function CommittedGate(plan: Transition, id: ResourceID): Gate {
    if id in plan.granted then Gate(plan.target, false, false) else Gate(plan.target, true, false)
  }

  predicate Shows(gates: Gates, store: nat, id: ResourceID, gate: Gate) {
    Key(store, id) in gates && gates[Key(store, id)] == gate
  }

  /** What the gates show for the resources of a plan at each phase of its reconciler. */
  ghost predicate GatesShow(gates: Gates, phase: Phase) {
    && (phase.Closed? || phase.Invalidated? || phase.Written? ==>
          forall id | phase.plan.Touches(id) ::
            Shows(gates, phase.plan.target.store, id, ClosedGate(phase.plan, id)))
    && (phase.Committed? ==>
          forall id | phase.plan.Touches(id) ::
            Shows(gates, phase.plan.target.store, id, CommittedGate(phase.plan, id)))
  }

  predicate HolderOk(s: System, phase: Phase) {
    phase.HoldsReservation() ==>
      && s.publication.pending == Some(phase.reservation)
      && (!phase.RefreshReserved? ==>
            phase.plan.base == phase.reservation.expected && phase.plan.target == phase.reservation.target)
  }

  ghost predicate OneHolder(s: System) {
    forall a, b :: s.PhaseOf(a).HoldsReservation() && s.PhaseOf(b).HoldsReservation() ==> a == b
  }

  ghost predicate Inv(s: System) {
    && PublicationOk(s.publication)
    && OneHolder(s)
    && forall a :: HolderOk(s, s.PhaseOf(a)) && GatesShow(s.gates, s.PhaseOf(a))
  }

  lemma PublicationKept(s: System, step: Step, t: System)
    requires Inv(s) && Next(s, step, t)
    ensures PublicationOk(t.publication)
  {
    assert HolderOk(s, s.PhaseOf(step.actor));
  }

  /** While another actor holds the reservation, a step does not touch it. */
  lemma OtherHolderKept(s: System, step: Step, t: System, b: Actor)
    requires Inv(s) && Next(s, step, t) && b != step.actor && s.PhaseOf(b).HoldsReservation()
    ensures t.publication.pending == s.publication.pending
  {
    hide Gated, MayGate, MayCommit, CommitsTo, GatesShow;
    assert HolderOk(s, s.PhaseOf(b)) && HolderOk(s, s.PhaseOf(step.actor));
  }

  lemma HolderKept(s: System, step: Step, t: System, b: Actor)
    requires Inv(s) && Next(s, step, t)
    ensures HolderOk(t, t.PhaseOf(b))
  {
    hide Gated, MayGate, MayCommit, CommitsTo, GatesShow, OneHolder;
    var a := step.actor;
    assert HolderOk(s, s.PhaseOf(b)) && HolderOk(s, s.PhaseOf(a));
    assert b != a ==> t.PhaseOf(b) == s.PhaseOf(b);
    if b != a && s.PhaseOf(b).HoldsReservation() {
      OtherHolderKept(s, step, t, b);
    }
  }

  /** Only the holder of the reservation touches the gates, so no other plan's gates move. */
  lemma GatesKept(s: System, step: Step, t: System, b: Actor)
    requires Inv(s) && Next(s, step, t)
    ensures GatesShow(t.gates, t.PhaseOf(b))
  {
    hide PublicationOk;
    var a := step.actor;
    assert GatesShow(s.gates, s.PhaseOf(b)) && GatesShow(s.gates, s.PhaseOf(a));
    assert b != a ==> t.PhaseOf(b) == s.PhaseOf(b);
  }

  lemma OneHolderKept(s: System, step: Step, t: System)
    requires Inv(s) && Next(s, step, t)
    ensures OneHolder(t)
  {
    hide Gated, MayGate, MayCommit, CommitsTo, GatesShow;
    forall b, c | t.PhaseOf(b).HoldsReservation() && t.PhaseOf(c).HoldsReservation() ensures b == c {
      assert HolderOk(s, s.PhaseOf(b)) && HolderOk(s, s.PhaseOf(c));
    }
  }

  lemma StepKeeps(s: System, step: Step, t: System)
    requires Inv(s) && Next(s, step, t)
    ensures Inv(t)
  {
    hide Next, PublicationOk, HolderOk, GatesShow, OneHolder;
    PublicationKept(s, step, t);
    OneHolderKept(s, step, t);
    forall b ensures HolderOk(t, t.PhaseOf(b)) && GatesShow(t.gates, t.PhaseOf(b)) {
      HolderKept(s, step, t, b);
      GatesKept(s, step, t, b);
    }
  }

  lemma {:induction false} RunKeeps(run: Trace, i: nat)
    requires IsRun(run) && i <= |run.steps|
    ensures Inv(run.states[i])
    decreases i
  {
    if i > 0 {
      hide Next;
      RunKeeps(run, i - 1);
      StepKeeps(run.states[i - 1], run.steps[i - 1], run.states[i]);
    }
  }

  /** Between prepare and commit nobody else can move the gates: commit is never refused. */
  lemma CommitNeverRefused(run: Trace, i: nat, a: Actor)
    requires IsRun(run) && i <= |run.steps|
    requires run.states[i].PhaseOf(a).Written?
    ensures MayCommit(run.states[i].gates, run.states[i].PhaseOf(a).plan)
  {
    RunKeeps(run, i);
    var s := run.states[i];
    var plan := s.PhaseOf(a).plan;
    assert GatesShow(s.gates, s.PhaseOf(a));
    forall id | plan.Touches(id) ensures MayCommitOne(s.gates, plan, id) {
      assert Shows(s.gates, plan.target.store, id, ClosedGate(plan, id));
    }
  }

  /** Nor can anybody else move the revision: a holder's publication is never refused. */
  lemma PublishNeverRefused(run: Trace, i: nat, a: Actor)
    requires IsRun(run) && i <= |run.steps|
    requires run.states[i].PhaseOf(a).HoldsReservation()
    ensures Publishable(run.states[i].publication, run.states[i].PhaseOf(a).reservation)
  {
    RunKeeps(run, i);
    assert HolderOk(run.states[i], run.states[i].PhaseOf(a));
  }

  /**
   When a reconciler publishes, its gates pair with the revision it publishes: what
   it granted is allowed at that revision, what it only retired at no revision.
   */
  lemma PublicationPairsWithGates(run: Trace, i: nat, a: Actor, id: ResourceID, v: Revision)
    requires IsRun(run) && i < |run.steps|
    requires run.steps[i] == Publish(a) && run.states[i].PhaseOf(a).Committed?
    requires run.states[i].PhaseOf(a).plan.Touches(id)
    ensures var plan, s := run.states[i].PhaseOf(a).plan, run.states[i + 1];
            && s.publication.current == plan.target
            && (id in plan.granted ==> Allows(s.gates, plan.target, id))
            && (id !in plan.granted && v.store == plan.target.store ==> !Allows(s.gates, v, id))
  {
    RunKeeps(run, i);
    var s := run.states[i];
    assert HolderOk(s, s.PhaseOf(a)) && GatesShow(s.gates, s.PhaseOf(a));
    assert Next(s, run.steps[i], run.states[i + 1]);
    var plan := s.PhaseOf(a).plan;
    assert Shows(s.gates, plan.target.store, id, CommittedGate(plan, id));
  }

  /** Reservation identifiers never repeat and at most one reservation is outstanding. */
  lemma {:induction false} ReservationsDiffer(run: Trace, i: nat, j: nat)
    requires IsRun(run) && i < j < |run.steps|
    requires run.steps[i].Reserve? && run.steps[j].Reserve?
    ensures run.states[i + 1].publication.pending.Some? && run.states[j + 1].publication.pending.Some?
    ensures run.states[i + 1].publication.pending.value.id != run.states[j + 1].publication.pending.value.id
    ensures run.states[j].publication.pending.None?
  {
    assert Next(run.states[i], run.steps[i], run.states[i + 1]);
    assert Next(run.states[j], run.steps[j], run.states[j + 1]);
    CounterGrows(run, i + 1, j);
  }

  lemma {:induction false} CounterGrows(run: Trace, i: nat, j: nat)
    requires IsRun(run) && i <= j <= |run.steps|
    ensures run.states[i].publication.nextReservation <= run.states[j].publication.nextReservation
    decreases j
  {
    if i < j {
      CounterGrows(run, i, j - 1);
      assert Next(run.states[j - 1], run.steps[j - 1], run.states[j]);
    }
  }

  // Epochs only grow.

  lemma StepAdvances(s: System, step: Step, t: System)
    requires Inv(s) && Next(s, step, t)
    ensures if step.Publish?
            then t.publication.current.epoch > s.publication.current.epoch
            else t.publication.current == s.publication.current
  {
    assert HolderOk(s, s.PhaseOf(step.actor));
  }

  lemma AdvancesAt(run: Trace, k: nat)
    requires IsRun(run) && k < |run.steps|
    ensures run.states[k].publication.current.epoch <= run.states[k + 1].publication.current.epoch
    ensures run.steps[k].Publish? ==>
              run.states[k].publication.current.epoch < run.states[k + 1].publication.current.epoch
  {
    hide Next;
    RunKeeps(run, k);
    StepAdvances(run.states[k], run.steps[k], run.states[k + 1]);
  }

  lemma {:induction false} EpochsGrow(run: Trace, i: nat, j: nat)
    requires IsRun(run) && i <= j <= |run.steps|
    ensures run.states[i].publication.current.epoch <= run.states[j].publication.current.epoch
    decreases j
  {
    if i < j {
      hide Next;
      EpochsGrow(run, i, j - 1);
      AdvancesAt(run, j - 1);
    }
  }

  /** Seeing the same revision twice means nothing was published in between. */
  lemma SameRevisionNoPublish(run: Trace, i: nat, k: nat, j: nat)
    requires IsRun(run) && i <= k < j <= |run.steps|
    requires run.states[i].publication.current == run.states[j].publication.current
    ensures !run.steps[k].Publish?
  {
    hide Next;
    EpochsGrow(run, i, k);
    AdvancesAt(run, k);
    EpochsGrow(run, k + 1, j);
  }

  // The gate.

  predicate GatedSince(gates: Gates, store: nat, id: ResourceID, epoch: nat) {
    Key(store, id) in gates && gates[Key(store, id)].revision.epoch >= epoch
  }

  lemma StepKeepsGate(s: System, step: Step, t: System, store: nat, id: ResourceID, epoch: nat)
    requires Next(s, step, t) && GatedSince(s.gates, store, id, epoch)
    ensures GatedSince(t.gates, store, id, epoch)
  {
    if step.Close? && s.PhaseOf(step.actor).plan.target.store == store && s.PhaseOf(step.actor).plan.Touches(id) {
      assert Conflict(s.gates, s.PhaseOf(step.actor).plan, id).None?;
    }
  }

  lemma {:induction false} GateStays(run: Trace, i: nat, j: nat, store: nat, id: ResourceID, epoch: nat)
    requires IsRun(run) && i <= j <= |run.steps|
    requires GatedSince(run.states[i].gates, store, id, epoch)
    ensures GatedSince(run.states[j].gates, store, id, epoch)
    decreases j
  {
    if i < j {
      hide Next;
      GateStays(run, i, j - 1, store, id, epoch);
      StepKeepsGate(run.states[j - 1], run.steps[j - 1], run.states[j], store, id, epoch);
    }
  }

  /** The plan whose gates a step closes, or whose grants it opens. */
  function PlanAt(run: Trace, i: nat): Transition
    requires i < |run.steps| && i < |run.states|
    requires var phase := run.states[i].PhaseOf(run.steps[i].actor); phase.Reserved? || phase.Written?
  {
    run.states[i].PhaseOf(run.steps[i].actor).plan
  }

  ghost predicate ClosesAt(run: Trace, i: nat, store: nat, id: ResourceID, epoch: nat)
    requires IsRun(run)
  {
    && i < |run.steps| && run.steps[i].Close?
    && (assert Next(run.states[i], run.steps[i], run.states[i + 1]);
        var plan := PlanAt(run, i);
        plan.target.store == store && plan.Touches(id) && plan.target.epoch == epoch)
  }

  /**
   Revocation gate. In every interleaving, once a prepare has gated a resource for
   a target epoch, the resource is denied for ever at every earlier revision.
   */
  lemma GateIsForever(run: Trace, i: nat, j: nat, id: ResourceID, epoch: nat, v: Revision)
    requires IsRun(run) && i < j <= |run.steps|
    requires ClosesAt(run, i, v.store, id, epoch) && v.epoch < epoch
    ensures !Allows(run.states[j].gates, v, id)
  {
    assert Next(run.states[i], run.steps[i], run.states[i + 1]);
    assert PlanAt(run, i).Touches(id);
    GateStays(run, i + 1, j, v.store, id, epoch);
  }

  // Retired resources.

  /** Closed, and not waiting for a grant of this epoch or an earlier one. */
  predicate RetiredSince(gates: Gates, store: nat, id: ResourceID, epoch: nat) {
    && GatedSince(gates, store, id, epoch)
    && gates[Key(store, id)].blocked
    && (gates[Key(store, id)].pendingGrant ==> gates[Key(store, id)].revision.epoch > epoch)
  }

  ghost predicate RetiresAt(run: Trace, i: nat, store: nat, id: ResourceID, epoch: nat)
    requires IsRun(run)
  {
    && ClosesAt(run, i, store, id, epoch)
    && (assert Next(run.states[i], run.steps[i], run.states[i + 1]);
        id !in PlanAt(run, i).granted)
  }

  ghost predicate GrantsAt(run: Trace, k: nat, store: nat, id: ResourceID, epoch: nat)
    requires IsRun(run)
  {
    && k < |run.steps| && run.steps[k].Commit?
    && (assert Next(run.states[k], run.steps[k], run.states[k + 1]);
        var plan := PlanAt(run, k);
        plan.target.store == store && id in plan.granted && plan.target.epoch > epoch)
  }

  lemma StepKeepsRetired(s: System, step: Step, t: System, store: nat, id: ResourceID, epoch: nat)
    requires Inv(s) && Next(s, step, t) && RetiredSince(s.gates, store, id, epoch)
    ensures RetiredSince(t.gates, store, id, epoch)
         || (step.Commit? && s.PhaseOf(step.actor).Written?
             && s.PhaseOf(step.actor).plan.target.store == store
             && id in s.PhaseOf(step.actor).plan.granted
             && s.PhaseOf(step.actor).plan.target.epoch > epoch)
  {
    var phase := s.PhaseOf(step.actor);
    if step.Close? && phase.plan.target.store == store && phase.plan.Touches(id) {
      assert Conflict(s.gates, phase.plan, id).None?;
    }
    if step.Commit? && phase.plan.target.store == store && id in phase.plan.granted {
      assert GatesShow(s.gates, phase) && phase.plan.Touches(id);
      assert Shows(s.gates, store, id, ClosedGate(phase.plan, id));
    }
  }

  lemma RetiredOneStep(run: Trace, k: nat, store: nat, id: ResourceID, epoch: nat)
    requires IsRun(run) && k < |run.steps|
    requires RetiredSince(run.states[k].gates, store, id, epoch)
    ensures RetiredSince(run.states[k + 1].gates, store, id, epoch) || GrantsAt(run, k, store, id, epoch)
  {
    hide Next;
    RunKeeps(run, k);
    StepKeepsRetired(run.states[k], run.steps[k], run.states[k + 1], store, id, epoch);
  }

  lemma {:induction false} RetiredStays(run: Trace, i: nat, j: nat, store: nat, id: ResourceID, epoch: nat)
    requires IsRun(run) && i <= j <= |run.steps|
    requires RetiredSince(run.states[i].gates, store, id, epoch)
    ensures RetiredSince(run.states[j].gates, store, id, epoch)
         || exists k :: i <= k < j && GrantsAt(run, k, store, id, epoch)
    decreases j
  {
    if i < j {
      hide Next;
      RetiredStays(run, i, j - 1, store, id, epoch);
      if RetiredSince(run.states[j - 1].gates, store, id, epoch) {
        RetiredOneStep(run, j - 1, store, id, epoch);
      }
    }
  }

  /**
   A retired resource stays denied at every revision, old or new, until a
   transition with a strictly newer target has granted it and committed.
   */
  lemma RetiredUntilRegranted(run: Trace, i: nat, j: nat, id: ResourceID, epoch: nat, v: Revision)
    requires IsRun(run) && i < j <= |run.steps|
    requires RetiresAt(run, i, v.store, id, epoch)
    ensures !Allows(run.states[j].gates, v, id) || exists k :: i < k < j && GrantsAt(run, k, v.store, id, epoch)
  {
    assert Next(run.states[i], run.steps[i], run.states[i + 1]);
    assert PlanAt(run, i).Touches(id);
    assert RetiredSince(run.states[i + 1].gates, v.store, id, epoch);
    RetiredStays(run, i + 1, j, v.store, id, epoch);
  }

  // Readers.

  /** Every transition that touched the resource before step k is no newer than v. */
  ghost predicate UntouchedBeyond(run: Trace, k: nat, v: Revision, id: ResourceID)
    requires IsRun(run)
  {
    forall m: nat, epoch: nat | m < k && ClosesAt(run, m, v.store, id, epoch) :: epoch <= v.epoch
  }

  ghost predicate CheckedAt(run: Trace, k: nat, a: Actor, v: Revision, id: ResourceID)
    requires IsRun(run)
  {
    k < |run.steps| && run.steps[k] == CheckAllowed(a, id) && Allows(run.states[k].gates, v, id)
  }

  lemma CheckedIsUntouched(run: Trace, k: nat, a: Actor, v: Revision, id: ResourceID)
    requires IsRun(run) && CheckedAt(run, k, a, v, id)
    ensures UntouchedBeyond(run, k, v, id)
  {
    forall m: nat, epoch: nat | m < k && ClosesAt(run, m, v.store, id, epoch) ensures epoch <= v.epoch {
      if v.epoch < epoch {
        GateIsForever(run, m, k, id, epoch, v);
      }
    }
  }

  ghost predicate FinishesOnce(run: Trace, a: Actor, j: nat, d: nat) {
    forall k | j < k < d && k < |run.steps| :: !(run.steps[k].Finish? && run.steps[k].actor == a)
  }

  /** Whatever no longer remains to be checked was checked since the finish began. */
  lemma {:induction false} AllChecked(run: Trace, a: Actor, v: Revision, ids: set<ResourceID>, j: nat, d: nat)
    requires IsRun(run) && j < d <= |run.steps|
    requires run.steps[j] == Finish(a, ids) && run.states[j].PhaseOf(a) == Leaving(v)
    requires FinishesOnce(run, a, j, d)
    requires run.states[d].PhaseOf(a).Finishing?
    ensures run.states[d].PhaseOf(a).v == v
    ensures forall id | id in ids - {0} - run.states[d].PhaseOf(a).remaining ::
              exists k :: j < k < d && CheckedAt(run, k, a, v, id)
    decreases d
  {
    assert Next(run.states[d - 1], run.steps[d - 1], run.states[d]);
    if d > j + 1 {
      assert run.states[d - 1].PhaseOf(a).Finishing?;
      AllChecked(run, a, v, ids, j, d - 1);
      forall id | id in ids - {0} - run.states[d].PhaseOf(a).remaining
        ensures exists k :: j < k < d && CheckedAt(run, k, a, v, id)
      {
        if id in run.states[d - 1].PhaseOf(a).remaining {
          assert run.steps[d - 1].actor == a && run.steps[d - 1].CheckAllowed?;
          assert CheckedAt(run, d - 1, a, v, id);
        } else {
          assert id in ids - {0} - run.states[d - 1].PhaseOf(a).remaining;
        }
      }
    }
  }

  /**
   Reader consistency. If begin read v and a finish that expects v delivers, no
   revision was published between the two reads of the current revision, and for
   every resource it names no transition with an epoch above v had been
   prepared before that resource was checked.
   */
  lemma ReaderConsistency(run: Trace, a: Actor, ids: set<ResourceID>, v: Revision, i: nat, j: nat, d: nat)
    requires IsRun(run) && i < j < d < |run.steps|
    requires run.steps[i] == Begin(a) && run.states[i].publication.current == v
    requires run.steps[j] == Finish(a, ids) && run.states[j].PhaseOf(a) == Leaving(v)
    requires run.steps[d] == Deliver(a) && FinishesOnce(run, a, j, d)
    ensures forall k | i <= k < j :: !run.steps[k].Publish?
    ensures forall id | id in ids && id != 0 ::
              exists k :: j < k < d && CheckedAt(run, k, a, v, id) && UntouchedBeyond(run, k, v, id)
  {
    assert Next(run.states[j], run.steps[j], run.states[j + 1]);
    forall k | i <= k < j ensures !run.steps[k].Publish? {
      SameRevisionNoPublish(run, i, k, j);
    }
    assert Next(run.states[d], run.steps[d], run.states[d + 1]);
    AllChecked(run, a, v, ids, j, d);
    forall id | id in ids && id != 0
      ensures exists k :: j < k < d && CheckedAt(run, k, a, v, id) && UntouchedBeyond(run, k, v, id)
    {
      assert id in ids - {0} - run.states[d].PhaseOf(a).remaining;
      var k :| j < k < d && CheckedAt(run, k, a, v, id);
      CheckedIsUntouched(run, k, a, v, id);
    }
  }
}
