/**
 What readers may rely on: publication opens what is bound anew and leaves closed what
 lost its bindings, and nothing but a transition that touches a resource takes it away.
 */
module PublishedAccess {
  import opened Wrappers
  import opened Tuples
  import opened TupleRewrite
  import opened TupleStoring
  import opened Revisions
  import opened RevisionProtocol
  import opened GatedRewrites

  // Access follows bindings.

  /** The resource has a binding in the new projection that the old one lacks. */
  predicate BoundAnew(w: Rewrite, r: ResourceID) {
    exists t | t in w.desired :: w.desired[t] == r && t !in w.current
  }

  /** The resource had bindings, and has none any more. */
  predicate Unbound(w: Rewrite, r: ResourceID) {
    && (exists t | t in w.current :: w.current[t] == r)
    && (forall t | t in w.desired :: w.desired[t] != r)
  }

  lemma TransitionFollows(w: Rewrite, r: ResourceID)
    requires ValidRewrite(w)
    ensures BoundAnew(w, r) ==> r in w.transition.granted
    ensures Unbound(w, r) ==> w.transition.Touches(r) && r !in w.transition.granted
  {
    hide Batches, ValidBindings;
    if BoundAnew(w, r) {
      var t :| t in w.desired && w.desired[t] == r && t !in w.current;
      assert t in w.writes;
    }
    if Unbound(w, r) {
      var t :| t in w.current && w.current[t] == r;
      assert t in w.deletes;
    }
  }

  /** The gates a committed reconciler leaves, in any state of the protocol. */
  lemma CommittedGates(s: System, a: Actor, t: System, id: ResourceID, v: Revision)
    requires Inv(s) && s.PhaseOf(a).Committed? && Next(s, Publish(a), t) && s.PhaseOf(a).plan.Touches(id)
    ensures t.publication.current == s.PhaseOf(a).plan.target
    ensures var plan := s.PhaseOf(a).plan;
            && (id in plan.granted ==> Allows(t.gates, plan.target, id))
            && (id !in plan.granted && v.store == plan.target.store ==> !Allows(t.gates, v, id))
  {
    assert HolderOk(s, s.PhaseOf(a)) && GatesShow(s.gates, s.PhaseOf(a));
    var plan := s.PhaseOf(a).plan;
    assert Shows(s.gates, plan.target.store, id, CommittedGate(plan, id));
  }

  /**
   In every interleaving, once a rewrite is published a resource it bound anew may be
   read at the published revision, and one it left without bindings at no revision.
   */
  lemma PublishedFollowsBindings(run: JointTrace, k: nat, a: Actor, r: ResourceID, v: Revision)
    requires IsJointRun(run) && k < |run.steps| && run.steps[k] == Protocol(Publish(a))
    requires run.states[k].system.PhaseOf(a).Committed?
    ensures a in run.states[k].rewrites
    ensures var w, s := run.states[k].rewrites[a], run.states[k + 1].system;
            && (BoundAnew(w, r) ==>
                  s.publication.current == w.transition.target && Allows(s.gates, s.publication.current, r))
            && (Unbound(w, r) && v.store == w.transition.target.store ==> !Allows(s.gates, v, r))
  {
    hide Inv, ValidRewrite, Allows, Next, BoundAnew, Unbound;
    JointRunKeeps(run, k);
    var j, next := run.states[k], run.states[k + 1];
    assert JointNext(j, run.steps[k], next);
    assert WriterOk(j, a);
    TransitionFollows(j.rewrites[a], r);
    if j.system.PhaseOf(a).plan.Touches(r) {
      CommittedGates(j.system, a, next.system, r, v);
    }
  }

  // Access stays.

  /** The step closes the gate of the resource. */
  ghost predicate Closes(s: System, step: Step, store: nat, r: ResourceID) {
    && step.Close? && s.PhaseOf(step.actor).Reserved?
    && s.PhaseOf(step.actor).plan.target.store == store && s.PhaseOf(step.actor).plan.Touches(r)
  }

  lemma StepKeepsOpen(s: System, step: Step, t: System, v: Revision, r: ResourceID)
    requires Next(s, step, t) && !Closes(s, step, v.store, r) && Allows(s.gates, v, r)
    ensures Allows(t.gates, v, r)
  {
    hide MayGate, MayCommit;
  }

  /** Whoever may read a resource may go on until a transition that touches it closes its gate. */
  lemma {:induction false} AccessStays(run: Trace, i: nat, k: nat, v: Revision, r: ResourceID)
    requires IsRun(run) && i <= k <= |run.steps|
    requires forall n | i <= n < k :: !Closes(run.states[n], run.steps[n], v.store, r)
    requires Allows(run.states[i].gates, v, r)
    ensures Allows(run.states[k].gates, v, r)
    decreases k
  {
    hide Next, Allows, Closes;
    if i < k {
      AccessStays(run, i, k - 1, v, r);
      assert Next(run.states[k - 1], run.steps[k - 1], run.states[k]);
      StepKeepsOpen(run.states[k - 1], run.steps[k - 1], run.states[k], v, r);
    }
  }

  /** And so may every later revision of the store; what was never gated anyone may read. */
  lemma LaterRevisionsToo(gates: Gates, v: Revision, later: Revision, r: ResourceID)
    requires later.store == v.store && later.epoch > v.epoch && Allows(gates, v, r)
    ensures Allows(gates, later, r)
  {
  }

  /** A resource no transition of the store has touched is readable at every revision. */
  lemma NeverGated(run: Trace, k: nat, v: Revision, r: ResourceID)
    requires IsRun(run) && k <= |run.steps|
    requires forall n | 0 <= n < k :: !Closes(run.states[n], run.steps[n], v.store, r)
    ensures Allows(run.states[k].gates, v, r)
  {
    AccessStays(run, 0, k, v, r);
  }

  // Transitions get through.

  /** Only gates at its own or a later epoch can stand against a transition. */
  lemma NewerMayGate(gates: Gates, t: Transition)
    requires forall id | t.Touches(id) && Key(t.target.store, id) in gates ::
               gates[Key(t.target.store, id)].revision.epoch < t.target.epoch
    ensures MayGate(gates, t)
  {
  }

  /** A gate of a later epoch does, and so does a retirement at the epoch that would grant again. */
  lemma OlderMayNotGate(gates: Gates, t: Transition, id: ResourceID)
    requires t.Touches(id) && Key(t.target.store, id) in gates
    requires var gate := gates[Key(t.target.store, id)];
             || gate.revision.epoch > t.target.epoch
             || (gate.revision.epoch == t.target.epoch && id in t.granted && gate.blocked && !gate.pendingGrant)
    ensures !MayGate(gates, t)
  {
    assert Conflict(gates, t, id).Some?;
  }

  // A refreshed scope moves the revision on.

  /** The next epoch of the same store, model and identities, at the watermark of the new scope. */
  predicate Refreshes(before: Revision, scope: BoundScope, after: Revision) {
    && after.store == before.store && after.model == before.model && after.identity == before.identity
    && after.acl == scope.acl && after.epoch == before.epoch + 1
  }

  lemma RefreshedAdvances(before: Revision, scope: BoundScope)
    ensures Advances(Refreshed(before, scope), before)
       <==> ValidRevision(before) && scope.acl > 0 && before.epoch < MAX_EPOCH
    ensures Advances(Refreshed(before, scope), before) ==> Refreshes(before, scope, Refreshed(before, scope))
  {
  }

  predicate RefreshOk(s: System, a: Actor) {
    var phase := s.PhaseOf(a);
    phase.RefreshReserved? ==> Refreshes(phase.reservation.expected, phase.next, phase.reservation.target)
  }

  lemma StepKeepsRefresh(s: System, step: Step, t: System, a: Actor)
    requires Next(s, step, t) && RefreshOk(s, a)
    ensures RefreshOk(t, a)
  {
    hide MayGate, Gated, MayCommit, CommitsTo, Allows;
    if step.Reserve? && s.PhaseOf(step.actor).RefreshRead? {
      RefreshedAdvances(s.PhaseOf(step.actor).current, s.PhaseOf(step.actor).next);
    }
  }

  lemma {:induction false} RefreshKept(run: Trace, i: nat, a: Actor)
    requires IsRun(run) && i <= |run.steps|
    ensures RefreshOk(run.states[i], a)
    decreases i
  {
    hide Next;
    if i > 0 {
      RefreshKept(run, i - 1, a);
      assert Next(run.states[i - 1], run.steps[i - 1], run.states[i]);
      StepKeepsRefresh(run.states[i - 1], run.steps[i - 1], run.states[i], a);
    }
  }

  /** Whatever happens meanwhile, a refresher publishes exactly the revision its scope calls for. */
  lemma RefreshPublishes(run: Trace, i: nat, a: Actor)
    requires IsRun(run) && i < |run.steps|
    requires run.steps[i] == Publish(a) && run.states[i].PhaseOf(a).RefreshReserved?
    ensures Refreshes(run.states[i].publication.current, run.states[i].PhaseOf(a).next,
                      run.states[i + 1].publication.current)
  {
    RefreshKept(run, i, a);
    assert Next(run.states[i], run.steps[i], run.states[i + 1]);
  }
}
