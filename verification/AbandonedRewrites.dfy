/**
 A run of the joint system that leaves a claim with two subjects behind an open gate:
 one reconciler writes the claim and gives up, another then introduces it differently,
 completes its delta, commits and publishes.
 */
module AbandonedRewrites {
  import opened Wrappers
  import opened Canonical
  import opened Tuples
  import opened TupleRewrite
  import opened TupleStoring
  import opened Revisions
  import opened RevisionProtocol
  import opened GatedRewrites

  // Extending a run.

  function Last(run: JointTrace): Joint
    requires run.states != []
  {
    run.states[|run.states| - 1]
  }

  lemma Extend(run: JointTrace, step: JointStep, next: Joint) returns (more: JointTrace)
    requires IsJointRun(run) && JointNext(Last(run), step, next)
    ensures IsJointRun(more) && Last(more) == next
    ensures more.states[0] == run.states[0] && more.steps == run.steps + [step]
  {
    hide JointNext;
    more := JointTrace(run.states + [next], run.steps + [step]);
    forall i | 0 <= i < |more.steps| ensures JointNext(more.states[i], more.steps[i], more.states[i + 1]) {
      if i < |run.steps| {
        assert more.states[i] == run.states[i] && more.states[i + 1] == run.states[i + 1];
      } else {
        assert more.states[i] == Last(run) && more.states[i + 1] == next;
      }
    }
  }

  /** A reconciler that may start, and the gates it will close. */
  ghost predicate MayStart(j: Joint, a: Actor, w: Rewrite, gates: Gates) {
    var t := w.transition;
    && j.system.PhaseOf(a).Idle? && j.system.publication.current == t.base && j.system.publication.pending.None?
    && ValidRewrite(w) && Advances(t.target, t.base) && CanonicalIDs(t.retired) && CanonicalIDs(t.granted)
    && t.HasResources() && MayGate(j.system.gates, t) && Gated(j.system.gates, gates, t)
  }

  function Reservations(j: Joint, w: Rewrite): (Publication, Reservation) {
    Reserving(j.system.publication, w.transition.base, w.transition.target)
  }

  /** Checked, reserved, gated and about to write. */
  function Begun(j: Joint, a: Actor, w: Rewrite, gates: Gates): Joint {
    var (publication, reservation) := Reservations(j, w);
    Joint(
      System(publication, gates, j.system.scope, j.system.phases[a := Invalidated(w.transition, reservation)]),
      j.tuples, j.rewrites[a := w], j.written[a := 0], j.found[a := j.tuples])
  }

  lemma Begins(run: JointTrace, a: Actor, w: Rewrite, gates: Gates) returns (more: JointTrace)
    requires IsJointRun(run) && MayStart(Last(run), a, w, gates)
    ensures IsJointRun(more) && Last(more) == Begun(Last(run), a, w, gates) && more.states[0] == run.states[0]
    ensures more.steps == run.steps + [Start(a, w), Protocol(Reserve(a)), Protocol(Close(a)), Protocol(Invalidate(a))]
  {
    hide JointNext, MayStart, Begun;
    var j1, j2, j3 := BeginningStates(Last(run), a, w, gates);
    more := Extend(run, Start(a, w), j1);
    more := Extend(more, Protocol(Reserve(a)), j2);
    more := Extend(more, Protocol(Close(a)), j3);
    more := Extend(more, Protocol(Invalidate(a)), Begun(Last(run), a, w, gates));
  }

  lemma BeginningStates(j: Joint, a: Actor, w: Rewrite, gates: Gates) returns (j1: Joint, j2: Joint, j3: Joint)
    requires MayStart(j, a, w, gates)
    ensures JointNext(j, Start(a, w), j1) && JointNext(j1, Protocol(Reserve(a)), j2)
    ensures JointNext(j2, Protocol(Close(a)), j3) && JointNext(j3, Protocol(Invalidate(a)), Begun(j, a, w, gates))
  {
    hide Next, JointNext, ValidRewrite, MayStart, MayGate, Gated;
    var s, t := j.system, w.transition;
    var (publication, reservation) := Reservations(j, w);
    var s1 := s.With(a, Checked(t));
    var s2 := s1.(publication := publication).With(a, Reserved(t, reservation));
    var s3 := s2.(gates := gates).With(a, Closed(t, reservation));
    var s4 := s3.With(a, Invalidated(t, reservation));
    StartsAndReserves(j, a, w, gates, s1, s2);
    ClosesAndInvalidates(j, a, w, gates, s2, s3, s4);
    j1 := j.(system := s1, rewrites := j.rewrites[a := w], written := j.written[a := 0]);
    j2, j3 := j1.(system := s2), j1.(system := s3);
    var j4 := j1.(system := s4, found := j.found[a := j.tuples]);
    BeginningSteps(j, a, w, j1, j2, j3, j4);
    assert s4.phases == s.phases[a := Invalidated(t, reservation)];
  }

  /** Steps of the protocol that leave tuples and progress alone. */
  lemma BeginningSteps(j: Joint, a: Actor, w: Rewrite, j1: Joint, j2: Joint, j3: Joint, j4: Joint)
    requires ValidRewrite(w) && Next(j.system, Check(a, w.transition), j1.system)
    requires Next(j1.system, Reserve(a), j2.system) && Next(j2.system, Close(a), j3.system)
    requires Next(j3.system, Invalidate(a), j4.system)
    requires j1 == j.(system := j1.system, rewrites := j.rewrites[a := w], written := j.written[a := 0])
    requires j2 == j1.(system := j2.system) && j3 == j1.(system := j3.system)
    requires j4 == j1.(system := j4.system, found := j.found[a := j.tuples])
    ensures JointNext(j, Start(a, w), j1) && JointNext(j1, Protocol(Reserve(a)), j2)
    ensures JointNext(j2, Protocol(Close(a)), j3) && JointNext(j3, Protocol(Invalidate(a)), j4)
  {
    hide Next, ValidRewrite;
  }

  lemma StartsAndReserves(j: Joint, a: Actor, w: Rewrite, gates: Gates, s1: System, s2: System)
    requires MayStart(j, a, w, gates)
    requires s1 == j.system.With(a, Checked(w.transition))
    requires var (publication, reservation) := Reservations(j, w);
             s2 == s1.(publication := publication).With(a, Reserved(w.transition, reservation))
    ensures ValidRewrite(w) && Next(j.system, Check(a, w.transition), s1) && Next(s1, Reserve(a), s2)
  {
    hide ValidRewrite, Gated, MayGate;
  }

  lemma ClosesAndInvalidates(j: Joint, a: Actor, w: Rewrite, gates: Gates, s2: System, s3: System, s4: System)
    requires MayStart(j, a, w, gates)
    requires var reservation := Reservations(j, w).1;
             && s2.PhaseOf(a) == Reserved(w.transition, reservation) && s2.gates == j.system.gates
             && s3 == s2.(gates := gates).With(a, Closed(w.transition, reservation))
             && s4 == s3.With(a, Invalidated(w.transition, reservation))
    ensures Next(s2, Close(a), s3) && Next(s3, Invalidate(a), s4)
  {
    hide ValidRewrite, Gated, MayGate;
  }

  function Wrote(j: Joint, a: Actor): Joint
    requires a in j.rewrites && a in j.written && j.written[a] < |j.rewrites[a].batches|
  {
    j.(tuples := ApplyBatch(j.tuples, NextBatch(j, a)), written := j.written[a := j.written[a] + 1])
  }

  function GaveUp(j: Joint, a: Actor): Joint
    requires j.system.PhaseOf(a).HoldsReservation()
  {
    j.(system := j.system.(publication := Aborting(j.system.publication, j.system.PhaseOf(a).reservation))
                         .With(a, Idle))
  }

  lemma GivesUp(run: JointTrace, a: Actor) returns (more: JointTrace)
    requires IsJointRun(run) && Last(run).system.PhaseOf(a).Invalidated?
    ensures IsJointRun(more) && Last(more) == GaveUp(Last(run), a)
    ensures more.states[0] == run.states[0] && more.steps == run.steps + [Protocol(GiveUp(a))]
  {
    more := Extend(run, Protocol(GiveUp(a)), GaveUp(Last(run), a));
  }

  /** Everything written: what is left is to commit and publish. */
  ghost predicate MayFinish(j: Joint, a: Actor, gates: Gates) {
    var phase := j.system.PhaseOf(a);
    && phase.Invalidated? && a in j.rewrites && a in j.written && j.written[a] == |j.rewrites[a].batches|
    && phase.plan.HasResources() && MayCommit(j.system.gates, phase.plan)
    && CommitsTo(j.system.gates, gates, phase.plan)
    && Publishable(j.system.publication, phase.reservation)
  }

  function Finished(j: Joint, a: Actor, gates: Gates): Joint
    requires j.system.PhaseOf(a).HoldsReservation()
  {
    j.(system := System(
         Publishing(j.system.publication, j.system.PhaseOf(a).reservation), gates, j.system.scope,
         j.system.phases[a := Idle]))
  }

  lemma Finishes(run: JointTrace, a: Actor, gates: Gates) returns (more: JointTrace)
    requires IsJointRun(run) && MayFinish(Last(run), a, gates)
    ensures IsJointRun(more) && Last(more) == Finished(Last(run), a, gates) && more.states[0] == run.states[0]
    ensures more.steps == run.steps + Completion(a)
  {
    var j := Last(run);
    var s, phase := j.system, j.system.PhaseOf(a);
    var s1 := s.With(a, Written(phase.plan, phase.reservation));
    var s2 := s1.(gates := gates).With(a, Committed(phase.plan, phase.reservation));
    var s3 := s2.(publication := Publishing(s.publication, phase.reservation)).With(a, Idle);
    LastSteps(j, a, gates, s1, s2, s3);
    hide Next, MayCommit, CommitsTo;
    more := Extend(run, Protocol(Write(a)), j.(system := s1));
    more := Extend(more, Protocol(Commit(a)), j.(system := s2));
    more := Extend(more, Protocol(Publish(a)), j.(system := s3));
    assert s3.phases == s.phases[a := Idle];
  }

  lemma LastSteps(j: Joint, a: Actor, gates: Gates, s1: System, s2: System, s3: System)
    requires MayFinish(j, a, gates)
    requires var s, phase := j.system, j.system.PhaseOf(a);
             && s1 == s.With(a, Written(phase.plan, phase.reservation))
             && s2 == s1.(gates := gates).With(a, Committed(phase.plan, phase.reservation))
             && s3 == s2.(publication := Publishing(s.publication, phase.reservation)).With(a, Idle)
    ensures Next(j.system, Write(a), s1) && Next(s1, Commit(a), s2) && Next(s2, Publish(a), s3)
  {
    hide MayCommit, CommitsTo;
  }

  // The two introductions of the claim.

  function At(epoch: nat): Revision {
    Revision(1, 1, 1, epoch, epoch)
  }

  function Operations(subject: nat): seq<Tuple> {
    [SourceTuple(), SubjectTuple(subject), ObjectTuple()]
  }

  /** From no claim at all to the claim about this entity, in one batch. */
  function Introduce(subject: nat, epoch: nat): Rewrite {
    Rewrite(
      Transition(At(1), At(epoch), [], [1]), map[], About(subject), Operations(subject), [],
      [Batch(Operations(subject), [])])
  }

  lemma OperationsAre(subject: nat)
    ensures forall t :: t in Operations(subject) <==> t in About(subject)
    ensures forall t | t in About(subject) :: About(subject)[t] == 1
    ensures forall i, j | 0 <= i < j < 3 :: Operations(subject)[i] != Operations(subject)[j]
    ensures forall t | t in Operations(subject) :: t.object_ == CLAIM
  {
  }

  lemma OneBatch(writes: seq<Tuple>)
    requires 0 < |writes| <= MAX_OPERATIONS
    ensures Batches(writes, [], [Batch(writes, [])])
  {
    var b := Batch(writes, []);
    assert [b][..0] == [];
    assert AllWrites([b]) == AllWrites([]) + multiset(writes);
    assert AllDeletes([b]) == AllDeletes([]) + multiset([]);
    assert TupleRewrite.Fits(b);
  }

  lemma IntroduceValid(subject: nat, epoch: nat)
    requires 0 < subject
    ensures ValidRewrite(Introduce(subject, epoch))
  {
    var w := Introduce(subject, epoch);
    AboutValid(subject);
    OperationsAre(subject);
    OneBatch(Operations(subject));
    assert SubjectTuple(subject) in About(subject);
    hide Batches, ValidBindings, About, Operations;
    assert Rewrites(w.current, w.desired, w.writes, w.deletes);
    forall id ensures id in w.transition.granted <==> exists t :: t in w.writes && w.desired[t] == id {
    }
  }

  function GateAt(epoch: nat, blocked: bool): Gates {
    map[Key(1, 1) := Gate(At(epoch), blocked, blocked)]
  }

  lemma GatesMove(before: Gates, subject: nat, epoch: nat)
    requires 1 < epoch <= 3 && (before == map[] || before == GateAt(epoch - 1, true))
    ensures var t := Introduce(subject, epoch).transition;
            && MayGate(before, t) && Gated(before, GateAt(epoch, true), t)
            && MayCommit(GateAt(epoch, true), t) && CommitsTo(GateAt(epoch, true), GateAt(epoch, false), t)
            && Advances(t.target, t.base) && CanonicalIDs(t.retired) && CanonicalIDs(t.granted) && t.HasResources()
  {
    var t := Introduce(subject, epoch).transition;
    assert forall id :: t.Touches(id) <==> id == 1;
  }

  function Nothing(scope: BoundScope): Joint {
    Joint(System(Publication(At(1), None, 0), map[], scope, map[]), {}, map[], map[], map[])
  }

  /** From the start of a reconciler to the write of its one batch. */
  function Attempt(a: Actor, w: Rewrite): seq<JointStep> {
    [Start(a, w), Protocol(Reserve(a)), Protocol(Close(a)), Protocol(Invalidate(a))] + [WriteBatch(a)]
  }

  /** What is left to do after it. */
  function Completion(a: Actor): seq<JointStep> {
    [Protocol(Write(a)), Protocol(Commit(a)), Protocol(Publish(a))]
  }

  /** The first actor gives up after its write, the second goes through. */
  function Steps(): seq<JointStep> {
    Attempt(1, Introduce(1, 2)) + [Protocol(GiveUp(1))] + Attempt(2, Introduce(2, 3)) + Completion(2)
  }

  /** Where a writer stands after its one batch. */
  ghost predicate HasWritten(j: Joint, a: Actor, before: Joint, subject: nat, epoch: nat) {
    var w := Introduce(subject, epoch);
    var reserved := Reservations(before, w);
    && j.system == System(reserved.0, GateAt(epoch, true), before.system.scope,
                          before.system.phases[a := Invalidated(w.transition, reserved.1)])
    && a in j.rewrites && j.rewrites[a] == w && a in j.written && j.written[a] == 1
    && SubjectTuple(subject) in j.tuples
    && forall t | t in before.tuples :: t in j.tuples
  }

  lemma WroteBatch(j: Joint, a: Actor, before: Joint, subject: nat, epoch: nat)
    requires j == Begun(before, a, Introduce(subject, epoch), GateAt(epoch, true))
    ensures Pending(j, a) && HasWritten(Wrote(j, a), a, before, subject, epoch)
  {
    assert NextBatch(j, a) == Batch(Operations(subject), []);
    assert SubjectTuple(subject) == Operations(subject)[1];
  }

  lemma WritesOnce(run: JointTrace, a: Actor, subject: nat, epoch: nat) returns (more: JointTrace)
    requires IsJointRun(run) && MayStart(Last(run), a, Introduce(subject, epoch), GateAt(epoch, true))
    ensures IsJointRun(more) && more.states[0] == run.states[0]
    ensures HasWritten(Last(more), a, Last(run), subject, epoch)
    ensures more.steps == run.steps + Attempt(a, Introduce(subject, epoch))
  {
    hide MayStart, HasWritten, Begun, Wrote, Introduce, JointNext, Pending;
    var begun := Begins(run, a, Introduce(subject, epoch), GateAt(epoch, true));
    WroteBatch(Last(begun), a, Last(run), subject, epoch);
    WritingIsStep(Last(begun), a);
    more := Extend(begun, WriteBatch(a), Wrote(Last(begun), a));
  }

  lemma WritingIsStep(j: Joint, a: Actor)
    requires Pending(j, a)
    ensures JointNext(j, WriteBatch(a), Wrote(j, a))
  {
  }

  lemma CanStart(j: Joint, a: Actor, subject: nat, epoch: nat)
    requires 0 < subject && 1 < epoch <= 3 && j.system.PhaseOf(a).Idle?
    requires j.system.publication.current == At(1) && j.system.publication.pending.None?
    requires j.system.gates == map[] || j.system.gates == GateAt(epoch - 1, true)
    ensures MayStart(j, a, Introduce(subject, epoch), GateAt(epoch, true))
  {
    IntroduceValid(subject, epoch);
    GatesMove(j.system.gates, subject, epoch);
    hide ValidRewrite, MayGate, Gated, Advances, CanonicalIDs;
    assert Introduce(subject, epoch).transition.base == At(1);
  }

  lemma FirstHalf(scope: BoundScope) returns (run: JointTrace)
    ensures IsJointRun(run) && run.states[0] == Nothing(scope)
    ensures run.steps == Attempt(1, Introduce(1, 2)) + [Protocol(GiveUp(1))]
    ensures var j := Last(run);
            && j.system.publication == Publication(At(1), None, 1) && j.system.gates == GateAt(2, true)
            && j.system.PhaseOf(2).Idle? && SubjectTuple(1) in j.tuples
  {
    hide MayStart, Introduce, GateAt, JointNext, HasWritten, GaveUp, Nothing, Attempt, Initial;
    var start := NothingRuns(scope);
    var wrote := WritesOnce(start, 1, 1, 2);
    AbandonedLeaves(Last(wrote), scope);
    run := GivesUp(wrote, 1);
  }

  lemma NothingRuns(scope: BoundScope) returns (run: JointTrace)
    ensures run == JointTrace([Nothing(scope)], []) && IsJointRun(run)
    ensures MayStart(Nothing(scope), 1, Introduce(1, 2), GateAt(2, true))
  {
    hide MayStart, Introduce, GateAt, JointNext;
    run := JointTrace([Nothing(scope)], []);
    CanStart(Nothing(scope), 1, 1, 2);
  }

  lemma AbandonedLeaves(j: Joint, scope: BoundScope)
    requires HasWritten(j, 1, Nothing(scope), 1, 2)
    ensures j.system.PhaseOf(1).Invalidated?
    ensures var k := GaveUp(j, 1);
            && k.system.publication == Publication(At(1), None, 1) && k.system.gates == GateAt(2, true)
            && k.system.PhaseOf(2).Idle? && SubjectTuple(1) in k.tuples
  {
  }

  lemma SecondHalf(first: JointTrace, scope: BoundScope) returns (run: JointTrace)
    requires IsJointRun(first) && first.states[0] == Nothing(scope)
    requires var j := Last(first);
             && j.system.publication == Publication(At(1), None, 1) && j.system.gates == GateAt(2, true)
             && j.system.PhaseOf(2).Idle? && SubjectTuple(1) in j.tuples
    ensures IsJointRun(run) && run.states[0] == Nothing(scope)
    ensures run.steps == first.steps + Attempt(2, Introduce(2, 3)) + Completion(2)
    ensures var j := Last(run);
            && j.system.publication.current == At(3) && j.system.gates == GateAt(3, false)
            && SubjectTuple(1) in j.tuples && SubjectTuple(2) in j.tuples
  {
    CanStart(Last(first), 2, 2, 3);
    hide MayStart, Introduce, GateAt, JointNext, HasWritten, Finished, MayFinish, Nothing, Attempt, Completion;
    var wrote := WritesOnce(first, 2, 2, 3);
    CanFinish(Last(wrote), Last(first));
    run := Finishes(wrote, 2, GateAt(3, false));
  }

  lemma CanFinish(j: Joint, before: Joint)
    requires HasWritten(j, 2, before, 2, 3) && before.system.publication == Publication(At(1), None, 1)
    ensures MayFinish(j, 2, GateAt(3, false))
    ensures var k := Finished(j, 2, GateAt(3, false));
            && k.system.publication.current == At(3) && k.system.gates == GateAt(3, false)
            && SubjectTuple(2) in k.tuples && forall t | t in before.tuples :: t in k.tuples
  {
    GatesMove(GateAt(2, true), 2, 3);
    hide MayCommit, CommitsTo, MayGate, Gated, About, Operations;
  }

  /**
   Both introductions are valid reconciliations of the published projection, every step
   is one the protocol allows, and in the end a reader at the published revision is
   allowed the resource of a claim that is stored with two subjects.
   */
  lemma OpenGateTwoSubjects(scope: BoundScope) returns (run: JointTrace)
    ensures IsJointRun(run) && run.states[0] == Nothing(scope) && run.steps == Steps()
    ensures var j := Last(run);
            && j.system.publication.current == At(3)
            && Allows(j.system.gates, j.system.publication.current, 1)
            && SubjectTuple(1) in j.tuples && SubjectTuple(2) in j.tuples && !Singular(j.tuples)
  {
    var first := FirstHalf(scope);
    hide JointNext, Nothing, Attempt, Completion;
    run := SecondHalf(first, scope);
    TwoSubjects(Last(run).tuples);
  }
}
