/**
 The revision protocol together with the tuple store. A reconciler writes its
 batches one by one between gating and committing, and may stop after any of them;
 readers run in between. What a gated reader can see of a claim is whole.
 */
module GatedRewrites {
  import opened Wrappers
  import opened Tuples
  import opened TupleRewrite
  import opened TupleStoring
  import opened Revisions
  import opened RevisionProtocol

  /** A reconciliation: its transition, and the delta of two projections in batches. */
  datatype Rewrite = Rewrite(
    transition: Transition, current: Bindings, desired: Bindings, writes: seq<Tuple>, deletes: seq<Tuple>,
    batches: seq<Batch>)
  {
    /** Either projection lets the resource depend on the claim object. */
    predicate Binds(o: Ref, r: ResourceID) {
      || (exists t | t in current :: t.object_ == o && current[t] == r)
      || (exists t | t in desired :: t.object_ == o && desired[t] == r)
    }
  }

  /** Retired are the resources of the deleted tuples, granted those of the written ones. */
  ghost predicate ValidRewrite(w: Rewrite) {
    && Rewrites(w.current, w.desired, w.writes, w.deletes)
    && Rewritable(w.current, w.desired)
    && Batches(w.writes, w.deletes, w.batches)
    && (forall id :: id in w.transition.retired <==> exists t :: t in w.deletes && w.current[t] == id)
    && (forall id :: id in w.transition.granted <==> exists t :: t in w.writes && w.desired[t] == id)
  }

  /** `found` remembers the store each writer started from. */
  datatype Joint = Joint(
    system: System, tuples: set<Tuple>, rewrites: map<Actor, Rewrite>, written: map<Actor, nat>,
    found: map<Actor, set<Tuple>>)

  datatype JointStep =
    | Start(actor: Actor, rewrite: Rewrite)
    | WriteBatch(actor: Actor)
    | Protocol(step: Step)

  /** The batch an actor is about to write. */
  ghost predicate Pending(j: Joint, a: Actor) {
    && j.system.PhaseOf(a).Invalidated?
    && a in j.rewrites && a in j.written && j.written[a] < |j.rewrites[a].batches|
  }

  function NextBatch(j: Joint, a: Actor): Batch
    requires a in j.rewrites && a in j.written && j.written[a] < |j.rewrites[a].batches|
  {
    j.rewrites[a].batches[j.written[a]]
  }

  ghost predicate JointNext(j: Joint, step: JointStep, k: Joint) {
    match step
    case Start(a, w) =>
      && ValidRewrite(w) && Next(j.system, Check(a, w.transition), k.system)
      && k == j.(system := k.system, rewrites := j.rewrites[a := w], written := j.written[a := 0])
    case WriteBatch(a) =>
      && Pending(j, a)
      && k == j.(tuples := ApplyBatch(j.tuples, NextBatch(j, a)), written := j.written[a := j.written[a] + 1])
    case Protocol(p) =>
      && !p.Check?
      && Next(j.system, p, k.system)
      && (p.Write? ==>
            p.actor in j.rewrites && p.actor in j.written && j.written[p.actor] == |j.rewrites[p.actor].batches|)
      && k == j.(system := k.system, found := if p.Invalidate? then j.found[p.actor := j.tuples] else j.found)
  }

  datatype JointTrace = JointTrace(states: seq<Joint>, steps: seq<JointStep>)

  ghost predicate IsJointRun(run: JointTrace) {
    && |run.states| == |run.steps| + 1
    && Initial(run.states[0].system)
    && forall i | 0 <= i < |run.steps| :: JointNext(run.states[i], run.steps[i], run.states[i + 1])
  }

  // The invariant.

  predicate HoldsPlan(phase: Phase) {
    phase.Checked? || phase.Reserved? || phase.Closed? || phase.Invalidated? || phase.Written? || phase.Committed?
  }

  predicate IsWriting(phase: Phase) {
    phase.Invalidated? || phase.Written? || phase.Committed?
  }

  /** The store holds exactly what the one writer found, with its batches so far applied. */
  ghost predicate WriterOk(j: Joint, b: Actor) {
    var phase := j.system.PhaseOf(b);
    HoldsPlan(phase) ==>
      && b in j.rewrites && b in j.written
      && ValidRewrite(j.rewrites[b]) && j.rewrites[b].transition == phase.plan
      && j.written[b] <= |j.rewrites[b].batches|
      && (!IsWriting(phase) ==> j.written[b] == 0)
      && (phase.Written? || phase.Committed? ==> j.written[b] == |j.rewrites[b].batches|)
      && (IsWriting(phase) ==>
            b in j.found && j.tuples == StoreAfter(j.found[b], j.rewrites[b].batches, j.written[b]))
  }

  ghost predicate JointInv(j: Joint) {
    Inv(j.system) && forall b :: WriterOk(j, b)
  }

  lemma WritersAreHolders(s: System, a: Actor, b: Actor)
    requires Inv(s) && IsWriting(s.PhaseOf(a)) && IsWriting(s.PhaseOf(b))
    ensures a == b
  {
    assert s.PhaseOf(a).HoldsReservation() && s.PhaseOf(b).HoldsReservation();
  }

  lemma BatchKeeps(j: Joint, a: Actor, k: Joint, b: Actor)
    requires JointInv(j) && JointNext(j, WriteBatch(a), k)
    ensures WriterOk(k, b)
  {
    hide Inv, ValidRewrite;
    assert WriterOk(j, b) && WriterOk(j, a);
    if b == a {
      var batches, n := j.rewrites[a].batches, j.written[a];
      assert batches[..n + 1][..n] == batches[..n];
    } else if IsWriting(j.system.PhaseOf(b)) {
      WritersAreHolders(j.system, a, b);
    }
  }

  /** A step of the protocol moves one actor, and starts a writer on the store as it is. */
  lemma ProtocolKeeps(j: Joint, step: Step, k: Joint, b: Actor)
    requires JointInv(j) && JointNext(j, Protocol(step), k)
    ensures WriterOk(k, b)
  {
    hide Inv, ValidRewrite, MayGate, Gated, MayCommit, CommitsTo, Rewrites, StoreAfter;
    assert WriterOk(j, b);
    var p, q := j.system.PhaseOf(b), k.system.PhaseOf(b);
    if b != step.actor {
      assert p == q;
    } else if step.Invalidate? {
      NothingWritten(j.tuples, j.rewrites[b].batches);
    }
  }

  lemma NothingWritten(store: set<Tuple>, batches: seq<Batch>)
    ensures StoreAfter(store, batches, 0) == store
  {
  }

  lemma StartKeeps(j: Joint, a: Actor, w: Rewrite, k: Joint, b: Actor)
    requires JointInv(j) && JointNext(j, Start(a, w), k)
    ensures WriterOk(k, b)
  {
    hide Inv, ValidRewrite, MayGate, Gated, MayCommit, CommitsTo, StoreAfter;
    assert WriterOk(j, b);
  }

  lemma JointStepKeeps(j: Joint, step: JointStep, k: Joint)
    requires JointInv(j) && JointNext(j, step, k)
    ensures JointInv(k)
  {
    hide Inv, WriterOk, Next, ValidRewrite;
    match step {
      case Start(a, w) => StepKeeps(j.system, Check(a, w.transition), k.system);
      case WriteBatch(_) =>
      case Protocol(p) => StepKeeps(j.system, p, k.system);
    }
    forall b ensures WriterOk(k, b) {
      match step {
        case Start(a, w) => StartKeeps(j, a, w, k, b);
        case WriteBatch(a) => BatchKeeps(j, a, k, b);
        case Protocol(p) => ProtocolKeeps(j, p, k, b);
      }
    }
  }

  lemma JointStarts(j: Joint)
    requires Initial(j.system)
    ensures JointInv(j)
  {
  }

  lemma {:induction false} JointRunKeeps(run: JointTrace, i: nat)
    requires IsJointRun(run) && i <= |run.steps|
    ensures JointInv(run.states[i])
    decreases i
  {
    hide JointInv, JointNext;
    if i == 0 {
      JointStarts(run.states[0]);
    } else {
      JointRunKeeps(run, i - 1);
      JointStepKeeps(run.states[i - 1], run.steps[i - 1], run.states[i]);
    }
  }

  // A committing reconciler has applied all of its delta.

  lemma AllApplied(
    store: set<Tuple>, writes: seq<Tuple>, deletes: seq<Tuple>, batches: seq<Batch>, t: Tuple)
    requires Batches(writes, deletes, batches)
    ensures t in StoreAfter(store, batches, |batches|) <==> Rewritten(store, writes, deletes, t)
  {
    PrefixEffect(store, writes, deletes, batches, |batches|, t);
    if t in writes || t in deletes {
      AllTouched(writes, deletes, batches, t);
    }
  }

  /** No interleaving lets a transition commit before, or without, its complete delta. */
  lemma CommitIsComplete(run: JointTrace, c: nat, a: Actor)
    requires IsJointRun(run) && c < |run.steps| && run.steps[c] == Protocol(Commit(a))
    ensures var j := run.states[c];
            && j.system.PhaseOf(a).Written? && a in j.rewrites && a in j.found
            && ValidRewrite(j.rewrites[a]) && j.rewrites[a].transition == j.system.PhaseOf(a).plan
            && forall t :: t in j.tuples <==> Rewritten(j.found[a], j.rewrites[a].writes, j.rewrites[a].deletes, t)
  {
    var j := run.states[c];
    JointRunKeeps(run, c);
    assert JointNext(j, run.steps[c], run.states[c + 1]);
    hide Inv, StoreAfter, Rewritten, Rewrites;
    assert WriterOk(j, a) && j.system.PhaseOf(a).Written?;
    var w := j.rewrites[a];
    forall t ensures t in j.tuples <==> Rewritten(j.found[a], w.writes, w.deletes, t) {
      AllApplied(j.found[a], w.writes, w.deletes, w.batches, t);
    }
  }

  // Gates stay closed from the first write to a commit.

  predicate IsBlocked(gates: Gates, store: nat, r: ResourceID) {
    Key(store, r) in gates && gates[Key(store, r)].blocked
  }

  /** A step that commits a grant of the resource. */
  ghost predicate Regrants(j: Joint, step: JointStep, store: nat, r: ResourceID) {
    && step.Protocol? && step.step.Commit?
    && j.system.PhaseOf(step.step.actor).Written?
    && j.system.PhaseOf(step.step.actor).plan.target.store == store
    && r in j.system.PhaseOf(step.step.actor).plan.granted
  }

  lemma OnlyCommitsUnblock(s: System, step: Step, t: System, store: nat, r: ResourceID)
    requires Next(s, step, t) && IsBlocked(s.gates, store, r) && !IsBlocked(t.gates, store, r)
    ensures step.Commit? && s.PhaseOf(step.actor).Written?
    ensures s.PhaseOf(step.actor).plan.target.store == store && r in s.PhaseOf(step.actor).plan.granted
  {
    hide MayGate, MayCommit;
  }

  lemma UnblockingRegrants(j: Joint, step: JointStep, k: Joint, store: nat, r: ResourceID)
    requires JointNext(j, step, k)
    requires IsBlocked(j.system.gates, store, r) && !IsBlocked(k.system.gates, store, r)
    ensures Regrants(j, step, store, r)
  {
    hide Next, ValidRewrite, IsBlocked;
    match step {
      case Start(a, w) => OnlyCommitsUnblock(j.system, Check(a, w.transition), k.system, store, r);
      case WriteBatch(_) =>
      case Protocol(p) => OnlyCommitsUnblock(j.system, p, k.system, store, r);
    }
  }

  lemma {:induction false} ReopenedByRegrant(run: JointTrace, i: nat, k: nat, store: nat, r: ResourceID) returns (c: nat)
    requires IsJointRun(run) && i <= k <= |run.steps|
    requires IsBlocked(run.states[i].system.gates, store, r) && !IsBlocked(run.states[k].system.gates, store, r)
    ensures i <= c < k && Regrants(run.states[c], run.steps[c], store, r)
    decreases k
  {
    hide JointNext, IsBlocked, Regrants;
    var j, step, next := run.states[k - 1], run.steps[k - 1], run.states[k];
    assert JointNext(j, step, next);
    if IsBlocked(j.system.gates, store, r) {
      c := k - 1;
      UnblockingRegrants(j, step, next, store, r);
    } else {
      c := ReopenedByRegrant(run, i, k - 1, store, r);
    }
  }

  /** A batch that mentions a claim object gates whatever either projection binds to it. */
  lemma WritesTouch(w: Rewrite, n: nat, o: Ref, r: ResourceID)
    requires ValidRewrite(w) && n < |w.batches| && w.batches[n].Mentions(o) && w.Binds(o, r)
    ensures w.transition.Touches(r)
  {
    var t: Tuple :| t.object_ == o && (t in w.batches[n].writes || t in w.batches[n].deletes);
    BatchHasAll(w.writes, w.deletes, w.batches, n, t);
    hide Batches, ValidSnapshot;
    if b :| b in w.current && b.object_ == o && w.current[b] == r {
      if b in w.deletes {
      } else if t in w.deletes {
        assert w.current[t] == r;
      } else {
        assert w.desired[b] == r && w.desired[t] == r;
      }
    } else {
      var b :| b in w.desired && b.object_ == o && w.desired[b] == r;
      assert b in w.writes;
    }
  }

  /** The step writes tuples of the claim object. */
  ghost predicate WritesTo(j: Joint, step: JointStep, o: Ref) {
    step.WriteBatch? && Pending(j, step.actor) && NextBatch(j, step.actor).Mentions(o)
  }

  lemma WriterIsGated(j: Joint, step: JointStep, o: Ref, r: ResourceID)
    requires JointInv(j) && WritesTo(j, step, o) && j.rewrites[step.actor].Binds(o, r)
    ensures IsBlocked(j.system.gates, j.rewrites[step.actor].transition.target.store, r)
  {
    var a := step.actor;
    assert WriterOk(j, a);
    WritesTouch(j.rewrites[a], j.written[a], o, r);
    var plan := j.system.PhaseOf(a).plan;
    assert GatesShow(j.system.gates, j.system.PhaseOf(a));
    assert Shows(j.system.gates, plan.target.store, r, ClosedGate(plan, r));
  }

  // What happens to the tuples of one claim object.

  lemma BatchElsewhere(store: set<Tuple>, b: Batch, o: Ref)
    requires !b.Mentions(o)
    ensures SameOn(ApplyBatch(store, b), store, o)
  {
  }

  lemma {:induction false} UntouchedBetween(run: JointTrace, i: nat, k: nat, o: Ref)
    requires IsJointRun(run) && i <= k <= |run.steps|
    requires forall n | i <= n < k :: !WritesTo(run.states[n], run.steps[n], o)
    ensures SameOn(run.states[k].tuples, run.states[i].tuples, o)
    decreases k
  {
    if i < k {
      UntouchedBetween(run, i, k - 1, o);
      var j, step := run.states[k - 1], run.steps[k - 1];
      assert JointNext(j, step, run.states[k]);
      hide Next;
      if step.WriteBatch? {
        BatchElsewhere(j.tuples, NextBatch(j, step.actor), o);
      }
    }
  }

  /** One transaction rewrites the object's tuples, all of them. */
  ghost predicate RewrittenWhole(j: Joint, a: Actor, after: set<Tuple>, o: Ref)
    requires a in j.rewrites
  {
    forall t: Tuple | t.object_ == o ::
      t in after <==> Rewritten(j.tuples, j.rewrites[a].writes, j.rewrites[a].deletes, t)
  }

  lemma WriteIsWhole(j: Joint, step: JointStep, k: Joint, o: Ref)
    requires JointInv(j) && JointNext(j, step, k) && WritesTo(j, step, o)
    ensures RewrittenWhole(j, step.actor, k.tuples, o)
  {
    var a := step.actor;
    assert WriterOk(j, a);
    var w, n := j.rewrites[a], j.written[a];
    hide Inv, Rewrites;
    forall t: Tuple | t.object_ == o ensures t in k.tuples <==> Rewritten(j.tuples, w.writes, w.deletes, t) {
      BatchHasAll(w.writes, w.deletes, w.batches, n, t);
    }
  }

  ghost predicate LastWrite(run: JointTrace, i: nat, k: nat, o: Ref)
    requires i < k <= |run.steps| && |run.states| == |run.steps| + 1
  {
    && WritesTo(run.states[i], run.steps[i], o)
    && forall n | i < n < k :: !WritesTo(run.states[n], run.steps[n], o)
  }

  lemma {:induction false} FindLastWrite(run: JointTrace, k: nat, o: Ref) returns (i: Option<nat>)
    requires |run.states| == |run.steps| + 1 && k <= |run.steps|
    ensures i.None? ==> forall n | 0 <= n < k :: !WritesTo(run.states[n], run.steps[n], o)
    ensures i.Some? ==> i.value < k && LastWrite(run, i.value, k, o)
    decreases k
  {
    if k == 0 {
      i := None;
    } else if WritesTo(run.states[k - 1], run.steps[k - 1], o) {
      i := Some(k - 1);
    } else {
      i := FindLastWrite(run, k - 1, o);
    }
  }

  /** Whoever writes the object before `k` depends on the gate of the resource in this store. */
  ghost predicate BelongsTo(run: JointTrace, k: nat, o: Ref, store: nat, r: ResourceID)
    requires k <= |run.steps| && |run.states| == |run.steps| + 1
  {
    forall i | 0 <= i < k && WritesTo(run.states[i], run.steps[i], o) ::
      var w := run.states[i].rewrites[run.steps[i].actor];
      w.Binds(o, r) && w.transition.target.store == store
  }

  /** The last write of the object left it whole, and a grant has been committed since. */
  ghost predicate SeenWhole(run: JointTrace, i: nat, k: nat, o: Ref, store: nat, r: ResourceID)
    requires i < k <= |run.steps| && |run.states| == |run.steps| + 1
  {
    && LastWrite(run, i, k, o)
    && RewrittenWhole(run.states[i], run.steps[i].actor, run.states[k].tuples, o)
    && exists c :: i < c < k && Regrants(run.states[c], run.steps[c], store, r)
  }

  /**
   In every interleaving, with writers stopping after any batch: when a reader is
   allowed a resource, the tuples of a claim object that depends on it were either
   never written, or the last transaction that wrote them rewrote them as a whole and
   a grant of the resource has been committed since. No reader is ever allowed while a
   transition that gated the resource is under way or was abandoned halfway.
   */
  lemma ReadersSeeWholeClaims(run: JointTrace, k: nat, v: Revision, r: ResourceID, o: Ref)
    requires IsJointRun(run) && k <= |run.steps|
    requires Allows(run.states[k].system.gates, v, r)
    requires BelongsTo(run, k, o, v.store, r)
    ensures || ((forall n | 0 <= n < k :: !WritesTo(run.states[n], run.steps[n], o))
                && SameOn(run.states[k].tuples, run.states[0].tuples, o))
            || exists i :: 0 <= i < k && SeenWhole(run, i, k, o, v.store, r)
  {
    hide JointNext, JointInv, Regrants, RewrittenWhole;
    var last := FindLastWrite(run, k, o);
    if last.None? {
      UntouchedBetween(run, 0, k, o);
    } else {
      var i := last.value;
      JointRunKeeps(run, i);
      JointRunKeeps(run, i + 1);
      var j, next := run.states[i], run.states[i + 1];
      WriterStays(j, run.steps[i], next, o, r);
      WriteIsWhole(j, run.steps[i], next, o);
      UntouchedBetween(run, i + 1, k, o);
      WholeStays(j, run.steps[i].actor, next.tuples, run.states[k].tuples, o);
      var c := ReopenedByRegrant(run, i + 1, k, v.store, r);
      assert SeenWhole(run, i, k, o, v.store, r);
    }
  }

  lemma WholeStays(j: Joint, a: Actor, after: set<Tuple>, later: set<Tuple>, o: Ref)
    requires a in j.rewrites && RewrittenWhole(j, a, after, o) && SameOn(later, after, o)
    ensures RewrittenWhole(j, a, later, o)
  {
  }

  /** Writing a batch moves no gate, so the resource is still gated afterwards. */
  lemma WriterStays(j: Joint, step: JointStep, k: Joint, o: Ref, r: ResourceID)
    requires JointInv(j) && JointNext(j, step, k) && WritesTo(j, step, o)
    requires j.rewrites[step.actor].Binds(o, r)
    ensures IsBlocked(k.system.gates, j.rewrites[step.actor].transition.target.store, r)
  {
    WriterIsGated(j, step, o, r);
  }

  // When a complete rewrite leaves the desired claim.

  /** Not missing if both projections have it, and not there if neither has. */
  predicate Fits(found: set<Tuple>, current: Bindings, desired: Bindings, t: Tuple) {
    && (t in current && t in desired ==> t in found)
    && (t in found ==> t in current || t in desired)
  }

  ghost predicate FoundFits(found: set<Tuple>, current: Bindings, desired: Bindings, o: Ref) {
    forall t | IsClaimBinding(t) && t.object_ == o :: Fits(found, current, desired, t)
  }

  /**
   A complete rewrite leaves exactly the desired bindings of a claim if and only if
   the writer found a store between the two projections there.
   */
  lemma WholeExactly(
    found: set<Tuple>, current: Bindings, desired: Bindings, writes: seq<Tuple>, deletes: seq<Tuple>,
    batches: seq<Batch>, o: Ref)
    requires Rewrites(current, desired, writes, deletes) && Batches(writes, deletes, batches)
    ensures SameOn(BindingsIn(StoreAfter(found, batches, |batches|)), desired.Keys, o)
       <==> FoundFits(found, current, desired, o)
  {
    hide Rewrites, Batches, StoreAfter, BindingsIn, SameOn, FoundFits, Fits, Rewritten;
    var after := StoreAfter(found, batches, |batches|);
    forall t
      ensures (t in BindingsIn(after) <==> t in desired.Keys) <==> (IsClaimBinding(t) ==> Fits(found, current, desired, t))
    {
      AllApplied(found, writes, deletes, batches, t);
      WholeAt(found, after, current, desired, writes, deletes, t);
    }
    SameIffFits(BindingsIn(after), found, current, desired, o);
  }

  lemma SameIffFits(bindings: set<Tuple>, found: set<Tuple>, current: Bindings, desired: Bindings, o: Ref)
    requires forall t ::
               (t in bindings <==> t in desired.Keys) <==> (IsClaimBinding(t) ==> Fits(found, current, desired, t))
    ensures SameOn(bindings, desired.Keys, o) <==> FoundFits(found, current, desired, o)
  {
    hide IsClaimBinding, Fits;
    if SameOn(bindings, desired.Keys, o) {
      forall t | IsClaimBinding(t) && t.object_ == o ensures Fits(found, current, desired, t) {
        assert t in bindings <==> t in desired.Keys;
      }
    }
    if FoundFits(found, current, desired, o) {
      forall t: Tuple ensures t in bindings && t.object_ == o <==> t in desired.Keys && t.object_ == o {
      }
    }
  }

  lemma WholeAt(
    found: set<Tuple>, after: set<Tuple>, current: Bindings, desired: Bindings, writes: seq<Tuple>,
    deletes: seq<Tuple>, t: Tuple)
    requires Rewrites(current, desired, writes, deletes)
    requires t in after <==> Rewritten(found, writes, deletes, t)
    ensures (t in BindingsIn(after) <==> t in desired.Keys) <==> (IsClaimBinding(t) ==> Fits(found, current, desired, t))
  {
    assert t in desired ==> IsClaimBinding(t);
    FitsExactly(found, current, desired, writes, deletes, t);
    hide Rewrites, Rewritten, Fits, IsClaimBinding;
  }

  lemma FitsExactly(
    found: set<Tuple>, current: Bindings, desired: Bindings, writes: seq<Tuple>, deletes: seq<Tuple>, t: Tuple)
    requires Rewrites(current, desired, writes, deletes)
    ensures (Rewritten(found, writes, deletes, t) <==> t in desired) <==> Fits(found, current, desired, t)
  {
    hide ValidBindings;
  }

  /** Retrying what was interrupted always fits: each claim is wholly old or wholly new. */
  lemma RetryFits(
    store: set<Tuple>, current: Bindings, desired: Bindings, writes: seq<Tuple>, deletes: seq<Tuple>,
    batches: seq<Batch>, n: nat, o: Ref)
    requires Rewrites(current, desired, writes, deletes) && Batches(writes, deletes, batches) && n <= |batches|
    requires BindingsIn(store) == current.Keys
    ensures FoundFits(StoreAfter(store, batches, n), current, desired, o)
  {
    ClaimsWhole(store, current, desired, writes, deletes, batches, n, o);
    var after := StoreAfter(store, batches, n);
    hide StoreAfter, Batches, Rewrites;
    forall t | IsClaimBinding(t) && t.object_ == o ensures Fits(after, current, desired, t) {
      assert t in BindingsIn(after) <==> t in after;
    }
  }

  /** Before its one batch on an object, a writer has left the object as it found it. */
  lemma UnwrittenBefore(j: Joint, step: JointStep, o: Ref)
    requires JointInv(j) && WritesTo(j, step, o)
    ensures step.actor in j.found && SameOn(j.tuples, j.found[step.actor], o)
  {
    var a := step.actor;
    assert WriterOk(j, a);
    var w, n := j.rewrites[a], j.written[a];
    hide Inv, Rewrites;
    forall t: Tuple | t.object_ == o ensures t in j.tuples <==> t in j.found[a] {
      assert !TouchedBy(w.batches, n, o);
      PrefixEffect(j.found[a], w.writes, w.deletes, w.batches, n, t);
    }
  }

  /** Every writer of the object before `k` found a store between its two projections. */
  ghost predicate AllFit(run: JointTrace, k: nat, o: Ref)
    requires k <= |run.steps| && |run.states| == |run.steps| + 1
  {
    forall i | 0 <= i < k && WritesTo(run.states[i], run.steps[i], o) ::
      var j, a := run.states[i], run.steps[i].actor;
      a in j.found && FoundFits(j.found[a], j.rewrites[a].current, j.rewrites[a].desired, o)
  }

  /** The projection behind the last write of the object is what is stored for it. */
  ghost predicate SeenDesired(run: JointTrace, i: nat, k: nat, o: Ref)
    requires i < k <= |run.steps| && |run.states| == |run.steps| + 1
  {
    && LastWrite(run, i, k, o)
    && SameOn(BindingsIn(run.states[k].tuples), run.states[i].rewrites[run.steps[i].actor].desired.Keys, o)
  }

  lemma RewrittenIsFit(
    store: set<Tuple>, found: set<Tuple>, after: set<Tuple>, w: Rewrite, o: Ref)
    requires ValidRewrite(w) && SameOn(store, found, o) && FoundFits(found, w.current, w.desired, o)
    requires forall t: Tuple | t.object_ == o :: t in after <==> Rewritten(store, w.writes, w.deletes, t)
    ensures SameOn(BindingsIn(after), w.desired.Keys, o)
  {
    hide Batches;
    forall t: Tuple | t.object_ == o ensures t in BindingsIn(after) <==> t in w.desired.Keys {
      assert t in store && t.object_ == o <==> t in found && t.object_ == o;
      WholeAt(found, if Rewritten(found, w.writes, w.deletes, t) then {t} else {}, w.current, w.desired, w.writes,
              w.deletes, t);
    }
  }

  /**
   Where every writer found a fitting store, an allowed reader sees exactly the desired
   bindings of the last projection that wrote the claim.
   */
  lemma ReadersSeeDesired(run: JointTrace, k: nat, v: Revision, r: ResourceID, o: Ref)
    requires IsJointRun(run) && k <= |run.steps|
    requires Allows(run.states[k].system.gates, v, r)
    requires BelongsTo(run, k, o, v.store, r) && AllFit(run, k, o)
    ensures || ((forall n | 0 <= n < k :: !WritesTo(run.states[n], run.steps[n], o))
                && SameOn(run.states[k].tuples, run.states[0].tuples, o))
            || exists i :: 0 <= i < k && SeenWhole(run, i, k, o, v.store, r) && SeenDesired(run, i, k, o)
  {
    ReadersSeeWholeClaims(run, k, v, r, o);
    hide JointNext, JointInv, Regrants, IsBlocked, ValidRewrite, FoundFits, SameOn;
    if exists n :: 0 <= n < k && WritesTo(run.states[n], run.steps[n], o) {
      var i :| 0 <= i < k && SeenWhole(run, i, k, o, v.store, r);
      var j, a := run.states[i], run.steps[i].actor;
      JointRunKeeps(run, i);
      UnwrittenBefore(j, run.steps[i], o);
      WriterIsValid(j, a);
      RewrittenIsFit(j.tuples, j.found[a], run.states[k].tuples, j.rewrites[a], o);
      assert SeenDesired(run, i, k, o);
    }
  }

  lemma WriterIsValid(j: Joint, a: Actor)
    requires JointInv(j) && Pending(j, a)
    ensures ValidRewrite(j.rewrites[a])
  {
    assert WriterOk(j, a);
  }

  // A different transition after an abandoned one need not fit.

  const CLAIM := Ref(ClaimType, 1, None)

  function SourceTuple(): Tuple {
    Tuple(Ref(DocumentType, 1, None), SourceDocument, CLAIM)
  }

  function SubjectTuple(subject: nat): Tuple {
    Tuple(Ref(EntityType, subject, None), Subject, CLAIM)
  }

  function ObjectTuple(): Tuple {
    Tuple(Ref(EntityType, 9, None), Object, CLAIM)
  }

  /** The claim of resource 1, about this entity. */
  function About(subject: nat): Bindings {
    map[SourceTuple() := 1, SubjectTuple(subject) := 1, ObjectTuple() := 1]
  }

  lemma ThreeAreComplete(tuples: set<Tuple>, subject: nat)
    requires 0 < subject && tuples == {SourceTuple(), SubjectTuple(subject), ObjectTuple()}
    ensures ValidSnapshot(tuples)
  {
    forall t | t in tuples ensures ValidTuple(t) && t.object_ == CLAIM {
    }
    hide ValidTuple;
    assert SourceTuple() in tuples && SubjectTuple(subject) in tuples && ObjectTuple() in tuples;
    assert CompleteClaim(tuples, CLAIM);
  }

  lemma AboutValid(subject: nat)
    requires 0 < subject
    ensures ValidBindings(About(subject)) && ValidBindings(map[])
  {
    var b := About(subject);
    assert b.Keys == {SourceTuple(), SubjectTuple(subject), ObjectTuple()};
    ThreeAreComplete(b.Keys, subject);
    hide ValidSnapshot;
    forall t | t in b ensures b[t] == 1 && IsClaimBinding(t) {
    }
    NoneValid();
  }

  lemma NoneValid()
    ensures ValidBindings(map[])
  {
  }

  /**
   A transition that introduced the claim about entity 1 wrote it and was abandoned
   before committing. One that introduces it about entity 2 instead, from the same valid
   projection, may gate the same resource next, and its complete delta leaves the claim
   with both subjects.
   */
  lemma ReplacingAbandonedWrites(
    writes: seq<Tuple>, deletes: seq<Tuple>, batches: seq<Batch>, first: Transition, second: Transition, gates: Gates)
    requires Rewrites(map[], About(2), writes, deletes) && Batches(writes, deletes, batches)
    requires first.retired == [] && first.granted == [1] && second.retired == [] && second.granted == [1]
    requires second.target.store == first.target.store && second.target.epoch >= first.target.epoch
    requires Gated(map[], gates, first)
    ensures ValidBindings(map[]) && ValidBindings(About(1)) && ValidBindings(About(2))
    ensures MayGate(gates, second)
    ensures var after := StoreAfter(About(1).Keys, batches, |batches|);
            !FoundFits(About(1).Keys, map[], About(2), CLAIM) && !Singular(after)
  {
    AboutValid(1);
    AboutValid(2);
    LeavesBoth(writes, deletes, batches);
    MayReplace(first, second, gates);
    hide StoreAfter, Batches, ValidBindings, About, Rewrites;
    TwoSubjects(StoreAfter(About(1).Keys, batches, |batches|));
  }

  lemma LeavesBoth(writes: seq<Tuple>, deletes: seq<Tuple>, batches: seq<Batch>)
    requires Rewrites(map[], About(2), writes, deletes) && Batches(writes, deletes, batches)
    ensures var after := StoreAfter(About(1).Keys, batches, |batches|);
            SubjectTuple(1) in after && SubjectTuple(2) in after
    ensures !FoundFits(About(1).Keys, map[], About(2), CLAIM)
  {
    hide Batches, StoreAfter, ValidBindings;
    AllApplied(About(1).Keys, writes, deletes, batches, SubjectTuple(1));
    AllApplied(About(1).Keys, writes, deletes, batches, SubjectTuple(2));
    assert SubjectTuple(1) in About(1) && SubjectTuple(2) in About(2) && SubjectTuple(1) !in About(2);
    assert IsClaimBinding(SubjectTuple(1)) && !Fits(About(1).Keys, map[], About(2), SubjectTuple(1));
  }

  lemma MayReplace(first: Transition, second: Transition, gates: Gates)
    requires first.retired == [] && first.granted == [1] && second.retired == [] && second.granted == [1]
    requires second.target.store == first.target.store && second.target.epoch >= first.target.epoch
    requires Gated(map[], gates, first)
    ensures MayGate(gates, second)
  {
    forall id | second.Touches(id) ensures Conflict(gates, second, id).None? {
      assert first.Touches(id);
    }
  }

  lemma TwoSubjects(tuples: set<Tuple>)
    requires SubjectTuple(1) in tuples && SubjectTuple(2) in tuples
    ensures !Singular(tuples)
  {
    assert SubjectTuple(1).user != SubjectTuple(2).user;
  }
}
