/**
 What the batches of a rewrite do to the tuple store, in which each batch is one
 transaction and duplicate writes and missing deletes are ignored.
 */
module TupleStoring {
  import opened Wrappers
  import opened Tuples
  import opened TupleRewrite
  import opened Ordering

  function Members(tuples: seq<Tuple>): set<Tuple> {
    set t | t in tuples
  }

  function ApplyBatch(store: set<Tuple>, b: Batch): set<Tuple> {
    (store - Members(b.deletes)) + Members(b.writes)
  }

  function ApplyBatches(store: set<Tuple>, batches: seq<Batch>): set<Tuple> {
    if batches == [] then store
    else ApplyBatch(ApplyBatches(store, batches[..|batches| - 1]), batches[|batches| - 1])
  }

  class TupleStore {
    var tuples: set<Tuple>

    constructor (tuples: set<Tuple>)
      ensures this.tuples == tuples
    {
      this.tuples := tuples;
    }

    /** Batches in order; the first one to fail, `fails` or the last one, ends the writing. */
    method ApplyTupleChanges(writes: seq<Tuple>, deletes: seq<Tuple>, rank: Ref -> nat, fails: Option<nat>)
      returns (ok: bool, ghost batches: seq<Batch>, ghost written: nat)
      requires Injective(rank)
      modifies this
      ensures if Oversized(writes, deletes) then batches == []
              else Batches(writes, deletes, batches) && InOrder(rank, batches)
      ensures written <= |batches| && tuples == ApplyBatches(old(tuples), batches[..written])
      ensures ok <==> !Oversized(writes, deletes) && (fails.None? || batches == [])
      ensures ok ==> written == |batches|
    {
      batches, written := [], 0;
      var planned := WriteBatches(writes, deletes, rank);
      if planned.None? {
        return false, [], 0;
      }
      batches := planned.value;
      for i := 0 to |planned.value|
        invariant fails.Some? ==> i == 0 || i < |planned.value|
        invariant written == i && tuples == ApplyBatches(old(tuples), planned.value[..i])
      {
        if fails.Some? && (i == fails.value || i == |planned.value| - 1) {
          return false, batches, written;
        }
        assert planned.value[..i + 1][..i] == planned.value[..i];
        tuples := ApplyBatch(tuples, planned.value[i]);
        written := i + 1;
      }
      return true, batches, written;
    }
  }

  // Where an operation is.

  ghost predicate TouchedBy(batches: seq<Batch>, k: nat, o: Ref)
    requires k <= |batches|
  {
    exists i | 0 <= i < k :: batches[i].Mentions(o)
  }

  lemma {:induction false} WrittenInSome(batches: seq<Batch>, t: Tuple)
    ensures AllWrites(batches)[t] > 0 <==> exists i :: 0 <= i < |batches| && t in batches[i].writes
    decreases |batches|
  {
    if batches != [] {
      var n := |batches| - 1;
      var before, last := batches[..n], batches[n];
      WrittenInSome(before, t);
      assert AllWrites(batches)[t] == AllWrites(before)[t] + multiset(last.writes)[t];
      assert t in last.writes <==> multiset(last.writes)[t] > 0;
      hide AllWrites;
      if i :| 0 <= i < n && t in before[i].writes {
        assert batches[i] == before[i];
      }
      if i :| 0 <= i < |batches| && t in batches[i].writes {
        assert i < n ==> before[i] == batches[i];
      }
    }
  }

  lemma {:induction false} DeletedInSome(batches: seq<Batch>, t: Tuple)
    ensures AllDeletes(batches)[t] > 0 <==> exists i :: 0 <= i < |batches| && t in batches[i].deletes
    decreases |batches|
  {
    if batches != [] {
      var n := |batches| - 1;
      var before, last := batches[..n], batches[n];
      DeletedInSome(before, t);
      assert AllDeletes(batches)[t] == AllDeletes(before)[t] + multiset(last.deletes)[t];
      assert t in last.deletes <==> multiset(last.deletes)[t] > 0;
      hide AllDeletes;
      if i :| 0 <= i < n && t in before[i].deletes {
        assert batches[i] == before[i];
      }
      if i :| 0 <= i < |batches| && t in batches[i].deletes {
        assert i < n ==> before[i] == batches[i];
      }
    }
  }

  /** The one batch that mentions an object carries all its operations. */
  lemma BatchHasAll(writes: seq<Tuple>, deletes: seq<Tuple>, batches: seq<Batch>, k: nat, t: Tuple)
    requires Batches(writes, deletes, batches) && k < |batches| && batches[k].Mentions(t.object_)
    ensures t in batches[k].writes <==> t in writes
    ensures t in batches[k].deletes <==> t in deletes
  {
    WrittenInSome(batches, t);
    DeletedInSome(batches, t);
    assert t in writes <==> multiset(writes)[t] > 0;
    assert t in deletes <==> multiset(deletes)[t] > 0;
    forall i | 0 <= i < |batches| && (t in batches[i].writes || t in batches[i].deletes) ensures i == k {
      assert batches[i].Mentions(t.object_);
    }
  }

  /** The tuple has been rewritten: it is written, or it was there and is not deleted. */
  predicate Rewritten(store: set<Tuple>, writes: seq<Tuple>, deletes: seq<Tuple>, t: Tuple) {
    t in writes || (t in store && t !in deletes)
  }

  /** After any prefix of the batches each object is wholly rewritten or not at all. */
  lemma {:induction false} PrefixEffect(
    store: set<Tuple>, writes: seq<Tuple>, deletes: seq<Tuple>, batches: seq<Batch>, k: nat, t: Tuple)
    requires Batches(writes, deletes, batches) && k <= |batches|
    ensures t in ApplyBatches(store, batches[..k])
       <==> if TouchedBy(batches, k, t.object_) then Rewritten(store, writes, deletes, t) else t in store
    decreases k
  {
    if k > 0 {
      PrefixEffect(store, writes, deletes, batches, k - 1, t);
      assert batches[..k][..k - 1] == batches[..k - 1];
      var b := batches[k - 1];
      if b.Mentions(t.object_) {
        BatchHasAll(writes, deletes, batches, k - 1, t);
        assert !TouchedBy(batches, k - 1, t.object_);
      } else {
        assert TouchedBy(batches, k, t.object_) <==> TouchedBy(batches, k - 1, t.object_);
      }
    }
  }

  lemma AllTouched(writes: seq<Tuple>, deletes: seq<Tuple>, batches: seq<Batch>, t: Tuple)
    requires Batches(writes, deletes, batches) && (t in writes || t in deletes)
    ensures TouchedBy(batches, |batches|, t.object_)
  {
    WrittenInSome(batches, t);
    DeletedInSome(batches, t);
    assert t in writes <==> multiset(writes)[t] > 0;
    assert t in deletes <==> multiset(deletes)[t] > 0;
    var i :| 0 <= i < |batches| && (t in batches[i].writes || t in batches[i].deletes);
    assert batches[i].Mentions(t.object_);
  }

  // Rewriting one projection into another.

  /** The claim bindings among the tuples of a store. */
  function BindingsIn(store: set<Tuple>): set<Tuple> {
    set t | t in store && IsClaimBinding(t)
  }

  /** The request that reconciling sends: the delta of two valid projections. */
  ghost predicate Rewrites(current: Bindings, desired: Bindings, writes: seq<Tuple>, deletes: seq<Tuple>) {
    && ValidBindings(current) && ValidBindings(desired)
    && (forall t :: t in writes <==> t in desired && t !in current)
    && (forall t :: t in deletes <==> t in current && t !in desired)
    && (forall i, j | 0 <= i < j < |writes| :: writes[i] != writes[j])
    && (forall i, j | 0 <= i < j < |deletes| :: deletes[i] != deletes[j])
  }

  predicate AtMostThree(s: seq<Tuple>) {
    |s| <= 3
  }

  /** Of four tuples with singular relations two share one. */
  lemma SingularRepeats(s: seq<Tuple>)
    requires |s| > 3 && forall i | 0 <= i < |s| :: IsSingular(s[i].relation)
    ensures exists i, j :: 0 <= i < j < |s| && s[i].relation == s[j].relation
  {
    var p, q, r, t := s[0].relation, s[1].relation, s[2].relation, s[3].relation;
    assert IsSingular(p) && IsSingular(q) && IsSingular(r) && IsSingular(t);
    assert p == q || p == r || p == t || q == r || q == t || r == t;
  }

  lemma {:induction false} FilterDistinct(tuples: seq<Tuple>, o: Ref)
    requires forall i, j | 0 <= i < j < |tuples| :: tuples[i] != tuples[j]
    ensures forall i, j | 0 <= i < j < |Filter(tuples, o)| :: Filter(tuples, o)[i] != Filter(tuples, o)[j]
    decreases |tuples|
  {
    if tuples != [] {
      var n := |tuples| - 1;
      FilterDistinct(tuples[..n], o);
      FilterMembers(tuples[..n], o);
      assert forall i | 0 <= i < |Filter(tuples[..n], o)| :: Filter(tuples[..n], o)[i] in tuples[..n];
    }
  }

  lemma ObjectChangesSmall(bindings: Bindings, tuples: seq<Tuple>, o: Ref)
    requires ValidBindings(bindings) && forall t | t in tuples :: t in bindings
    requires forall i, j | 0 <= i < j < |tuples| :: tuples[i] != tuples[j]
    ensures AtMostThree(Filter(tuples, o))
  {
    var s := Filter(tuples, o);
    FilterDistinct(tuples, o);
    FilterMembers(tuples, o);
    forall i, j | 0 <= i < j < |s| ensures s[i].relation != s[j].relation {
      assert s[i] in s && s[j] in s;
      assert s[i] in bindings.Keys && s[j] in bindings.Keys;
    }
    forall i | 0 <= i < |s| ensures IsSingular(s[i].relation) {
      assert s[i] in s;
    }
    if |s| > 3 {
      SingularRepeats(s);
    }
  }

  /** Batching the delta of two valid projections never fails: six operations an object. */
  lemma DeltaNeverOversized(current: Bindings, desired: Bindings, writes: seq<Tuple>, deletes: seq<Tuple>)
    requires Rewrites(current, desired, writes, deletes)
    ensures !Oversized(writes, deletes)
  {
    forall o ensures ChangesOf(writes, deletes, o).Size() <= MAX_OPERATIONS {
      ObjectChangesSmall(desired, writes, o);
      ObjectChangesSmall(current, deletes, o);
    }
  }

  /** The store after a prefix of the batches. */
  function StoreAfter(store: set<Tuple>, batches: seq<Batch>, k: nat): set<Tuple>
    requires k <= |batches|
  {
    ApplyBatches(store, batches[..k])
  }

  ghost predicate SameOn(left: set<Tuple>, right: set<Tuple>, o: Ref) {
    forall t :: t in left && t.object_ == o <==> t in right && t.object_ == o
  }

  /**
   Rewrite atomicity. Start from a store whose claim bindings are the current
   projection's. After every prefix of the batches, each claim's bindings are wholly
   the current ones or wholly the desired ones, and all other tuples are untouched.
   */
  lemma ClaimsWhole(
    store: set<Tuple>, current: Bindings, desired: Bindings, writes: seq<Tuple>, deletes: seq<Tuple>,
    batches: seq<Batch>, k: nat, o: Ref)
    requires Rewrites(current, desired, writes, deletes) && Batches(writes, deletes, batches) && k <= |batches|
    requires BindingsIn(store) == current.Keys
    ensures SameOn(BindingsIn(StoreAfter(store, batches, k)), current.Keys, o)
         || SameOn(BindingsIn(StoreAfter(store, batches, k)), desired.Keys, o)
    ensures StoreAfter(store, batches, k) - BindingsIn(StoreAfter(store, batches, k)) == store - BindingsIn(store)
  {
    var after := StoreAfter(store, batches, k);
    forall t ensures t in after
                <==> if TouchedBy(batches, k, t.object_) then Rewritten(store, writes, deletes, t) else t in store
    {
      PrefixEffect(store, writes, deletes, batches, k, t);
    }
    hide StoreAfter, ApplyBatches, TouchedBy, Batches, ValidSnapshot, SameOn;
    WholeSide(store, after, current, desired, writes, deletes, o, TouchedBy(batches, k, o));
    OthersUntouched(store, after, current, desired, writes, deletes);
  }

  lemma WholeSide(
    store: set<Tuple>, after: set<Tuple>, current: Bindings, desired: Bindings, writes: seq<Tuple>,
    deletes: seq<Tuple>, o: Ref, touched: bool)
    requires Rewrites(current, desired, writes, deletes) && BindingsIn(store) == current.Keys
    requires forall t: Tuple | t.object_ == o ::
               t in after <==> if touched then Rewritten(store, writes, deletes, t) else t in store
    ensures SameOn(BindingsIn(after), if touched then desired.Keys else current.Keys, o)
  {
    forall t: Tuple | t.object_ == o ensures t in BindingsIn(after) <==> if touched then t in desired else t in current {
      assert t in BindingsIn(store) <==> t in current;
    }
  }

  lemma OthersUntouched(
    store: set<Tuple>, after: set<Tuple>, current: Bindings, desired: Bindings, writes: seq<Tuple>,
    deletes: seq<Tuple>)
    requires Rewrites(current, desired, writes, deletes)
    requires forall t :: t in after ==> t in store || t in writes
    requires forall t :: t in store && t !in deletes ==> t in after
    ensures after - BindingsIn(after) == store - BindingsIn(store)
  {
    forall t | !IsClaimBinding(t) ensures t in after <==> t in store {
    }
  }

  /** So at every boundary no claim has two sources, subjects or objects, or only some of them. */
  lemma CardinalityAtBoundaries(
    store: set<Tuple>, current: Bindings, desired: Bindings, writes: seq<Tuple>, deletes: seq<Tuple>,
    batches: seq<Batch>, k: nat)
    requires Rewrites(current, desired, writes, deletes) && Batches(writes, deletes, batches) && k <= |batches|
    requires BindingsIn(store) == current.Keys
    ensures ValidSnapshot(BindingsIn(StoreAfter(store, batches, k)))
  {
    var bindings := BindingsIn(StoreAfter(store, batches, k));
    forall o ensures SameOn(bindings, current.Keys, o) || SameOn(bindings, desired.Keys, o) {
      ClaimsWhole(store, current, desired, writes, deletes, batches, k, o);
    }
    WholeIsValid(bindings, current.Keys, desired.Keys);
  }

  lemma WholeIsValid(bindings: set<Tuple>, left: set<Tuple>, right: set<Tuple>)
    requires ValidSnapshot(left) && ValidSnapshot(right)
    requires forall o :: SameOn(bindings, left, o) || SameOn(bindings, right, o)
    ensures ValidSnapshot(bindings)
  {
    forall t | t in bindings ensures ValidTuple(t) && (t.object_.kind.ClaimType? ==> CompleteClaim(bindings, t.object_)) {
      WholeObject(bindings, if SameOn(bindings, left, t.object_) then left else right, t);
    }
    forall s, t | s in bindings && t in bindings && s.object_ == t.object_ && s.object_.kind.ClaimType?
                  && s.relation == t.relation && IsSingular(s.relation)
      ensures s.user == t.user
    {
      assert SameOn(bindings, left, s.object_) || SameOn(bindings, right, s.object_);
    }
  }

  lemma WholeObject(bindings: set<Tuple>, side: set<Tuple>, t: Tuple)
    requires ValidSnapshot(side) && t in bindings && SameOn(bindings, side, t.object_)
    ensures ValidTuple(t) && (t.object_.kind.ClaimType? ==> CompleteClaim(bindings, t.object_))
  {
    assert t in side;
    if t.object_.kind.ClaimType? {
      forall relation | Bound(side, t.object_, relation) ensures Bound(bindings, t.object_, relation) {
        var s :| s in side && s.object_ == t.object_ && s.relation == relation;
        assert s in bindings;
      }
    }
  }

  lemma ReplayEffect(
    store: set<Tuple>, writes: seq<Tuple>, deletes: seq<Tuple>, batches: seq<Batch>, k: nat, t: Tuple)
    requires Batches(writes, deletes, batches) && k <= |batches|
    ensures t in StoreAfter(StoreAfter(store, batches, k), batches, |batches|) <==> Rewritten(store, writes, deletes, t)
  {
    var stopped := StoreAfter(store, batches, k);
    PrefixEffect(store, writes, deletes, batches, k, t);
    PrefixEffect(stopped, writes, deletes, batches, |batches|, t);
    if t in writes || t in deletes {
      AllTouched(writes, deletes, batches, t);
    }
  }

  lemma RewrittenAt(
    store: set<Tuple>, after: set<Tuple>, current: Bindings, desired: Bindings, writes: seq<Tuple>,
    deletes: seq<Tuple>, t: Tuple)
    requires Rewrites(current, desired, writes, deletes) && BindingsIn(store) == current.Keys
    requires t in after <==> Rewritten(store, writes, deletes, t)
    ensures t in BindingsIn(after) <==> t in desired
    ensures t in after && t !in desired <==> t in store && t !in current
  {
    hide ValidSnapshot;
    assert t in desired || t in current ==> IsClaimBinding(t);
    assert t in BindingsIn(store) <==> t in current.Keys;
  }

  lemma RewrittenIsDesired(
    store: set<Tuple>, after: set<Tuple>, current: Bindings, desired: Bindings, writes: seq<Tuple>,
    deletes: seq<Tuple>)
    requires Rewrites(current, desired, writes, deletes) && BindingsIn(store) == current.Keys
    requires forall t :: t in after <==> Rewritten(store, writes, deletes, t)
    ensures BindingsIn(after) == desired.Keys
    ensures after - desired.Keys == store - current.Keys
  {
    hide Rewrites, Rewritten, BindingsIn;
    forall t
      ensures t in BindingsIn(after) <==> t in desired
      ensures t in after && t !in desired <==> t in store && t !in current
    {
      RewrittenAt(store, after, current, desired, writes, deletes, t);
    }
  }

  /** Writing everything, after any earlier attempt stopped anywhere, reaches the desired tuples. */
  lemma ReplayConverges(
    store: set<Tuple>, current: Bindings, desired: Bindings, writes: seq<Tuple>, deletes: seq<Tuple>,
    batches: seq<Batch>, k: nat)
    requires Rewrites(current, desired, writes, deletes) && Batches(writes, deletes, batches) && k <= |batches|
    requires BindingsIn(store) == current.Keys
    ensures BindingsIn(StoreAfter(StoreAfter(store, batches, k), batches, |batches|)) == desired.Keys
    ensures StoreAfter(StoreAfter(store, batches, k), batches, |batches|) - desired.Keys == store - current.Keys
  {
    hide StoreAfter, Batches, Rewrites, BindingsIn, Rewritten;
    var after := StoreAfter(StoreAfter(store, batches, k), batches, |batches|);
    forall t ensures t in after <==> Rewritten(store, writes, deletes, t) {
      ReplayEffect(store, writes, deletes, batches, k, t);
    }
    RewrittenIsDesired(store, after, current, desired, writes, deletes);
  }
}
