/**
 Rewriting the claim tuples of one catalog projection into those of another: the
 delta, its greedy batching by authorization object, and the batches' effect on
 the tuple store when writing stops after any of them.
 */
module TupleRewrite {
  import opened Wrappers
  import opened Tuples
  import opened Ordering

  type ResourceID = nat

  // Claim tuple projections and their delta.

  /** The bindings of a projection: each tuple with the resource that depends on it. */
  type Bindings = map<Tuple, ResourceID>

  predicate IsClaimBinding(t: Tuple) {
    t.object_.kind.ClaimType? && IsSingular(t.relation)
  }

  predicate ValidBindings(b: Bindings) {
    && (forall t | t in b :: b[t] > 0 && IsClaimBinding(t))
    && (forall s, t | s in b && t in b :: s.object_ == t.object_ ==> b[s] == b[t])
    && ValidSnapshot(b.Keys)
  }

  /** No retained tuple changes its resource. */
  predicate Rewritable(current: Bindings, desired: Bindings) {
    forall t | t in current && t in desired :: current[t] == desired[t]
  }

  datatype Delta = Delta(writes: Bindings, deletes: Bindings)

  /** The bindings of one projection that the other lacks, as a single pass. */
  method BindingsWithout(from: Bindings, other: Bindings) returns (result: Bindings)
    ensures result == from - other.Keys
  {
    result := map[];
    var rest := from.Keys;
    while rest != {}
      invariant rest <= from.Keys
      invariant forall t :: t in result <==> t in from && t !in other && t !in rest
      invariant forall t | t in result :: result[t] == from[t]
      decreases |rest|
    {
      var t :| t in rest;
      rest := rest - {t};
      if t !in other {
        result := result[t := from[t]];
      }
    }
    DifferenceIs(from, other, result);
  }

  lemma DifferenceIs(from: Bindings, other: Bindings, result: Bindings)
    requires forall t :: t in result <==> t in from && t !in other
    requires forall t | t in result :: result[t] == from[t]
    ensures result == from - other.Keys
  {
    assert result.Keys == (from - other.Keys).Keys;
  }

  method RetainedAgree(current: Bindings, desired: Bindings) returns (agrees: bool)
    ensures agrees <==> Rewritable(current, desired)
  {
    var rest := current.Keys;
    while rest != {}
      invariant rest <= current.Keys
      invariant forall t | t in current && t !in rest && t in desired :: current[t] == desired[t]
      decreases |rest|
    {
      var t :| t in rest;
      rest := rest - {t};
      if t in desired && desired[t] != current[t] {
        return false;
      }
    }
    return true;
  }

  lemma DeltaRebuilds(current: Bindings, desired: Bindings)
    requires Rewritable(current, desired)
    ensures current - (current - desired.Keys).Keys + (desired - current.Keys) == desired
  {
    var rebuilt := current - (current - desired.Keys).Keys + (desired - current.Keys);
    assert rebuilt.Keys == desired.Keys;
    forall t | t in desired ensures rebuilt[t] == desired[t] {
    }
  }

  /** The exact difference, which exists unless a retained tuple changed its resource. */
  method ProjectionDelta(current: Bindings, desired: Bindings) returns (delta: Option<Delta>)
    ensures delta.Some? <==> Rewritable(current, desired)
    ensures delta.Some? ==>
              && delta.value.writes == desired - current.Keys
              && delta.value.deletes == current - desired.Keys
              && delta.value.writes.Keys !! delta.value.deletes.Keys
              && current - delta.value.deletes.Keys + delta.value.writes == desired
  {
    var agrees := RetainedAgree(current, desired);
    if !agrees {
      return None;
    }
    var deletes := BindingsWithout(current, desired);
    var writes := BindingsWithout(desired, current);
    DeltaRebuilds(current, desired);
    return Some(Delta(writes, deletes));
  }

  /** The bindings of one claim that depends on the resource. */
  function OneClaim(id: ResourceID): Bindings {
    var claim := Ref(ClaimType, 1, None);
    map[Tuple(Ref(DocumentType, 1, None), SourceDocument, claim) := id,
        Tuple(Ref(EntityType, 1, None), Subject, claim) := id,
        Tuple(Ref(EntityType, 2, None), Object, claim) := id]
  }

  /** Two valid projections with no delta: the claim object now belongs to another resource. */
  lemma DeltaMayNotExist()
    ensures ValidBindings(OneClaim(1)) && ValidBindings(OneClaim(2))
    ensures !Rewritable(OneClaim(1), OneClaim(2))
  {
    var claim := Ref(ClaimType, 1, None);
    var t := Tuple(Ref(DocumentType, 1, None), SourceDocument, claim);
    assert OneClaim(1)[t] == 1 && OneClaim(2)[t] == 2;
    OneClaimValid(1);
    OneClaimValid(2);
  }

  lemma OneClaimValid(id: ResourceID)
    requires id > 0
    ensures ValidBindings(OneClaim(id))
  {
    var b, claim := OneClaim(id), Ref(ClaimType, 1, None);
    var source := Tuple(Ref(DocumentType, 1, None), SourceDocument, claim);
    var subject := Tuple(Ref(EntityType, 1, None), Subject, claim);
    var target := Tuple(Ref(EntityType, 2, None), Object, claim);
    assert b.Keys == {source, subject, target};
    assert source in b.Keys && subject in b.Keys && target in b.Keys;
    assert CompleteClaim(b.Keys, claim);
  }

  // Batches.

  const MAX_OPERATIONS := 100

  datatype Batch = Batch(writes: seq<Tuple>, deletes: seq<Tuple>)
  {
    function Size(): nat {
      |writes| + |deletes|
    }

    predicate Mentions(o: Ref) {
      (exists t | t in writes :: t.object_ == o) || (exists t | t in deletes :: t.object_ == o)
    }
  }

  function Filter(tuples: seq<Tuple>, o: Ref): seq<Tuple> {
    if tuples == [] then []
    else Filter(tuples[..|tuples| - 1], o)
         + (if tuples[|tuples| - 1].object_ == o then [tuples[|tuples| - 1]] else [])
  }

  lemma {:induction false} FilterCounts(tuples: seq<Tuple>, o: Ref)
    ensures forall t :: multiset(Filter(tuples, o))[t] == if t.object_ == o then multiset(tuples)[t] else 0
  {
    if tuples != [] {
      var n := |tuples| - 1;
      FilterCounts(tuples[..n], o);
      assert tuples == tuples[..n] + [tuples[n]];
    }
  }

  lemma FilterMembers(tuples: seq<Tuple>, o: Ref)
    ensures forall t :: t in Filter(tuples, o) <==> t in tuples && t.object_ == o
  {
    FilterCounts(tuples, o);
    forall t ensures t in Filter(tuples, o) <==> t in tuples && t.object_ == o {
      assert t in Filter(tuples, o) <==> multiset(Filter(tuples, o))[t] > 0;
      assert t in tuples <==> multiset(tuples)[t] > 0;
    }
  }

  function ChangesOf(writes: seq<Tuple>, deletes: seq<Tuple>, o: Ref): Batch {
    Batch(Filter(writes, o), Filter(deletes, o))
  }

  function AllWrites(batches: seq<Batch>): multiset<Tuple> {
    if batches == [] then multiset{}
    else AllWrites(batches[..|batches| - 1]) + multiset(batches[|batches| - 1].writes)
  }

  function AllDeletes(batches: seq<Batch>): multiset<Tuple> {
    if batches == [] then multiset{}
    else AllDeletes(batches[..|batches| - 1]) + multiset(batches[|batches| - 1].deletes)
  }

  /** No object is mentioned by two batches. */
  ghost predicate Apart(batches: seq<Batch>) {
    forall i, j, o | 0 <= i < j < |batches| && batches[i].Mentions(o) :: !batches[j].Mentions(o)
  }

  predicate Fits(b: Batch) {
    0 < b.Size() <= MAX_OPERATIONS
  }

  /** Exactly the operations on these objects. */
  ghost predicate Counts(operations: multiset<Tuple>, done: seq<Ref>, requested: seq<Tuple>) {
    forall t :: operations[t] == if t.object_ in done then multiset(requested)[t] else 0
  }

  lemma CountsAdd(operations: multiset<Tuple>, done: seq<Ref>, requested: seq<Tuple>, o: Ref)
    requires Counts(operations, done, requested) && o !in done
    ensures Counts(operations + multiset(Filter(requested, o)), done + [o], requested)
  {
    FilterCounts(requested, o);
  }

  /** What the greedy loop has packed: everything about the objects done so far. */
  ghost predicate Packed(
    writes: seq<Tuple>, deletes: seq<Tuple>, done: seq<Ref>, batches: seq<Batch>, current: Batch)
  {
    && Apart(batches + [current])
    && (forall b | b in batches :: Fits(b))
    && current.Size() <= MAX_OPERATIONS
    && (forall b, o | b in batches + [current] && b.Mentions(o) :: o in done)
    && Counts(AllWrites(batches + [current]), done, writes)
    && Counts(AllDeletes(batches + [current]), done, deletes)
  }

  lemma AllOfAppend(batches: seq<Batch>, b: Batch)
    ensures AllWrites(batches + [b]) == AllWrites(batches) + multiset(b.writes)
    ensures AllDeletes(batches + [b]) == AllDeletes(batches) + multiset(b.deletes)
  {
    assert (batches + [b])[..|batches|] == batches;
  }

  const NoChanges := Batch([], [])

  /** Closing the current batch and starting an empty one keeps everything packed. */
  lemma Flushed(writes: seq<Tuple>, deletes: seq<Tuple>, done: seq<Ref>, batches: seq<Batch>, current: Batch)
    requires Packed(writes, deletes, done, batches, current) && current.Size() > 0
    ensures Packed(writes, deletes, done, batches + [current], NoChanges)
  {
    AllOfAppend(batches + [current], NoChanges);
  }

  /** Adding the changes of a new object to a batch with room for them. */
  lemma Added(
    writes: seq<Tuple>, deletes: seq<Tuple>, done: seq<Ref>, batches: seq<Batch>, current: Batch, o: Ref, next: Batch)
    requires Packed(writes, deletes, done, batches, current) && o !in done
    requires next == Batch(current.writes + Filter(writes, o), current.deletes + Filter(deletes, o))
    requires next.Size() <= MAX_OPERATIONS
    ensures Packed(writes, deletes, done + [o], batches, next)
  {
    FilterMembers(writes, o);
    FilterMembers(deletes, o);
    assert forall p | next.Mentions(p) :: current.Mentions(p) || p == o;
    AddedApart(batches, current, next, done, o);
    AddedCounts(writes, deletes, done, batches, current, o, next);
  }

  lemma AddedCounts(
    writes: seq<Tuple>, deletes: seq<Tuple>, done: seq<Ref>, batches: seq<Batch>, current: Batch, o: Ref, next: Batch)
    requires o !in done
    requires next == Batch(current.writes + Filter(writes, o), current.deletes + Filter(deletes, o))
    requires Counts(AllWrites(batches + [current]), done, writes)
    requires Counts(AllDeletes(batches + [current]), done, deletes)
    ensures Counts(AllWrites(batches + [next]), done + [o], writes)
    ensures Counts(AllDeletes(batches + [next]), done + [o], deletes)
  {
    hide Counts;
    AllOfAppend(batches, current);
    AllOfAppend(batches, next);
    CountsAdd(AllWrites(batches + [current]), done, writes, o);
    CountsAdd(AllDeletes(batches + [current]), done, deletes, o);
    assert AllWrites(batches + [next]) == AllWrites(batches + [current]) + multiset(Filter(writes, o));
    assert AllDeletes(batches + [next]) == AllDeletes(batches + [current]) + multiset(Filter(deletes, o));
  }

  lemma AddedApart(batches: seq<Batch>, current: Batch, next: Batch, done: seq<Ref>, o: Ref)
    requires Apart(batches + [current]) && o !in done
    requires forall b, p | b in batches + [current] && b.Mentions(p) :: p in done
    requires forall p | next.Mentions(p) :: current.Mentions(p) || p == o
    ensures Apart(batches + [next])
    ensures forall b, p | b in batches + [next] && b.Mentions(p) :: p in done + [o]
  {
    var before, after := batches + [current], batches + [next];
    forall i, j, p | 0 <= i < j < |after| && after[i].Mentions(p) ensures !after[j].Mentions(p) {
      assert before[i] in before && before[i] == after[i];
      assert before[j].Mentions(p) ==> false;
    }
    forall b, p | b in after && b.Mentions(p) ensures p in done + [o] {
      if b in batches {
        assert b in before;
      } else {
        assert current in before;
      }
    }
  }

  lemma FilterExtends(tuples: seq<Tuple>, i: nat, o: Ref)
    requires i < |tuples|
    ensures Filter(tuples[..i + 1], o) == Filter(tuples[..i], o) + (if tuples[i].object_ == o then [tuples[i]] else [])
  {
    assert tuples[..i + 1][..i] == tuples[..i];
  }

  /** The changes of every object that has some, and of no other. */
  ghost predicate Grouped(writes: seq<Tuple>, deletes: seq<Tuple>, changes: map<Ref, Batch>) {
    forall o ::
      && (o in changes <==> ChangesOf(writes, deletes, o).Size() > 0)
      && (o in changes ==> changes[o] == ChangesOf(writes, deletes, o))
  }

  function ChangeFor(changes: map<Ref, Batch>, o: Ref): Batch {
    if o in changes then changes[o] else NoChanges
  }

  lemma GroupedFor(writes: seq<Tuple>, deletes: seq<Tuple>, changes: map<Ref, Batch>, o: Ref)
    requires Grouped(writes, deletes, changes)
    ensures ChangeFor(changes, o) == ChangesOf(writes, deletes, o)
  {
    assert o !in changes ==> ChangesOf(writes, deletes, o).Size() == 0;
  }

  lemma GroupDelete(deletes: seq<Tuple>, i: nat, changes: map<Ref, Batch>)
    requires i < |deletes| && Grouped([], deletes[..i], changes)
    ensures var change := ChangeFor(changes, deletes[i].object_);
            Grouped([], deletes[..i + 1],
                    changes[deletes[i].object_ := change.(deletes := change.deletes + [deletes[i]])])
  {
    GroupedFor([], deletes[..i], changes, deletes[i].object_);
    forall o ensures Filter(deletes[..i + 1], o)
                  == Filter(deletes[..i], o) + (if deletes[i].object_ == o then [deletes[i]] else [])
    {
      FilterExtends(deletes, i, o);
    }
    hide Filter;
  }

  lemma GroupWrite(writes: seq<Tuple>, deletes: seq<Tuple>, i: nat, changes: map<Ref, Batch>)
    requires i < |writes| && Grouped(writes[..i], deletes, changes)
    ensures var change := ChangeFor(changes, writes[i].object_);
            Grouped(writes[..i + 1], deletes,
                    changes[writes[i].object_ := change.(writes := change.writes + [writes[i]])])
  {
    GroupedFor(writes[..i], deletes, changes, writes[i].object_);
    forall o ensures Filter(writes[..i + 1], o)
                  == Filter(writes[..i], o) + (if writes[i].object_ == o then [writes[i]] else [])
    {
      FilterExtends(writes, i, o);
    }
    hide Filter;
  }

  /** The changes of every object, each list in the order of the request. */
  method GroupByObject(writes: seq<Tuple>, deletes: seq<Tuple>) returns (changes: map<Ref, Batch>)
    ensures Grouped(writes, deletes, changes)
  {
    changes := map[];
    for i := 0 to |deletes|
      invariant Grouped([], deletes[..i], changes)
    {
      hide Grouped, Filter;
      GroupDelete(deletes, i, changes);
      var change := if deletes[i].object_ in changes then changes[deletes[i].object_] else NoChanges;
      changes := changes[deletes[i].object_ := change.(deletes := change.deletes + [deletes[i]])];
    }
    assert deletes[..|deletes|] == deletes;
    assert writes[..0] == [];
    for i := 0 to |writes|
      invariant Grouped(writes[..i], deletes, changes)
    {
      hide Grouped, Filter;
      GroupWrite(writes, deletes, i, changes);
      var change := if writes[i].object_ in changes then changes[writes[i].object_] else NoChanges;
      changes := changes[writes[i].object_ := change.(writes := change.writes + [writes[i]])];
    }
    assert writes[..|writes|] == writes;
  }

  /** Whether some object alone needs more operations than a transaction takes. */
  ghost predicate Oversized(writes: seq<Tuple>, deletes: seq<Tuple>) {
    exists o :: ChangesOf(writes, deletes, o).Size() > MAX_OPERATIONS
  }

  /** The batches carry exactly the requested operations, within the limit, object by object. */
  ghost predicate Batches(writes: seq<Tuple>, deletes: seq<Tuple>, batches: seq<Batch>) {
    && AllWrites(batches) == multiset(writes)
    && AllDeletes(batches) == multiset(deletes)
    && (forall b | b in batches :: Fits(b))
    && Apart(batches)
  }

  lemma NothingPacked(writes: seq<Tuple>, deletes: seq<Tuple>)
    ensures Packed(writes, deletes, [], [], NoChanges)
  {
    AllOfAppend([], NoChanges);
  }

  function Flush(batches: seq<Batch>, current: Batch): seq<Batch> {
    if current.Size() > 0 then batches + [current] else batches
  }

  lemma FlushApart(batches: seq<Batch>, current: Batch)
    requires Apart(batches + [current])
    ensures Apart(Flush(batches, current))
  {
    var flushed := Flush(batches, current);
    forall i, j, o | 0 <= i < j < |flushed| && flushed[i].Mentions(o) ensures !flushed[j].Mentions(o) {
      assert flushed[i] == (batches + [current])[i] && flushed[j] == (batches + [current])[j];
    }
  }

  lemma FlushCounts(batches: seq<Batch>, current: Batch)
    ensures AllWrites(Flush(batches, current)) == AllWrites(batches + [current])
    ensures AllDeletes(Flush(batches, current)) == AllDeletes(batches + [current])
  {
    AllOfAppend(batches, current);
  }

  /** The objects listed are those with changes, once each. */
  ghost predicate Lists(writes: seq<Tuple>, deletes: seq<Tuple>, objects: seq<Ref>) {
    && (forall o :: o in objects <==> ChangesOf(writes, deletes, o).Size() > 0)
    && (forall i, j | 0 <= i < j < |objects| :: objects[i] != objects[j])
  }

  lemma ListsCover(writes: seq<Tuple>, deletes: seq<Tuple>, objects: seq<Ref>, t: Tuple)
    requires Lists(writes, deletes, objects) && (t in writes || t in deletes)
    ensures t.object_ in objects
  {
    FilterMembers(writes, t.object_);
    FilterMembers(deletes, t.object_);
    assert ChangesOf(writes, deletes, t.object_).Size() > 0;
  }

  lemma PackedCounts(writes: seq<Tuple>, deletes: seq<Tuple>, objects: seq<Ref>, batches: seq<Batch>, current: Batch)
    requires Packed(writes, deletes, objects, batches, current) && Lists(writes, deletes, objects)
    ensures AllWrites(batches + [current]) == multiset(writes)
    ensures AllDeletes(batches + [current]) == multiset(deletes)
  {
    hide AllWrites, AllDeletes, Apart, Lists;
    forall t
      ensures AllWrites(batches + [current])[t] == multiset(writes)[t]
      ensures AllDeletes(batches + [current])[t] == multiset(deletes)[t]
    {
      if t in writes || t in deletes {
        ListsCover(writes, deletes, objects, t);
      }
    }
  }

  lemma AllPacked(writes: seq<Tuple>, deletes: seq<Tuple>, objects: seq<Ref>, batches: seq<Batch>, current: Batch)
    requires Packed(writes, deletes, objects, batches, current) && Lists(writes, deletes, objects)
    ensures Batches(writes, deletes, Flush(batches, current))
  {
    PackedCounts(writes, deletes, objects, batches, current);
    FlushCounts(batches, current);
    FlushApart(batches, current);
    hide AllWrites, AllDeletes, Apart, Lists;
  }

  lemma NotOversized(writes: seq<Tuple>, deletes: seq<Tuple>, objects: seq<Ref>)
    requires Lists(writes, deletes, objects)
    requires forall o | o in objects :: ChangesOf(writes, deletes, o).Size() <= MAX_OPERATIONS
    ensures !Oversized(writes, deletes)
  {
    forall o ensures ChangesOf(writes, deletes, o).Size() <= MAX_OPERATIONS {
      assert o !in objects ==> ChangesOf(writes, deletes, o).Size() == 0;
    }
  }

  // The order of the operations.

  /** Operations on objects of lower rank come first. */
  predicate Ascends(rank: Ref -> nat, s: seq<Tuple>) {
    forall i, j | 0 <= i < j < |s| :: rank(s[i].object_) <= rank(s[j].object_)
  }

  /** Objects in order within each batch, and every batch wholly before the next. */
  ghost predicate InOrder(rank: Ref -> nat, batches: seq<Batch>) {
    && (forall b | b in batches :: Ascends(rank, b.writes) && Ascends(rank, b.deletes))
    && forall i, j, o, p | 0 <= i < j < |batches| && batches[i].Mentions(o) && batches[j].Mentions(p) ::
         rank(o) < rank(p)
  }

  predicate ConcernsOnly(o: Ref, s: seq<Tuple>) {
    forall t | t in s :: t.object_ == o
  }

  lemma AscendsOn(rank: Ref -> nat, s: seq<Tuple>, o: Ref, more: seq<Tuple>)
    requires Ascends(rank, s) && ConcernsOnly(o, more)
    requires forall t | t in s :: rank(t.object_) < rank(o)
    ensures Ascends(rank, s + more)
  {
    var all := s + more;
    forall i, j | 0 <= i < j < |all| ensures rank(all[i].object_) <= rank(all[j].object_) {
      if |s| <= i {
        assert all[i] in more && all[j] in more;
      } else if |s| <= j {
        assert all[i] in s && all[j] in more;
      }
    }
  }

  lemma ReplaceLast(rank: Ref -> nat, batches: seq<Batch>, current: Batch, next: Batch, o: Ref)
    requires InOrder(rank, batches + [current])
    requires Ascends(rank, next.writes) && Ascends(rank, next.deletes)
    requires forall p | next.Mentions(p) :: current.Mentions(p) || p == o
    requires forall b, p | b in batches && b.Mentions(p) :: rank(p) < rank(o)
    ensures InOrder(rank, batches + [next])
  {
    var before, after := batches + [current], batches + [next];
    forall b | b in after ensures Ascends(rank, b.writes) && Ascends(rank, b.deletes) {
      assert b == next || b in before;
    }
    forall i, j, p, q | 0 <= i < j < |after| && after[i].Mentions(p) && after[j].Mentions(q)
      ensures rank(p) < rank(q)
    {
      assert before[i] == after[i] && after[i] in batches && before[i].Mentions(p);
      if j < |batches| {
        assert before[j] == after[j] && before[j].Mentions(q);
      } else {
        assert after[j] == next && before[j] == current;
        assert current.Mentions(q) ==> before[j].Mentions(q);
      }
    }
  }

  lemma AppendBatch(rank: Ref -> nat, batches: seq<Batch>, next: Batch, o: Ref)
    requires InOrder(rank, batches)
    requires Ascends(rank, next.writes) && Ascends(rank, next.deletes)
    requires forall p | next.Mentions(p) :: p == o
    requires forall b, p | b in batches && b.Mentions(p) :: rank(p) < rank(o)
    ensures InOrder(rank, batches + [next])
  {
    var after := batches + [next];
    forall i, j, p, q | 0 <= i < j < |after| && after[i].Mentions(p) && after[j].Mentions(q)
      ensures rank(p) < rank(q)
    {
      assert after[i] in batches;
    }
  }

  /** Packing the next object in order keeps the order. */
  lemma PackOneInOrder(rank: Ref -> nat, batches: seq<Batch>, current: Batch, o: Ref, change: Batch)
    requires InOrder(rank, batches + [current])
    requires forall b, p | b in batches + [current] && b.Mentions(p) :: rank(p) < rank(o)
    requires ConcernsOnly(o, change.writes) && ConcernsOnly(o, change.deletes)
    ensures var (packed, next) := PackOne(batches, current, change);
            InOrder(rank, packed + [next])
  {
    assert current in batches + [current];
    forall b | b in batches ensures b in batches + [current] {
    }
    if current.Size() > 0 && current.Size() + change.Size() > MAX_OPERATIONS {
      AscendsOn(rank, [], o, change.writes);
      AscendsOn(rank, [], o, change.deletes);
      assert [] + change.writes == change.writes && [] + change.deletes == change.deletes;
      AppendBatch(rank, batches + [current], change, o);
    } else {
      forall t | t in current.writes || t in current.deletes ensures rank(t.object_) < rank(o) {
        assert current.Mentions(t.object_);
      }
      AscendsOn(rank, current.writes, o, change.writes);
      AscendsOn(rank, current.deletes, o, change.deletes);
      ReplaceLast(rank, batches, current,
                  Batch(current.writes + change.writes, current.deletes + change.deletes), o);
    }
  }

  lemma FlushInOrder(rank: Ref -> nat, batches: seq<Batch>, current: Batch)
    requires InOrder(rank, batches + [current])
    ensures InOrder(rank, Flush(batches, current))
  {
    var all, flushed := batches + [current], Flush(batches, current);
    forall b | b in flushed ensures b in all {
    }
    forall i, j, o, p | 0 <= i < j < |flushed| && flushed[i].Mentions(o) && flushed[j].Mentions(p)
      ensures rank(o) < rank(p)
    {
      assert flushed[i] == all[i] && flushed[j] == all[j];
    }
  }

  lemma ChangesConcern(writes: seq<Tuple>, deletes: seq<Tuple>, o: Ref)
    ensures ConcernsOnly(o, ChangesOf(writes, deletes, o).writes)
    ensures ConcernsOnly(o, ChangesOf(writes, deletes, o).deletes)
  {
    FilterMembers(writes, o);
    FilterMembers(deletes, o);
  }

  /** What is packed concerns the objects done so far, and those rank below the next one. */
  lemma DoneRankBelow(
    rank: Ref -> nat, writes: seq<Tuple>, deletes: seq<Tuple>, objects: seq<Ref>, i: nat, batches: seq<Batch>,
    current: Batch)
    requires i < |objects| && Ranked(rank, objects) && Packed(writes, deletes, objects[..i], batches, current)
    ensures forall b, p | b in batches + [current] && b.Mentions(p) :: rank(p) < rank(objects[i])
  {
    forall b, p | b in batches + [current] && b.Mentions(p) ensures rank(p) < rank(objects[i]) {
      assert p in objects[..i];
      var j :| 0 <= j < i && objects[j] == p;
    }
  }

  /** Greedy batching: an object goes into the current batch, or opens the next one. */
  method WriteBatches(writes: seq<Tuple>, deletes: seq<Tuple>, rank: Ref -> nat) returns (result: Option<seq<Batch>>)
    requires Injective(rank)
    ensures result.None? <==> Oversized(writes, deletes)
    ensures result.Some? ==> Batches(writes, deletes, result.value) && InOrder(rank, result.value)
  {
    var changes := GroupByObject(writes, deletes);
    var objects := Members(rank, changes.Keys);
    forall i, j | 0 <= i < j < |objects| ensures objects[i] != objects[j] {
      assert rank(objects[i]) < rank(objects[j]);
    }
    result := PackObjects(writes, deletes, changes, objects, rank);
  }

  /** One greedy step: the batches and the current batch once the change is packed. */
  function PackOne(batches: seq<Batch>, current: Batch, change: Batch): (seq<Batch>, Batch) {
    if current.Size() > 0 && current.Size() + change.Size() > MAX_OPERATIONS then (batches + [current], change)
    else (batches, Batch(current.writes + change.writes, current.deletes + change.deletes))
  }

  lemma PackOneKeeps(
    writes: seq<Tuple>, deletes: seq<Tuple>, done: seq<Ref>, batches: seq<Batch>, current: Batch, o: Ref)
    requires Packed(writes, deletes, done, batches, current) && o !in done
    requires ChangesOf(writes, deletes, o).Size() <= MAX_OPERATIONS
    ensures var (packed, next) := PackOne(batches, current, ChangesOf(writes, deletes, o));
            Packed(writes, deletes, done + [o], packed, next)
  {
    hide Packed, Filter;
    var change := ChangesOf(writes, deletes, o);
    if current.Size() > 0 && current.Size() + change.Size() > MAX_OPERATIONS {
      Flushed(writes, deletes, done, batches, current);
      assert Batch([] + change.writes, [] + change.deletes) == change;
      Added(writes, deletes, done, batches + [current], NoChanges, o, change);
    } else {
      Added(writes, deletes, done, batches, current, o,
            Batch(current.writes + change.writes, current.deletes + change.deletes));
    }
  }

  lemma IsOversized(writes: seq<Tuple>, deletes: seq<Tuple>, o: Ref)
    requires ChangesOf(writes, deletes, o).Size() > MAX_OPERATIONS
    ensures Oversized(writes, deletes)
  {
  }

  lemma ListsOnce(writes: seq<Tuple>, deletes: seq<Tuple>, objects: seq<Ref>, i: nat)
    requires Lists(writes, deletes, objects) && i < |objects|
    ensures objects[i] !in objects[..i]
  {
  }

  lemma NothingInOrder(rank: Ref -> nat)
    ensures InOrder(rank, [] + [NoChanges])
  {
  }

  method PackObjects(
    ghost writes: seq<Tuple>, ghost deletes: seq<Tuple>, changes: map<Ref, Batch>, objects: seq<Ref>,
    ghost rank: Ref -> nat)
    returns (result: Option<seq<Batch>>)
    requires Lists(writes, deletes, objects) && Grouped(writes, deletes, changes) && Ranked(rank, objects)
    requires forall o | o in objects :: o in changes
    ensures result.None? <==> Oversized(writes, deletes)
    ensures result.Some? ==> Batches(writes, deletes, result.value) && InOrder(rank, result.value)
  {
    NothingInOrder(rank);
    hide Packed, Filter, Batches, PackOne, Grouped, Lists, Oversized, InOrder, Ranked;
    var batches: seq<Batch>, current := [], NoChanges;
    NothingPacked(writes, deletes);
    for i := 0 to |objects|
      invariant Packed(writes, deletes, objects[..i], batches, current) && InOrder(rank, batches + [current])
      invariant forall o | o in objects[..i] :: ChangesOf(writes, deletes, o).Size() <= MAX_OPERATIONS
    {
      var change := changes[objects[i]];
      GroupedFor(writes, deletes, changes, objects[i]);
      if change.Size() > MAX_OPERATIONS {
        IsOversized(writes, deletes, objects[i]);
        return None;
      }
      ListsOnce(writes, deletes, objects, i);
      DoneRankBelow(rank, writes, deletes, objects, i, batches, current);
      ChangesConcern(writes, deletes, objects[i]);
      PackOneInOrder(rank, batches, current, objects[i], change);
      PackOneKeeps(writes, deletes, objects[..i], batches, current, objects[i]);
      assert objects[..i + 1] == objects[..i] + [objects[i]];
      batches, current := PackStep(batches, current, change);
    }
    assert objects[..|objects|] == objects;
    AllPacked(writes, deletes, objects, batches, current);
    FlushInOrder(rank, batches, current);
    NotOversized(writes, deletes, objects);
    return Some(Flush(batches, current));
  }

  method PackStep(batches: seq<Batch>, current: Batch, change: Batch) returns (packed: seq<Batch>, next: Batch)
    ensures (packed, next) == PackOne(batches, current, change)
  {
    packed, next := batches, current;
    if next.Size() > 0 && next.Size() + change.Size() > MAX_OPERATIONS {
      packed, next := packed + [next], NoChanges;
    }
    assert [] + change.writes == change.writes && [] + change.deletes == change.deletes;
    next := Batch(next.writes + change.writes, next.deletes + change.deletes);
  }
}
