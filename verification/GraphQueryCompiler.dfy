/** The compiler of graph queries, which sorts, compacts and renumbers in place. */
module GraphQueryCompiling {
  import opened Wrappers
  import opened Canonical
  import opened GraphQuerying

  predicate Ascending(s: seq<nat>) {
    forall i, j | 0 <= i < j < |s| :: s[i] <= s[j]
  }

  /** Insertion into an ascending list, equals included. */
  function InsertNat(s: seq<nat>, x: nat): (r: seq<nat>)
    requires Ascending(s)
    ensures Ascending(r) && |r| == |s| + 1
    ensures forall y :: y in r <==> y in s || y == x
    decreases |s|
  {
    if s == [] then [x]
    else if x <= s[0] then [x] + s
    else
      assert s == [s[0]] + s[1..];
      var rest := InsertNat(s[1..], x);
      assert forall i | 0 <= i < |rest| :: rest[i] in rest;
      [s[0]] + rest
  }

  method Sorted(values: seq<nat>) returns (s: seq<nat>)
    ensures Ascending(s) && |s| == |values| && forall x :: x in s <==> x in values
  {
    s := [];
    for i := 0 to |values|
      invariant Ascending(s) && |s| == i && forall x :: x in s <==> x in values[..i]
    {
      assert values[..i + 1] == values[..i] + [values[i]];
      s := InsertNat(s, values[i]);
    }
    assert values[..|values|] == values;
  }

  /** Drops repetitions of an ascending array with a read and a write index. */
  method Compact(a: array<nat>) returns (written: nat)
    requires a.Length > 0 && Ascending(a[..])
    modifies a
    ensures 0 < written <= a.Length
    ensures StrictlySorted(a[..written])
    ensures forall x :: x in a[..written] <==> x in old(a[..])
  {
    written := 1;
    ghost var before := a[..];
    for read := 1 to a.Length
      invariant 1 <= written <= read
      invariant a[read..] == before[read..]
      invariant StrictlySorted(a[..written])
      invariant a[written - 1] == before[read - 1]
      invariant forall x :: x in a[..written] <==> x in before[..read]
    {
      assert a[read] == a[read..][0] == before[read];
      assert before[..read + 1] == before[..read] + [before[read]];
      assert forall i | 0 <= i < written :: a[i] == a[..written][i];
      if a[read] != a[written - 1] {
        assert before[read - 1] <= before[read];
        assert a[..written] + [before[read]] == a[..written] + [a[read]];
        Appended(a[..written], before[read]);
        ghost var kept := a[..written];
        a[written] := a[read];
        written := written + 1;
        assert a[..written] == kept + [before[read]];
      }
    }
    assert before[..a.Length] == before;
  }

  lemma Appended(s: seq<nat>, x: nat)
    requires StrictlySorted(s) && s != [] && s[|s| - 1] < x
    ensures StrictlySorted(s + [x])
  {
  }

  method SortedUnique(values: seq<nat>) returns (s: seq<nat>)
    ensures Normal(values, s)
  {
    if values == [] {
      return [];
    }
    var sorted := Sorted(values);
    var a := new nat[|sorted|](i requires 0 <= i < |sorted| => sorted[i]);
    assert a[..] == sorted;
    var written := Compact(a);
    return a[..written];
  }

  // Filters.

  predicate AscendingKinds(filters: seq<Filter>) {
    forall i, j | 0 <= i < j < |filters| :: filters[i].kind < filters[j].kind
  }

  function InsertFilter(filters: seq<Filter>, f: Filter): (r: seq<Filter>)
    requires AscendingKinds(filters) && forall g | g in filters :: g.kind != f.kind
    ensures AscendingKinds(r)
    ensures forall g :: g in r <==> g in filters || g == f
    decreases |filters|
  {
    if filters == [] then [f]
    else if f.kind < filters[0].kind then [f] + filters
    else
      assert filters == [filters[0]] + filters[1..];
      var rest := InsertFilter(filters[1..], f);
      assert forall i | 0 <= i < |rest| :: rest[i] in rest;
      [filters[0]] + rest
  }

  method NormalizeFilters(filters: seq<Filter>) returns (normal: seq<Filter>)
    requires forall i, j | 0 <= i < j < |filters| :: filters[i].kind != filters[j].kind
    ensures NormalFilters(filters, normal)
  {
    normal := [];
    for i := 0 to |filters|
      invariant AscendingKinds(normal)
      invariant forall g | g in normal :: exists j :: 0 <= j < i && NormalFilter(filters[j], g)
      invariant forall j | 0 <= j < i :: exists g :: g in normal && NormalFilter(filters[j], g)
    {
      hide Normal;
      var f := filters[i];
      var ids := SortedUnique(f.ids);
      var derivations := SortedUnique(f.derivations);
      var added := f.(ids := ids, derivations := derivations);
      assert NormalFilter(f, added);
      normal := InsertFilter(normal, added);
    }
    hide NormalFilter;
    forall f | f in filters ensures exists g :: g in normal && NormalFilter(f, g) {
      var j :| 0 <= j < |filters| && filters[j] == f;
    }
  }

  // Order.

  function InsertOrder(order: seq<Order>, o: Order): (r: seq<Order>)
    decreases |order|
  {
    if order == [] then [o]
    else if o.priority < order[0].priority then [o] + order
    else [order[0]] + InsertOrder(order[1..], o)
  }

  lemma {:induction false} InsertOrderMembers(order: seq<Order>, o: Order)
    ensures multiset(InsertOrder(order, o)) == multiset(order) + multiset{o}
    decreases |order|
  {
    if order != [] && o.priority >= order[0].priority {
      InsertOrderMembers(order[1..], o);
      assert order == [order[0]] + order[1..];
      assert multiset(InsertOrder(order, o)) == multiset{order[0]} + multiset(InsertOrder(order[1..], o));
    }
  }

  lemma OrderInFront(first: Order, rest: seq<Order>)
    requires Ascend(rest) && forall i | 0 <= i < |rest| :: first.priority < rest[i].priority
    ensures Ascend([first] + rest)
  {
  }

  lemma {:induction false} InsertOrderAscends(order: seq<Order>, o: Order)
    requires Ascend(order) && forall p | p in order :: p.priority != o.priority
    ensures Ascend(InsertOrder(order, o))
    decreases |order|
  {
    if order != [] {
      assert order[0] in order;
      if o.priority < order[0].priority {
        OrderInFront(o, order);
      } else {
        var rest := InsertOrder(order[1..], o);
        InsertOrderAscends(order[1..], o);
        InsertOrderMembers(order[1..], o);
        forall i | 0 <= i < |rest| ensures order[0].priority < rest[i].priority {
          assert rest[i] in multiset(rest);
          if rest[i] != o {
            assert rest[i] in multiset(order[1..]);
            var k :| 0 <= k < |order[1..]| && order[1..][k] == rest[i];
            assert order[k + 1] == rest[i];
          }
        }
        OrderInFront(order[0], rest);
      }
    }
  }

  method SortOrder(order: seq<Order>) returns (sorted: seq<Order>)
    requires DistinctPriorities(order)
    ensures Ascend(sorted) && multiset(sorted) == multiset(order)
  {
    sorted := [];
    for i := 0 to |order|
      invariant Ascend(sorted) && multiset(sorted) == multiset(order[..i])
    {
      assert order[..i + 1] == order[..i] + [order[i]];
      forall p | p in sorted ensures p.priority != order[i].priority {
        assert p in multiset(order[..i]);
        var j :| 0 <= j < i && order[j] == p;
      }
      InsertOrderAscends(sorted, order[i]);
      InsertOrderMembers(sorted, order[i]);
      sorted := InsertOrder(sorted, order[i]);
    }
    assert order[..|order|] == order;
  }

  method Renumber(a: array<Order>)
    modifies a
    ensures forall i | 0 <= i < a.Length :: a[i] == old(a[i]).(priority := i)
  {
    for i := 0 to a.Length
      invariant forall j | 0 <= j < i :: a[j] == old(a[j]).(priority := j)
      invariant forall j | i <= j < a.Length :: a[j] == old(a[j])
    {
      a[i] := a[i].(priority := i);
    }
  }

  lemma MaxExtends(order: seq<Order>, i: nat)
    requires i < |order|
    ensures var before := MaxPriority(order[..i]);
            MaxPriority(order[..i + 1]) == if order[i].priority > before then order[i].priority else before
  {
    assert order[..i + 1][..i] == order[..i];
  }

  lemma ClaimIDPresent(order: seq<Order>, i: nat)
    requires i < |order| && order[i].key == SORT_CLAIM_ID
    ensures Clauses(order) == order
  {
    assert order[i] in order;
  }

  lemma NoClaimID(order: seq<Order>)
    requires forall j | 0 <= j < |order| :: order[j].key != SORT_CLAIM_ID
    ensures !exists o | o in order :: o.key == SORT_CLAIM_ID
  {
  }

  lemma ClaimIDMissing(order: seq<Order>)
    requires order != [] && !exists o | o in order :: o.key == SORT_CLAIM_ID
    ensures Clauses(order) == order + [Order(SORT_CLAIM_ID, true, MaxPriority(order) + 1)]
  {
    hide MaxPriority;
  }

  /** The scan for the claim id, which leaves the running maximum when it finds none. */
  method WithClaimID(order: seq<Order>) returns (clauses: seq<Order>)
    requires order != []
    ensures clauses == Clauses(order)
  {
    var max := -1;
    assert MaxPriority(order[..0]) == -1;
    hide MaxPriority, Clauses;
    for i := 0 to |order|
      invariant max == MaxPriority(order[..i])
      invariant forall j | 0 <= j < i :: order[j].key != SORT_CLAIM_ID
    {
      MaxExtends(order, i);
      if order[i].key == SORT_CLAIM_ID {
        ClaimIDPresent(order, i);
        return order;
      }
      if order[i].priority > max {
        max := order[i].priority;
      }
    }
    assert order[..|order|] == order;
    NoClaimID(order);
    ClaimIDMissing(order);
    return order + [Order(SORT_CLAIM_ID, true, max + 1)];
  }

  method NormalizeOrder(order: seq<Order>) returns (normal: seq<Order>)
    requires (forall o | o in order :: ValidOrder(o)) && DistinctKeys(order) && DistinctPriorities(order)
    ensures NormalOrder(order, normal)
  {
    var clauses := DEFAULT_ORDER;
    if order != [] {
      clauses := WithClaimID(order);
    }
    ClausesValid(order);
    var sorted := SortOrder(clauses);
    var a := new Order[|sorted|](i requires 0 <= i < |sorted| => sorted[i]);
    Renumber(a);
    normal := a[..];
    assert Renumbers(Clauses(order), normal, sorted);
  }

  // Predicates.

  ghost predicate Injective(digest: nat -> nat) {
    forall x, y :: digest(x) == digest(y) ==> x == y
  }

  method PredicateKeys(sources: seq<nat>, digest: nat -> nat) returns (keys: seq<nat>)
    requires Injective(digest)
    ensures Digests(digest, sources, keys)
  {
    var unique := SortedUnique(sources);
    keys := [];
    for i := 0 to |unique|
      invariant StrictlySorted(keys)
      invariant forall j | 0 <= j < i :: digest(unique[j]) in keys
      invariant forall key | key in keys :: exists j :: 0 <= j < i && digest(unique[j]) == key
    {
      keys := Insert(keys, digest(unique[i]));
    }
    forall x | x in sources ensures digest(x) in keys {
      assert x in unique;
      var j :| 0 <= j < |unique| && unique[j] == x;
    }
    forall key | key in keys ensures exists x :: x in sources && digest(x) == key {
      var j :| 0 <= j < |unique| && digest(unique[j]) == key;
      assert unique[j] in unique;
    }
  }

  /** Every valid query compiles, and nothing else does. */
  method CompileGraphQuery(q: Query, digest: nat -> nat) returns (plan: Option<Plan>)
    requires Injective(digest)
    ensures plan.Some? <==> ValidQuery(q)
    ensures plan.Some? ==> Compiles(q, digest, plan.value) && ValidPlan(plan.value, digest)
  {
    if !ValidQuery(q) {
      return None;
    }
    hide Normal, Digests, NormalFilters, NormalOrder;
    var starts := SortedUnique(q.starts);
    var kinds := SortedUnique(q.kinds);
    var fields := SortedUnique(REQUIRED_FIELDS + q.fields);
    var filters := NormalizeFilters(q.filters);
    var order := NormalizeOrder(q.order);
    var keys := PredicateKeys(q.predicates, digest);
    var compiled := Plan(CONTRACT_VERSION, q.projection, q.identity, starts, keys, kinds, q.direction, fields, filters,
                         order, q.limits);
    CompiledIsValid(q, digest, compiled);
    if !ValidPlan(compiled, digest) {
      assert false;
      return None;
    }
    return Some(compiled);
  }
}
