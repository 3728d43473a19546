/**
 Graph queries and their compilation into canonical traversal plans. Names from
 closed vocabularies are their ranks in lexical order, starting at one; the digest
 that turns predicate sources into predicate keys is any injective function.
 */
module GraphQuerying {
  import opened Canonical

  // Vocabularies and bounds.

  const CONTRACT_VERSION := 1
  const IDENTITY_VERSION := 2
  const MAX_STARTS := 64
  const PREDICATE_SOURCES := 10
  const RESOURCE_KINDS := 5
  const MAX_FIELDS := 9
  const MAX_FILTERS := 5
  const MAX_FILTER_VALUES := 256
  const MAX_ORDER_CLAUSES := 5

  /** Every field but the sixth, the resource kind. */
  const REQUIRED_FIELDS := [1, 2, 3, 4, 5, 7, 8, 9]

  const DERIVATION_FILTER := 2
  const SORT_CLAIM_ID := 1
  const SORT_OBJECT_ID := 2
  const SORT_PREDICATE_KEY := 3

  datatype Direction = Outbound | Inbound | Both

  datatype Filter = Filter(kind: nat, ids: seq<nat>, derivations: seq<nat>)

  datatype Order = Order(key: nat, ascending: bool, priority: int)

  datatype Limits = Limits(
    depth: int, frontier: int, candidates: int, total: int, checks: int, millis: int)

  datatype Query = Query(
    version: nat, projection: nat, identity: nat, starts: seq<nat>, predicates: seq<nat>, kinds: seq<nat>,
    direction: Direction, fields: seq<nat>, filters: seq<Filter>, order: seq<Order>, limits: Limits)

  datatype Plan = Plan(
    version: nat, projection: nat, identity: nat, starts: seq<nat>, predicates: seq<nat>, kinds: seq<nat>,
    direction: Direction, fields: seq<nat>, filters: seq<Filter>, order: seq<Order>, limits: Limits)

  predicate InRange(s: seq<nat>, limit: nat) {
    forall x | x in s :: 1 <= x <= limit
  }

  predicate ValidLimits(l: Limits, starts: nat) {
    && 0 <= l.depth <= 8
    && 0 < l.frontier <= 256
    && 0 < l.candidates <= 512
    && starts <= l.total <= 2048
    && 0 < l.checks <= 128
    && 0 < l.millis <= 30_000
  }

  predicate ValidFilter(f: Filter, normalized: bool) {
    && 1 <= f.kind <= MAX_FILTERS
    && if f.kind == DERIVATION_FILTER then
         && 1 <= |f.derivations| <= 2 && f.ids == [] && InRange(f.derivations, 2)
         && (normalized ==> StrictlySorted(f.derivations))
       else
         && 1 <= |f.ids| <= MAX_FILTER_VALUES && f.derivations == [] && (forall id | id in f.ids :: id > 0)
         && (normalized ==> StrictlySorted(f.ids))
  }

  predicate ValidOrder(o: Order) {
    1 <= o.key <= MAX_ORDER_CLAUSES && 0 <= o.priority < MAX_ORDER_CLAUSES
  }

  predicate DistinctKeys(order: seq<Order>) {
    forall i, j | 0 <= i < j < |order| :: order[i].key != order[j].key
  }

  predicate DistinctPriorities(order: seq<Order>) {
    forall i, j | 0 <= i < j < |order| :: order[i].priority != order[j].priority
  }

  function Members(s: seq<nat>): set<nat> {
    set x | x in s
  }

  predicate ValidQuery(q: Query) {
    && q.version == CONTRACT_VERSION && q.projection > 0 && q.identity == IDENTITY_VERSION
    && 1 <= |q.starts| <= MAX_STARTS && (forall id | id in q.starts :: id > 0)
    && 1 <= |q.predicates| <= PREDICATE_SOURCES && InRange(q.predicates, PREDICATE_SOURCES)
    && 1 <= |q.kinds| <= RESOURCE_KINDS && InRange(q.kinds, RESOURCE_KINDS)
    && |q.fields| <= MAX_FIELDS && InRange(q.fields, MAX_FIELDS)
    && |q.filters| <= MAX_FILTERS
    && (forall f | f in q.filters :: ValidFilter(f, false))
    && (forall i, j | 0 <= i < j < |q.filters| :: q.filters[i].kind != q.filters[j].kind)
    && |q.order| <= MAX_ORDER_CLAUSES
    && (forall o | o in q.order :: ValidOrder(o))
    && DistinctKeys(q.order) && DistinctPriorities(q.order)
    && ValidLimits(q.limits, |Members(q.starts)|)
  }

  predicate ValidNormalizedOrder(order: seq<Order>) {
    && order != []
    && (forall i | 0 <= i < |order| :: ValidOrder(order[i]) && order[i].priority == i)
    && DistinctKeys(order)
    && (exists o | o in order :: o.key == SORT_CLAIM_ID)
  }

  predicate ValidNormalizedFilters(filters: seq<Filter>) {
    && (forall f | f in filters :: ValidFilter(f, true))
    && (forall i, j | 0 <= i < j < |filters| :: filters[i].kind < filters[j].kind)
  }

  /** A predicate key is supported when it digests a supported source. */
  predicate IsSupportedKey(digest: nat -> nat, key: nat) {
    exists source | 1 <= source <= PREDICATE_SOURCES :: digest(source) == key
  }

  predicate ValidPlan(p: Plan, digest: nat -> nat) {
    && p.version == CONTRACT_VERSION && p.projection > 0 && p.identity == IDENTITY_VERSION
    && 1 <= |p.starts| <= MAX_STARTS && StrictlySorted(p.starts) && (forall id | id in p.starts :: id > 0)
    && 1 <= |p.predicates| <= PREDICATE_SOURCES && StrictlySorted(p.predicates)
    && (forall key | key in p.predicates :: IsSupportedKey(digest, key))
    && 1 <= |p.kinds| <= RESOURCE_KINDS && StrictlySorted(p.kinds) && InRange(p.kinds, RESOURCE_KINDS)
    && 1 <= |p.fields| <= MAX_FIELDS && StrictlySorted(p.fields) && InRange(p.fields, MAX_FIELDS)
    && (forall field | field in REQUIRED_FIELDS :: field in p.fields)
    && |p.filters| <= MAX_FILTERS && ValidNormalizedFilters(p.filters)
    && |p.order| <= MAX_ORDER_CLAUSES && ValidNormalizedOrder(p.order)
    && ValidLimits(p.limits, |p.starts|)
  }

  // What compiling does to each part.

  ghost predicate SameMembers(s: seq<nat>, t: seq<nat>) {
    forall x :: x in s <==> x in t
  }

  ghost predicate Normal(s: seq<nat>, t: seq<nat>) {
    StrictlySorted(t) && SameMembers(s, t)
  }

  ghost predicate NormalFilter(f: Filter, g: Filter) {
    g.kind == f.kind && Normal(f.ids, g.ids) && Normal(f.derivations, g.derivations)
  }

  ghost predicate NormalFilters(filters: seq<Filter>, normal: seq<Filter>) {
    && (forall i, j | 0 <= i < j < |normal| :: normal[i].kind < normal[j].kind)
    && (forall g | g in normal :: exists f :: f in filters && NormalFilter(f, g))
    && (forall f | f in filters :: exists g :: g in normal && NormalFilter(f, g))
  }

  const DEFAULT_ORDER :=
    [Order(SORT_PREDICATE_KEY, true, 0), Order(SORT_OBJECT_ID, true, 1), Order(SORT_CLAIM_ID, true, 2)]

  /** The largest priority of the clauses, or minus one. */
  function MaxPriority(order: seq<Order>): int {
    if order == [] then -1
    else
      var rest := MaxPriority(order[..|order| - 1]);
      if order[|order| - 1].priority > rest then order[|order| - 1].priority else rest
  }

  lemma {:induction false} MaxBounds(order: seq<Order>)
    ensures MaxPriority(order) >= -1
    ensures forall o | o in order :: o.priority <= MaxPriority(order)
    ensures MaxPriority(order) == -1 || exists o | o in order :: o.priority == MaxPriority(order)
    decreases |order|
  {
    if order != [] {
      var n := |order| - 1;
      MaxBounds(order[..n]);
      assert order == order[..n] + [order[n]];
    }
  }

  /** The clauses to be ordered: a default, or the query's with the claim id last if missing. */
  function Clauses(order: seq<Order>): seq<Order> {
    if order == [] then DEFAULT_ORDER
    else if exists o | o in order :: o.key == SORT_CLAIM_ID then order
    else order + [Order(SORT_CLAIM_ID, true, MaxPriority(order) + 1)]
  }

  predicate Ascend(order: seq<Order>) {
    forall i, j | 0 <= i < j < |order| :: order[i].priority < order[j].priority
  }

  /** The clauses in ascending priority, renumbered from zero. */
  ghost predicate Renumbers(clauses: seq<Order>, normal: seq<Order>, sorted: seq<Order>) {
    && multiset(sorted) == multiset(clauses)
    && Ascend(sorted)
    && |normal| == |sorted|
    && forall i | 0 <= i < |sorted| :: normal[i] == sorted[i].(priority := i)
  }

  ghost predicate NormalOrder(order: seq<Order>, normal: seq<Order>) {
    exists sorted :: Renumbers(Clauses(order), normal, sorted)
  }

  /** The predicate keys are the digests of the sources. */
  ghost predicate Digests(digest: nat -> nat, sources: seq<nat>, keys: seq<nat>) {
    && StrictlySorted(keys)
    && (forall x | x in sources :: digest(x) in keys)
    && (forall key | key in keys :: exists x :: x in sources && digest(x) == key)
  }

  ghost predicate Compiles(q: Query, digest: nat -> nat, p: Plan) {
    && p.version == CONTRACT_VERSION && p.projection == q.projection && p.identity == q.identity
    && p.direction == q.direction && p.limits == q.limits
    && Normal(q.starts, p.starts)
    && Normal(q.kinds, p.kinds)
    && Normal(REQUIRED_FIELDS + q.fields, p.fields)
    && Digests(digest, q.predicates, p.predicates)
    && NormalFilters(q.filters, p.filters)
    && NormalOrder(q.order, p.order)
  }

  // Sizes.

  lemma {:induction false} SortedSize(s: seq<nat>)
    requires StrictlySorted(s)
    ensures |Members(s)| == |s|
    decreases |s|
  {
    if s != [] {
      var n := |s| - 1;
      SortedSize(s[..n]);
      assert s == s[..n] + [s[n]];
      assert Members(s) == Members(s[..n]) + {s[n]};
    }
  }

  lemma {:induction false} MembersSize(s: seq<nat>)
    ensures |Members(s)| <= |s|
    decreases |s|
  {
    if s != [] {
      var n := |s| - 1;
      MembersSize(s[..n]);
      assert s == s[..n] + [s[n]];
      assert Members(s) == Members(s[..n]) + {s[n]};
    }
  }

  lemma NormalSize(s: seq<nat>, t: seq<nat>)
    requires Normal(s, t)
    ensures |t| == |Members(s)| <= |s|
    ensures s != [] ==> t != []
  {
    SortedSize(t);
    MembersSize(s);
    assert Members(s) == Members(t);
    assert s != [] ==> s[0] in t;
  }

  lemma {:induction false} RangeSize(s: seq<nat>, limit: nat)
    requires StrictlySorted(s) && InRange(s, limit)
    ensures |s| <= limit
    decreases limit
  {
    if s != [] {
      var n := |s| - 1;
      assert s[n] in s;
      forall x | x in s[..n] ensures 1 <= x <= limit - 1 {
        var i :| 0 <= i < n && s[i] == x;
        assert s[i] in s;
      }
      RangeSize(s[..n], limit - 1);
    }
  }

  lemma {:induction false} DigestSize(digest: nat -> nat, sources: seq<nat>, keys: set<nat>)
    requires forall key | key in keys :: exists x :: x in sources && digest(x) == key
    ensures |keys| <= |sources|
    decreases |sources|
  {
    if sources == [] {
      assert forall key | key in keys :: exists x :: x in sources && digest(x) == key;
      assert keys == {};
    } else {
      var n := |sources| - 1;
      var rest := keys - {digest(sources[n])};
      forall key | key in rest ensures exists x :: x in sources[..n] && digest(x) == key {
        var x :| x in sources && digest(x) == key;
        var i :| 0 <= i < |sources| && sources[i] == x;
        assert x in sources[..n];
      }
      DigestSize(digest, sources[..n], rest);
      assert keys <= rest + {digest(sources[n])};
      SubsetSize(keys, rest + {digest(sources[n])});
    }
  }

  lemma SubsetSize(few: set<nat>, many: set<nat>)
    requires few <= many
    ensures |few| <= |many|
  {
    assert many == few + (many - few);
  }

  // A compiled plan is valid.

  lemma NormalFilterValid(f: Filter, g: Filter)
    requires NormalFilter(f, g) && ValidFilter(f, false)
    ensures ValidFilter(g, true)
  {
    NormalSize(f.ids, g.ids);
    NormalSize(f.derivations, g.derivations);
    assert f.ids == [] ==> g.ids == [];
    assert f.derivations == [] ==> g.derivations == [];
  }

  lemma KindsBounded(normal: seq<Filter>)
    requires forall g | g in normal :: ValidFilter(g, true)
    requires forall i, j | 0 <= i < j < |normal| :: normal[i].kind < normal[j].kind
    ensures |normal| <= MAX_FILTERS
  {
    var kinds := seq(|normal|, i requires 0 <= i < |normal| => normal[i].kind);
    forall kind | kind in kinds ensures 1 <= kind <= MAX_FILTERS {
      var i :| 0 <= i < |kinds| && kinds[i] == kind;
      assert normal[i] in normal;
    }
    RangeSize(kinds, MAX_FILTERS);
  }

  lemma FiltersValid(filters: seq<Filter>, normal: seq<Filter>)
    requires NormalFilters(filters, normal) && forall f | f in filters :: ValidFilter(f, false)
    ensures ValidNormalizedFilters(normal) && |normal| <= MAX_FILTERS
  {
    hide ValidFilter, NormalFilter;
    forall g | g in normal ensures ValidFilter(g, true) {
      var f :| f in filters && NormalFilter(f, g);
      NormalFilterValid(f, g);
    }
    KindsBounded(normal);
  }

  lemma AddedClause(order: seq<Order>, added: Order)
    requires DistinctKeys(order) && DistinctPriorities(order)
    requires forall o | o in order :: o.key != added.key && o.priority < added.priority
    ensures DistinctKeys(order + [added]) && DistinctPriorities(order + [added])
  {
    assert forall i | 0 <= i < |order| :: order[i] in order;
  }

  lemma ClausesValid(order: seq<Order>)
    requires (forall o | o in order :: ValidOrder(o)) && DistinctKeys(order) && DistinctPriorities(order)
    ensures DistinctKeys(Clauses(order)) && DistinctPriorities(Clauses(order))
    ensures forall o | o in Clauses(order) :: 1 <= o.key <= MAX_ORDER_CLAUSES
    ensures exists o | o in Clauses(order) :: o.key == SORT_CLAIM_ID
  {
    if order == [] {
      assert DEFAULT_ORDER[2] in DEFAULT_ORDER;
    } else if !(exists o | o in order :: o.key == SORT_CLAIM_ID) {
      var added := Order(SORT_CLAIM_ID, true, MaxPriority(order) + 1);
      MaxBounds(order);
      hide DistinctKeys, DistinctPriorities, MaxPriority;
      AddedClause(order, added);
      assert added in Clauses(order);
    }
  }

  lemma DistinctKeysFromPermutation(clauses: seq<Order>, sorted: seq<Order>)
    requires DistinctKeys(clauses) && multiset(sorted) == multiset(clauses) && Ascend(sorted)
    ensures DistinctKeys(sorted)
  {
    forall i, j | 0 <= i < j < |sorted| ensures sorted[i].key != sorted[j].key {
      assert sorted[i] in multiset(clauses) && sorted[j] in multiset(clauses);
      var k :| 0 <= k < |clauses| && clauses[k] == sorted[i];
      var l :| 0 <= l < |clauses| && clauses[l] == sorted[j];
    }
  }

  /** What renumbering a permutation keeps. */
  lemma RenumberedClauses(clauses: seq<Order>, normal: seq<Order>, sorted: seq<Order>)
    requires Renumbers(clauses, normal, sorted) && DistinctKeys(clauses)
    requires forall o | o in clauses :: 1 <= o.key <= MAX_ORDER_CLAUSES
    ensures DistinctKeys(normal)
    ensures forall i | 0 <= i < |normal| :: 1 <= normal[i].key <= MAX_ORDER_CLAUSES && normal[i].priority == i
  {
    DistinctKeysFromPermutation(clauses, sorted);
    forall i | 0 <= i < |sorted| ensures 1 <= normal[i].key <= MAX_ORDER_CLAUSES {
      assert sorted[i] in multiset(clauses);
    }
  }

  lemma RenumberedContains(clauses: seq<Order>, normal: seq<Order>, sorted: seq<Order>, key: nat)
    requires Renumbers(clauses, normal, sorted) && exists o | o in clauses :: o.key == key
    ensures exists o | o in normal :: o.key == key
  {
    var o :| o in clauses && o.key == key;
    assert o in multiset(sorted);
    var i :| 0 <= i < |sorted| && sorted[i] == o;
    assert normal[i] in normal;
  }

  lemma OrderValid(order: seq<Order>, normal: seq<Order>)
    requires (forall o | o in order :: ValidOrder(o)) && DistinctKeys(order) && DistinctPriorities(order)
    requires NormalOrder(order, normal)
    ensures ValidNormalizedOrder(normal) && |normal| <= MAX_ORDER_CLAUSES
  {
    var clauses := Clauses(order);
    var sorted :| Renumbers(clauses, normal, sorted);
    ClausesValid(order);
    RenumberedClauses(clauses, normal, sorted);
    RenumberedContains(clauses, normal, sorted, SORT_CLAIM_ID);
    hide Clauses, Renumbers, DistinctKeys;
    KeysBounded(normal);
  }

  lemma KeysBounded(normal: seq<Order>)
    requires (forall i | 0 <= i < |normal| :: 1 <= normal[i].key <= MAX_ORDER_CLAUSES) && DistinctKeys(normal)
    ensures |normal| <= MAX_ORDER_CLAUSES
  {
    var keys := seq(|normal|, i requires 0 <= i < |normal| => normal[i].key);
    DistinctSize(keys);
    assert Members(keys) <= {1, 2, 3, 4, 5};
    SubsetSize(Members(keys), {1, 2, 3, 4, 5});
  }

  lemma {:induction false} DistinctSize(s: seq<nat>)
    requires forall i, j | 0 <= i < j < |s| :: s[i] != s[j]
    ensures |Members(s)| == |s|
    decreases |s|
  {
    if s != [] {
      var n := |s| - 1;
      DistinctSize(s[..n]);
      assert s == s[..n] + [s[n]];
      assert Members(s) == Members(s[..n]) + {s[n]};
    }
  }

  lemma ListsValid(q: Query, digest: nat -> nat, p: Plan)
    requires ValidQuery(q) && Compiles(q, digest, p)
    ensures 1 <= |p.starts| <= MAX_STARTS && |p.starts| == |Members(q.starts)|
    ensures forall id | id in p.starts :: id > 0
    ensures 1 <= |p.kinds| <= RESOURCE_KINDS && InRange(p.kinds, RESOURCE_KINDS)
    ensures 1 <= |p.predicates| <= PREDICATE_SOURCES
    ensures forall key | key in p.predicates :: IsSupportedKey(digest, key)
  {
    hide NormalFilters, NormalOrder, ValidFilter, ValidOrder;
    NormalSize(q.starts, p.starts);
    NormalSize(q.kinds, p.kinds);
    SortedSize(p.predicates);
    DigestSize(digest, q.predicates, Members(p.predicates));
    assert q.predicates[0] in q.predicates && digest(q.predicates[0]) in p.predicates;
  }

  lemma FieldsValid(fields: seq<nat>, normal: seq<nat>)
    requires InRange(fields, MAX_FIELDS) && Normal(REQUIRED_FIELDS + fields, normal)
    ensures 1 <= |normal| <= MAX_FIELDS && InRange(normal, MAX_FIELDS)
    ensures forall field | field in REQUIRED_FIELDS :: field in normal
  {
    assert InRange(normal, MAX_FIELDS);
    RangeSize(normal, MAX_FIELDS);
    assert REQUIRED_FIELDS[0] in normal;
  }

  /** The second validation never rejects. */
  lemma CompiledIsValid(q: Query, digest: nat -> nat, p: Plan)
    requires ValidQuery(q) && Compiles(q, digest, p)
    ensures ValidPlan(p, digest)
  {
    hide NormalFilters, NormalOrder, ValidFilter, ValidOrder, DistinctKeys, DistinctPriorities, InRange, SameMembers,
      ValidNormalizedOrder, ValidNormalizedFilters, IsSupportedKey;
    ListsValid(q, digest, p);
    FieldsValid(q.fields, p.fields);
    FiltersValid(q.filters, p.filters);
    OrderValid(q.order, p.order);
  }

  // Compilation is canonical.

  ghost predicate SameFilter(f: Filter, g: Filter) {
    g.kind == f.kind && SameMembers(f.ids, g.ids) && SameMembers(f.derivations, g.derivations)
  }

  ghost predicate SameFilters(filters: seq<Filter>, others: seq<Filter>) {
    forall f | f in filters :: exists g :: g in others && SameFilter(f, g)
  }

  /** The queries differ only in the order and repetition of list entries. */
  ghost predicate SameEntries(q: Query, r: Query) {
    && q.version == r.version && q.projection == r.projection && q.identity == r.identity
    && q.direction == r.direction && q.limits == r.limits
    && SameMembers(q.starts, r.starts) && SameMembers(q.predicates, r.predicates)
    && SameMembers(q.kinds, r.kinds) && SameMembers(q.fields, r.fields)
    && SameFilters(q.filters, r.filters) && SameFilters(r.filters, q.filters)
    && multiset(q.order) == multiset(r.order)
  }

  lemma {:induction false} SortedFiltersUnique(s: seq<Filter>, t: seq<Filter>)
    requires forall i, j | 0 <= i < j < |s| :: s[i].kind < s[j].kind
    requires forall i, j | 0 <= i < j < |t| :: t[i].kind < t[j].kind
    requires forall f :: f in s <==> f in t
    ensures s == t
    decreases |s|
  {
    if s == [] {
      NoneIsEmpty(t);
    } else {
      assert s[0] in t && t != [] && t[0] in s;
      assert s[0] == t[0];
      forall f ensures f in s[1..] <==> f in t[1..] {
        TailOfFilters(s, f);
        TailOfFilters(t, f);
      }
      SortedFiltersUnique(s[1..], t[1..]);
      assert s == [s[0]] + s[1..] && t == [t[0]] + t[1..];
    }
  }

  lemma TailOfFilters(s: seq<Filter>, f: Filter)
    requires s != [] && forall i, j | 0 <= i < j < |s| :: s[i].kind < s[j].kind
    ensures f in s[1..] <==> f in s && f != s[0]
  {
    if f in s && f != s[0] {
      var i :| 0 <= i < |s| && s[i] == f;
      assert s[1..][i - 1] == f;
    }
  }

  lemma NormalAgree(s: seq<nat>, t: seq<nat>, x: seq<nat>, y: seq<nat>)
    requires SameMembers(s, t) && Normal(s, x) && Normal(t, y)
    ensures x == y
  {
    CanonicalUnique(x, y);
  }

  lemma SameNormalFilter(f: Filter, e: Filter, g: Filter, h: Filter)
    requires SameFilter(f, e) && NormalFilter(f, g) && NormalFilter(e, h)
    ensures g == h
  {
    NormalAgree(f.ids, e.ids, g.ids, h.ids);
    NormalAgree(f.derivations, e.derivations, g.derivations, h.derivations);
  }

  lemma OriginOf(filters: seq<Filter>, normal: seq<Filter>, g: Filter) returns (f: Filter)
    requires NormalFilters(filters, normal) && g in normal
    ensures f in filters && NormalFilter(f, g)
  {
    hide NormalFilter;
    f :| f in filters && NormalFilter(f, g);
  }

  lemma NormalOf(filters: seq<Filter>, normal: seq<Filter>, f: Filter) returns (g: Filter)
    requires NormalFilters(filters, normal) && f in filters
    ensures g in normal && NormalFilter(f, g)
  {
    hide NormalFilter;
    g :| g in normal && NormalFilter(f, g);
  }

  lemma SameOf(filters: seq<Filter>, others: seq<Filter>, f: Filter) returns (g: Filter)
    requires SameFilters(filters, others) && f in filters
    ensures g in others && SameFilter(f, g)
  {
    g :| g in others && SameFilter(f, g);
  }

  lemma FilterIncluded(filters: seq<Filter>, others: seq<Filter>, s: seq<Filter>, t: seq<Filter>, g: Filter)
    requires SameFilters(filters, others) && NormalFilters(filters, s) && NormalFilters(others, t)
    requires g in s
    ensures g in t
  {
    hide SameFilter, NormalFilter, SameFilters, NormalFilters;
    var f := OriginOf(filters, s, g);
    var e := SameOf(filters, others, f);
    var h := NormalOf(others, t, e);
    SameNormalFilter(f, e, g, h);
  }

  lemma KindsAscend(filters: seq<Filter>, normal: seq<Filter>)
    requires NormalFilters(filters, normal)
    ensures forall i, j | 0 <= i < j < |normal| :: normal[i].kind < normal[j].kind
  {
    hide NormalFilter;
  }

  lemma FiltersAgree(filters: seq<Filter>, others: seq<Filter>, s: seq<Filter>, t: seq<Filter>)
    requires SameFilters(filters, others) && SameFilters(others, filters)
    requires NormalFilters(filters, s) && NormalFilters(others, t)
    ensures s == t
  {
    hide SameFilters, NormalFilters;
    KindsAscend(filters, s);
    KindsAscend(others, t);
    forall g ensures g in s <==> g in t {
      if g in s {
        FilterIncluded(filters, others, s, t, g);
      }
      if g in t {
        FilterIncluded(others, filters, t, s, g);
      }
    }
    SortedFiltersUnique(s, t);
  }

  lemma HeadTail(s: seq<Order>)
    requires s != []
    ensures multiset(s[1..]) == multiset(s) - multiset{s[0]}
  {
    assert s == [s[0]] + s[1..];
  }

  lemma SameHead(s: seq<Order>, t: seq<Order>)
    requires multiset(s) == multiset(t) && Ascend(s) && Ascend(t) && s != [] && t != []
    ensures s[0] == t[0]
  {
    assert s[0] in multiset(t) && t[0] in multiset(s);
    var i :| 0 <= i < |t| && t[i] == s[0];
    var j :| 0 <= j < |s| && s[j] == t[0];
  }

  lemma {:induction false} SortedOrderUnique(s: seq<Order>, t: seq<Order>)
    requires multiset(s) == multiset(t) && Ascend(s) && Ascend(t)
    ensures s == t
    decreases |s|
  {
    assert |s| == |multiset(s)| && |t| == |multiset(t)|;
    if s != [] {
      SameHead(s, t);
      HeadTail(s);
      HeadTail(t);
      assert Ascend(s[1..]) && Ascend(t[1..]);
      hide Ascend;
      SortedOrderUnique(s[1..], t[1..]);
      assert s == [s[0]] + s[1..] && t == [t[0]] + t[1..];
    }
  }

  lemma MembersAgree(order: seq<Order>, other: seq<Order>)
    requires multiset(order) == multiset(other)
    ensures forall o :: o in order <==> o in other
    ensures order == [] <==> other == []
    ensures MaxPriority(order) == MaxPriority(other)
  {
    assert |order| == |multiset(order)| && |other| == |multiset(other)|;
    forall o ensures o in order <==> o in other {
      assert o in order <==> o in multiset(order);
      assert o in other <==> o in multiset(other);
    }
    MaxBounds(order);
    MaxBounds(other);
  }

  lemma ClausesAgree(order: seq<Order>, other: seq<Order>)
    requires multiset(order) == multiset(other)
    ensures multiset(Clauses(order)) == multiset(Clauses(other))
  {
    hide MaxPriority;
    MembersAgree(order, other);
    var added := Order(SORT_CLAIM_ID, true, MaxPriority(order) + 1);
    assert multiset(order + [added]) == multiset(order) + multiset{added};
    assert multiset(other + [added]) == multiset(other) + multiset{added};
  }

  lemma OrderAgrees(order: seq<Order>, other: seq<Order>, s: seq<Order>, t: seq<Order>)
    requires multiset(order) == multiset(other) && NormalOrder(order, s) && NormalOrder(other, t)
    ensures s == t
  {
    ClausesAgree(order, other);
    hide Clauses, Renumbers;
    var sorted :| Renumbers(Clauses(order), s, sorted);
    var sorted' :| Renumbers(Clauses(other), t, sorted');
    RenumberAgrees(Clauses(order), Clauses(other), s, t, sorted, sorted');
  }

  lemma RenumberAgrees(
    clauses: seq<Order>, others: seq<Order>, s: seq<Order>, t: seq<Order>, sorted: seq<Order>, sorted': seq<Order>)
    requires multiset(clauses) == multiset(others)
    requires Renumbers(clauses, s, sorted) && Renumbers(others, t, sorted')
    ensures s == t
  {
    SortedOrderUnique(sorted, sorted');
  }

  lemma DigestsAgree(digest: nat -> nat, sources: seq<nat>, others: seq<nat>, s: seq<nat>, t: seq<nat>)
    requires SameMembers(sources, others) && Digests(digest, sources, s) && Digests(digest, others, t)
    ensures s == t
  {
    CanonicalUnique(s, t);
  }

  lemma ListsAgree(q: Query, r: Query, digest: nat -> nat, p: Plan, o: Plan)
    requires SameEntries(q, r) && Compiles(q, digest, p) && Compiles(r, digest, o)
    ensures p.starts == o.starts && p.kinds == o.kinds && p.fields == o.fields && p.predicates == o.predicates
  {
    assert SameMembers(REQUIRED_FIELDS + q.fields, REQUIRED_FIELDS + r.fields);
    hide Normal, SameMembers, Digests, SameFilters, NormalFilters, NormalOrder;
    NormalAgree(q.starts, r.starts, p.starts, o.starts);
    NormalAgree(q.kinds, r.kinds, p.kinds, o.kinds);
    NormalAgree(REQUIRED_FIELDS + q.fields, REQUIRED_FIELDS + r.fields, p.fields, o.fields);
    DigestsAgree(digest, q.predicates, r.predicates, p.predicates, o.predicates);
  }

  lemma ClausesOfAgree(q: Query, r: Query, digest: nat -> nat, p: Plan, o: Plan)
    requires SameEntries(q, r) && Compiles(q, digest, p) && Compiles(r, digest, o)
    ensures p.filters == o.filters && p.order == o.order
  {
    hide Normal, SameMembers, Digests, SameFilters, NormalFilters, NormalOrder;
    FiltersAgree(q.filters, r.filters, p.filters, o.filters);
    OrderAgrees(q.order, r.order, p.order, o.order);
  }

  /** Queries that differ only by order or repetition of entries compile to the same plan. */
  lemma CompilesCanonically(q: Query, r: Query, digest: nat -> nat, p: Plan, o: Plan)
    requires SameEntries(q, r) && Compiles(q, digest, p) && Compiles(r, digest, o)
    ensures p == o
  {
    hide Normal, SameMembers, Digests, SameFilters, NormalFilters, NormalOrder;
    ListsAgree(q, r, digest, p, o);
    ClausesOfAgree(q, r, digest, p, o);
  }

  lemma Positions(clauses: seq<Order>, sorted: seq<Order>, a: Order, b: Order) returns (i: nat, j: nat)
    requires multiset(sorted) == multiset(clauses) && Ascend(sorted)
    requires a in clauses && b in clauses && a.priority < b.priority
    ensures i < j < |sorted| && sorted[i] == a && sorted[j] == b
  {
    assert a in multiset(sorted) && b in multiset(sorted);
    i :| 0 <= i < |sorted| && sorted[i] == a;
    j :| 0 <= j < |sorted| && sorted[j] == b;
  }

  ghost predicate Precedes(normal: seq<Order>, a: Order, b: Order) {
    exists i, j :: 0 <= i < j < |normal| && normal[i] == a.(priority := i) && normal[j] == b.(priority := j)
  }

  /**
   The normalized order has priorities from zero up, contains the claim id, and keeps
   the relative order and direction of the query's clauses.
   */
  lemma OrderKeepsRelativeOrder(order: seq<Order>, normal: seq<Order>, a: Order, b: Order)
    requires (forall o | o in order :: ValidOrder(o)) && DistinctKeys(order) && DistinctPriorities(order)
    requires NormalOrder(order, normal) && a in order && b in order && a.priority < b.priority
    ensures ValidNormalizedOrder(normal) && Precedes(normal, a, b)
  {
    assert a in Clauses(order) && b in Clauses(order);
    OrderValid(order, normal);
    hide Clauses, ValidNormalizedOrder, DistinctKeys, DistinctPriorities;
    var sorted :| Renumbers(Clauses(order), normal, sorted);
    var i, j := Positions(Clauses(order), sorted, a, b);
    assert normal[i] == a.(priority := i) && normal[j] == b.(priority := j);
  }
}
