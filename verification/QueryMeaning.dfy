/**
 Compiling a graph query keeps its meaning: the same claim rows pass, and they are
 compared by the same clauses in the same order of importance.
 */
module QueryMeaning {
  import opened Wrappers
  import opened Canonical
  import opened GraphQuerying
  import opened Expansion
  import opened ExpansionFields
  import opened ExpansionPhase

  // Which rows pass.

  /** The row has a predicate of the query and passes each of its filters. */
  ghost predicate Satisfies(q: Query, digest: nat -> nat, row: Row) {
    && (exists source | source in q.predicates :: digest(source) == row.predicateKey)
    && forall f | f in q.filters :: PassesFilter(row, f)
  }

  lemma NormalFilterMeans(f: Filter, g: Filter, row: Row)
    requires NormalFilter(f, g)
    ensures PassesFilter(row, g) <==> PassesFilter(row, f)
  {
  }

  lemma CompiledSelects(q: Query, digest: nat -> nat, p: Plan, row: Row)
    requires Compiles(q, digest, p)
    ensures Passes(p, row) <==> Satisfies(q, digest, row)
  {
    hide PassesFilter, NormalFilter;
    forall f, g | NormalFilter(f, g) ensures PassesFilter(row, g) <==> PassesFilter(row, f) {
      NormalFilterMeans(f, g, row);
    }
  }

  // How rows are compared.

  /** Claim, object, predicate, source document, subject. */
  function SortField(row: Row, key: nat): nat
    requires 1 <= key <= 5
  {
    [row.claim, row.target, row.predicateKey, row.source, row.subject][key - 1]
  }

  /** Ascending clauses put the smaller first. */
  function Decides(left: nat, right: nat, ascending: bool): int {
    if left == right then 0 else if (left < right) == ascending then -1 else 1
  }

  lemma {:induction false} FirstDecides(left: Row, right: Row, order: seq<Order>, i: nat)
    requires (forall o | o in order :: 1 <= o.key <= 5) && i < |order|
    requires forall j | 0 <= j < i :: SortField(left, order[j].key) == SortField(right, order[j].key)
    requires i == |order| - 1 || SortField(left, order[i].key) != SortField(right, order[i].key)
    ensures Comparison(left, right, order)
         == Decides(SortField(left, order[i].key), SortField(right, order[i].key), order[i].ascending)
    decreases i
  {
    assert order[0] in order && order[i] in order;
    if i > 0 {
      assert order == [order[0]] + order[1..];
      FirstDecides(left, right, order[1..], i - 1);
    } else if i == |order| - 1 {
      assert order[1..] == [];
    }
  }

  /** The clause tells the rows apart, and none more important does. */
  predicate IsDecisive(order: seq<Order>, o: Order, left: Row, right: Row)
    requires o in order && forall o | o in order :: 1 <= o.key <= 5
  {
    && SortField(left, o.key) != SortField(right, o.key)
    && forall other | other in order && other.priority < o.priority ::
         SortField(left, other.key) == SortField(right, other.key)
  }

  predicate AllEqual(order: seq<Order>, left: Row, right: Row)
    requires forall o | o in order :: 1 <= o.key <= 5
  {
    forall o | o in order :: SortField(left, o.key) == SortField(right, o.key)
  }

  /** A decisive clause of those to be ordered decides in the plan. */
  lemma DecisiveClause(clauses: seq<Order>, normal: seq<Order>, o: Order, left: Row, right: Row)
    requires exists sorted :: Renumbers(clauses, normal, sorted)
    requires (forall c | c in clauses :: 1 <= c.key <= 5) && o in clauses && IsDecisive(clauses, o, left, right)
    ensures forall n | n in normal :: 1 <= n.key <= 5
    ensures Comparison(left, right, normal) == Decides(SortField(left, o.key), SortField(right, o.key), o.ascending)
  {
    var sorted :| Renumbers(clauses, normal, sorted);
    SortedClauses(clauses, normal, sorted);
    assert o in multiset(clauses) && o in multiset(sorted);
    var i :| 0 <= i < |sorted| && sorted[i] == o;
    forall j | 0 <= j < i ensures SortField(left, normal[j].key) == SortField(right, normal[j].key) {
      assert sorted[j] in multiset(sorted) && sorted[j] in clauses;
    }
    hide SortField, Comparison;
    FirstDecides(left, right, normal, i);
  }

  lemma SortedClauses(clauses: seq<Order>, normal: seq<Order>, sorted: seq<Order>)
    requires Renumbers(clauses, normal, sorted) && forall c | c in clauses :: 1 <= c.key <= 5
    ensures forall n | n in normal :: 1 <= n.key <= 5
    ensures forall s | s in sorted :: s in clauses
  {
    forall s | s in sorted ensures s in clauses {
      assert s in multiset(sorted);
    }
    forall n | n in normal ensures 1 <= n.key <= 5 {
      var i :| 0 <= i < |normal| && normal[i] == n;
      assert sorted[i] in sorted;
    }
  }

  /** Where the query's clauses decide, they decide in the plan, by priority. */
  lemma CompiledOrders(q: Query, digest: nat -> nat, p: Plan, o: Order, left: Row, right: Row)
    requires ValidQuery(q) && Compiles(q, digest, p) && o in q.order && IsDecisive(q.order, o, left, right)
    ensures Comparison(left, right, p.order) == Decides(SortField(left, o.key), SortField(right, o.key), o.ascending)
  {
    ClausesExtend(q.order);
    hide ValidQuery, Compiles, SortField, Comparison, Clauses;
    OrderCompiles(q, digest, p);
    var clauses := Clauses(q.order);
    assert IsDecisive(clauses, o, left, right);
    DecisiveClause(clauses, p.order, o, left, right);
  }

  lemma OrderCompiles(q: Query, digest: nat -> nat, p: Plan)
    requires Compiles(q, digest, p)
    ensures exists sorted :: Renumbers(Clauses(q.order), p.order, sorted)
  {
  }

  lemma ClausesExtend(order: seq<Order>)
    requires forall o | o in order :: ValidOrder(o)
    ensures order != [] ==>
              && (forall o | o in order :: o in Clauses(order))
              && (forall c | c in Clauses(order) && c !in order ::
                    && c.key == 1 && c.ascending && (forall o | o in order :: o.key != 1 && o.priority < c.priority))
              && exists c | c in Clauses(order) :: c.key == 1
    ensures forall c | c in Clauses(order) :: 1 <= c.key <= 5
  {
    MaxBounds(order);
    if !(exists o | o in order :: o.key == 1) && order != [] {
      assert Clauses(order)[|order|].key == 1;
    }
  }

  /** Where they do not, the claim id decides. */
  lemma CompiledTies(q: Query, digest: nat -> nat, p: Plan, left: Row, right: Row)
    requires ValidQuery(q) && Compiles(q, digest, p) && q.order != [] && AllEqual(q.order, left, right)
    ensures Comparison(left, right, p.order) == Decides(left.claim, right.claim, true)
  {
    ClausesExtend(q.order);
    OrderCompiles(q, digest, p);
    var clauses := Clauses(q.order);
    var c :| c in clauses && c.key == 1;
    hide ValidQuery, Compiles, Clauses;
    if left.claim == right.claim {
      NothingDecides(clauses, p.order, left, right);
    } else {
      assert SortField(left, 1) == left.claim && SortField(right, 1) == right.claim;
      assert c !in q.order && IsDecisive(clauses, c, left, right);
      DecisiveClause(clauses, p.order, c, left, right);
    }
  }

  lemma NothingDecides(clauses: seq<Order>, normal: seq<Order>, left: Row, right: Row)
    requires exists sorted :: Renumbers(clauses, normal, sorted)
    requires clauses != [] && (forall c | c in clauses :: 1 <= c.key <= 5) && AllEqual(clauses, left, right)
    ensures Comparison(left, right, normal) == 0
  {
    var sorted :| Renumbers(clauses, normal, sorted);
    SortedClauses(clauses, normal, sorted);
    assert |multiset(sorted)| == |sorted| && |multiset(clauses)| == |clauses|;
    forall j | 0 <= j < |normal| ensures SortField(left, normal[j].key) == SortField(right, normal[j].key) {
      assert sorted[j] in clauses;
    }
    hide SortField, Comparison;
    FirstDecides(left, right, normal, |normal| - 1);
  }

  /** A query without clauses compares by predicate, then object, then claim, all ascending. */
  lemma CompiledDefault(q: Query, digest: nat -> nat, p: Plan, left: Row, right: Row)
    requires Compiles(q, digest, p) && q.order == []
    ensures p.order == [Order(3, true, 0), Order(2, true, 1), Order(1, true, 2)]
    ensures Comparison(left, right, p.order) ==
            if left.predicateKey != right.predicateKey then Decides(left.predicateKey, right.predicateKey, true)
            else if left.target != right.target then Decides(left.target, right.target, true)
            else Decides(left.claim, right.claim, true)
  {
    OrderCompiles(q, digest, p);
    hide Compiles, Comparison, Renumbers;
    var clauses := [Order(3, true, 0), Order(2, true, 1), Order(1, true, 2)];
    assert Clauses(q.order) == clauses;
    var sorted :| Renumbers(clauses, p.order, sorted);
    DefaultSorted(clauses, p.order, sorted);
    DefaultDecides(left, right);
  }

  lemma DefaultDecides(left: Row, right: Row)
    ensures Comparison(left, right, [Order(3, true, 0), Order(2, true, 1), Order(1, true, 2)]) ==
            if left.predicateKey != right.predicateKey then Decides(left.predicateKey, right.predicateKey, true)
            else if left.target != right.target then Decides(left.target, right.target, true)
            else Decides(left.claim, right.claim, true)
  {
    hide Comparison;
    var clauses := [Order(3, true, 0), Order(2, true, 1), Order(1, true, 2)];
    var i := if left.predicateKey != right.predicateKey then 0 else if left.target != right.target then 1 else 2;
    FirstDecides(left, right, clauses, i);
  }

  lemma DefaultSorted(clauses: seq<Order>, normal: seq<Order>, sorted: seq<Order>)
    requires clauses == [Order(3, true, 0), Order(2, true, 1), Order(1, true, 2)] && Renumbers(clauses, normal, sorted)
    ensures normal == clauses
  {
    assert |sorted| == |multiset(sorted)| == |multiset(clauses)| == 3;
    forall i | 0 <= i < 3 ensures sorted[i] in clauses {
      assert sorted[i] in multiset(sorted);
    }
    assert sorted[0].priority < sorted[1].priority < sorted[2].priority;
  }

  /** The rest of the query is kept, duplicates and order of listing aside. */
  lemma CompiledKeeps(q: Query, digest: nat -> nat, p: Plan)
    requires Compiles(q, digest, p)
    ensures p.projection == q.projection && p.direction == q.direction && p.limits == q.limits
    ensures forall id :: id in p.starts <==> id in q.starts
    ensures forall kind :: kind in p.kinds <==> kind in q.kinds
    ensures forall field :: field in p.fields <==> field in q.fields || field in {1, 2, 3, 4, 5, 7, 8, 9}
  {
    assert REQUIRED_FIELDS[0] == 1 && REQUIRED_FIELDS[1] == 2 && REQUIRED_FIELDS[2] == 3 && REQUIRED_FIELDS[3] == 4
        && REQUIRED_FIELDS[4] == 5 && REQUIRED_FIELDS[5] == 7 && REQUIRED_FIELDS[6] == 8 && REQUIRED_FIELDS[7] == 9;
    forall field ensures field in REQUIRED_FIELDS + q.fields <==> field in q.fields || field in {1, 2, 3, 4, 5, 7, 8, 9} {
    }
  }

  /**
   From the query to the answer: one hop under the compiled plan has an edge exactly for
   the rows that satisfy the query and that its frontier reaches.
   */
  lemma ExpansionAnswersQuery(
    q: Query, digest: nat -> nat, p: Plan, handles: seq<FrontierHandle>, limit: nat, phase: Phase,
    resources: map<nat, nat>, claims: seq<Row>, e: Expanded, edge: Edge)
    requires ValidQuery(q) && Compiles(q, digest, p)
    requires IsOutcome(limit, p, phase, Scores(handles), resources, claims, Ok(e))
    ensures edge in e.edges <==>
              exists row | row in claims ::
                Satisfies(q, digest, row) && Reaches(p, phase, handles, row) && edge == EdgeFor(phase, row)
  {
    hide ValidQuery, Compiles, IsOutcome, Satisfies, Reaches, Passes;
    CompiledIsValid(q, digest, p);
    ValidPlanFilters(p, digest);
    ExpandsByFields(handles, limit, p, phase, resources, claims, Ok(e));
    forall row ensures Passes(p, row) <==> Satisfies(q, digest, row) {
      CompiledSelects(q, digest, p, row);
    }
  }
}
