/** The expansion phase: the passes that compute one hop, against its specification. */
module ExpansionPhase {
  import opened Wrappers
  import opened Canonical
  import opened GraphQuerying
  import opened Expansion
  import opened ExpansionFields

  method FrontierScores(handles: seq<FrontierHandle>) returns (scores: map<nat, Score>)
    ensures scores == Scores(handles)
  {
    scores := map[];
    for i := 0 to |handles|
      invariant scores == Scores(handles[..i])
    {
      assert handles[..i + 1][..i] == handles[..i];
      scores := scores[handles[i].id := handles[i].score];
    }
    assert handles[..|handles|] == handles;
  }

  method ClaimMatchesFilters(row: Row, filters: seq<Filter>) returns (matches: bool)
    ensures matches <==> forall f | f in filters :: MatchesFilter(row, f)
    ensures (forall f | f in filters :: 1 <= f.kind <= 5) ==>
              (matches <==> forall f | f in filters :: PassesFilter(row, f))
  {
    assert forall f: Filter | 1 <= f.kind <= 5 :: PassesFilter(row, f) <==> MatchesFilter(row, f);
    for i := 0 to |filters|
      invariant forall j | 0 <= j < i :: MatchesFilter(row, filters[j])
    {
      if filters[i].kind == DERIVATION_FILTER {
        if row.derivation !in filters[i].derivations {
          assert filters[i] in filters && !MatchesFilter(row, filters[i]);
          return false;
        }
      } else {
        var value := if filters[i].kind == 1 then row.claim
                     else if filters[i].kind == 3 then row.target
                     else if filters[i].kind == 4 then row.source
                     else row.subject;
        if value !in filters[i].ids {
          assert filters[i] in filters && !MatchesFilter(row, filters[i]);
          return false;
        }
      }
    }
    return true;
  }

  // Ordering claims by the plan's clauses.

  /** Sort keys in lexical order: claim, object, predicate, source document, subject. */
  function FieldOf(row: Row, key: nat): nat {
    if key == SORT_CLAIM_ID then row.claim
    else if key == SORT_OBJECT_ID then row.target
    else if key == SORT_PREDICATE_KEY then row.predicateKey
    else if key == 4 then row.source
    else row.subject
  }

  /** The first clause whose fields differ decides. */
  function Comparison(left: Row, right: Row, order: seq<Order>): int {
    if order == [] then 0
    else
      var l, r := FieldOf(left, order[0].key), FieldOf(right, order[0].key);
      if l == r then Comparison(left, right, order[1..])
      else if (l < r) == order[0].ascending then -1
      else 1
  }

  method CompareClaimRows(left: Row, right: Row, order: seq<Order>) returns (comparison: int)
    ensures comparison == Comparison(left, right, order)
  {
    assert order[0..] == order;
    for i := 0 to |order|
      invariant Comparison(left, right, order) == Comparison(left, right, order[i..])
    {
      assert order[i..][1..] == order[i + 1..];
      var l, r := FieldOf(left, order[i].key), FieldOf(right, order[i].key);
      if l != r {
        comparison := if l < r then -1 else 1;
        if !order[i].ascending {
          comparison := -comparison;
        }
        return;
      }
    }
    return 0;
  }

  /** Comparing in the other direction gives the opposite answer. */
  lemma {:induction false} ComparisonFlips(left: Row, right: Row, order: seq<Order>)
    ensures Comparison(right, left, order) == -Comparison(left, right, order)
    decreases |order|
  {
    if order != [] {
      ComparisonFlips(left, right, order[1..]);
    }
  }

  lemma {:induction false} ComparisonTransitive(a: Row, b: Row, c: Row, order: seq<Order>)
    requires Comparison(a, b, order) <= 0 && Comparison(b, c, order) <= 0
    ensures Comparison(a, c, order) <= 0
    decreases |order|
  {
    if order != [] {
      var x, y, z := FieldOf(a, order[0].key), FieldOf(b, order[0].key), FieldOf(c, order[0].key);
      if x == y && y == z {
        ComparisonTransitive(a, b, c, order[1..]);
      }
    }
  }

  predicate SortedRows(rows: seq<Row>, order: seq<Order>) {
    forall i, j | 0 <= i < j < |rows| :: Comparison(rows[i], rows[j], order) <= 0
  }

  method InsertRow(rows: seq<Row>, row: Row, order: seq<Order>) returns (inserted: seq<Row>)
    requires SortedRows(rows, order)
    ensures SortedRows(inserted, order) && multiset(inserted) == multiset(rows) + multiset{row}
  {
    var i := |rows|;
    var placed := false;
    while i > 0 && !placed
      invariant 0 <= i <= |rows|
      invariant forall j | i <= j < |rows| :: Comparison(rows[j], row, order) > 0
      invariant placed ==> i > 0 && Comparison(rows[i - 1], row, order) <= 0
      decreases i, !placed
    {
      var comparison := CompareClaimRows(rows[i - 1], row, order);
      if comparison <= 0 {
        placed := true;
      } else {
        i := i - 1;
      }
    }
    inserted := rows[..i] + [row] + rows[i..];
    InsertedOnce(rows, row, i);
    InsertedSorted(rows, row, i, order);
  }

  lemma InsertedSorted(rows: seq<Row>, row: Row, i: nat, order: seq<Order>)
    requires SortedRows(rows, order) && i <= |rows|
    requires forall j | i <= j < |rows| :: Comparison(rows[j], row, order) > 0
    requires i > 0 ==> Comparison(rows[i - 1], row, order) <= 0
    ensures SortedRows(rows[..i] + [row] + rows[i..], order)
  {
    forall j | i <= j < |rows| ensures Comparison(row, rows[j], order) <= 0 {
      ComparisonFlips(rows[j], row, order);
    }
    forall j | 0 <= j < i ensures Comparison(rows[j], row, order) <= 0 {
      if j < i - 1 {
        ComparisonTransitive(rows[j], rows[i - 1], row, order);
      }
    }
    var all := rows[..i] + [row] + rows[i..];
    hide Comparison;
    forall j, k | 0 <= j < k < |all| ensures Comparison(all[j], all[k], order) <= 0 {
      if k < i {
        assert all[j] == rows[j] && all[k] == rows[k];
      } else if k == i {
        assert all[j] == rows[j] && all[k] == row;
      } else if j < i {
        assert all[j] == rows[j] && all[k] == rows[k - 1];
      } else if j == i {
        assert all[j] == row && all[k] == rows[k - 1];
      } else {
        assert all[j] == rows[j - 1] && all[k] == rows[k - 1];
      }
    }
  }

  /** The claims in the plan's order. */
  method SortRows(rows: seq<Row>, order: seq<Order>) returns (sorted: seq<Row>)
    ensures SortedRows(sorted, order) && SameRows(sorted, rows)
  {
    sorted := [];
    for i := 0 to |rows|
      invariant SortedRows(sorted, order) && SameRows(sorted, rows[..i])
    {
      assert rows[..i + 1] == rows[..i] + [rows[i]];
      sorted := InsertRow(sorted, rows[i], order);
    }
    assert rows[..|rows|] == rows;
  }

  // The passes.

  method SelectClaims(
    plan: Plan, phase: Phase, scores: map<nat, Score>, resources: map<nat, nat>, claims: seq<Row>)
    returns (matching: Option<seq<Row>>)
    ensures matching.None? <==> Unbound(plan, resources, claims)
    ensures matching.Some? ==> matching.value == MatchingRows(plan, phase, scores, claims)
  {
    var found: seq<Row> := [];
    for i := 0 to |claims|
      invariant found == MatchingRows(plan, phase, scores, claims[..i])
      invariant forall j | 0 <= j < i :: IsSelected(plan, claims[j]) ==> IsComplete(resources, claims[j])
    {
      assert claims[..i + 1][..i] == claims[..i];
      var row := claims[i];
      if row.predicateKey in plan.predicates {
        var filtered := ClaimMatchesFilters(row, plan.filters);
        if filtered {
          if row.target !in resources || row.claim !in resources {
            assert row in claims && IsSelected(plan, row);
            return None;
          }
          if resources[row.claim] != KIND_CLAIM || resources[row.target] != KIND_ENTITY {
            assert row in claims && IsSelected(plan, row);
            return None;
          }
          if SourceOf(phase, row) in scores && KindAllowed(plan, phase) {
            found := found + [row];
          }
        }
      }
    }
    assert claims[..|claims|] == claims;
    return Some(found);
  }

  lemma SubsetSize(few: set<nat>, many: set<nat>)
    requires few <= many
    ensures |few| <= |many|
  {
    assert many == few + (many - few);
  }

  lemma TargetsExtend(phase: Phase, rows: seq<Row>, i: nat)
    requires i < |rows|
    ensures Targets(phase, rows[..i + 1]) == Targets(phase, rows[..i]) + {TargetOf(phase, rows[i])}
    ensures Targets(phase, rows[..i + 1]) <= Targets(phase, rows)
  {
    assert rows[..i + 1] == rows[..i] + [rows[i]];
    assert forall row | row in rows[..i + 1] :: row in rows;
  }

  /** The distinct targets, unless there are more than the limit. */
  method SelectTargets(phase: Phase, rows: seq<Row>) returns (targets: Option<set<nat>>)
    ensures targets.None? <==> |Targets(phase, rows)| > MAX_ITEMS
    ensures targets.Some? ==> targets.value == Targets(phase, rows)
  {
    var selected: seq<nat>, seen: set<nat> := [], {};
    for i := 0 to |rows|
      invariant seen == Targets(phase, rows[..i]) && |selected| == |seen| <= MAX_ITEMS
    {
      var target := TargetOf(phase, rows[i]);
      TargetsExtend(phase, rows, i);
      if target !in seen {
        if |selected| == MAX_ITEMS {
          SubsetSize(Targets(phase, rows[..i + 1]), Targets(phase, rows));
          return None;
        }
        seen := seen + {target};
        selected := selected + [target];
      }
    }
    assert rows[..|rows|] == rows;
    return Some(seen);
  }

  lemma BestExtends(phase: Phase, scores: map<nat, Score>, rows: seq<Row>, i: nat, target: nat, score: Score)
    requires i < |rows| && forall row | row in rows :: SourceOf(phase, row) in scores
    requires TargetOf(phase, rows[i]) != target
    requires (forall row | row in rows[..i] :: SourceOf(phase, row) in scores)
          && IsBest(phase, scores, rows[..i], target, score)
    ensures (forall row | row in rows[..i + 1] :: SourceOf(phase, row) in scores)
         && IsBest(phase, scores, rows[..i + 1], target, score)
  {
    assert rows[..i + 1] == rows[..i] + [rows[i]];
  }

  lemma BestUpdates(phase: Phase, scores: map<nat, Score>, rows: seq<Row>, i: nat, best: Option<Score>, score: Score)
    requires i < |rows| && forall row | row in rows :: SourceOf(phase, row) in scores
    requires var target, own := TargetOf(phase, rows[i]), scores[SourceOf(phase, rows[i])];
             && (forall row | row in rows[..i] :: SourceOf(phase, row) in scores)
             && (best.None? ==> target !in Targets(phase, rows[..i]) && score == own)
             && (best.Some? ==>
                   IsBest(phase, scores, rows[..i], target, best.value)
                   && score == if best.value >= own then best.value else own)
    ensures (forall row | row in rows[..i + 1] :: SourceOf(phase, row) in scores)
         && IsBest(phase, scores, rows[..i + 1], TargetOf(phase, rows[i]), score)
  {
    assert rows[..i + 1] == rows[..i] + [rows[i]];
    assert rows[i] in rows[..i + 1];
  }

  /** The best score of every target the rows reach, and of nothing else. */
  ghost predicate BestOf(phase: Phase, scores: map<nat, Score>, rows: seq<Row>, best: map<nat, Score>) {
    && (forall row | row in rows :: SourceOf(phase, row) in scores)
    && best.Keys == Targets(phase, rows)
    && forall target | target in best :: IsBest(phase, scores, rows, target, best[target])
  }

  function Raised(best: map<nat, Score>, target: nat, score: Score): Score {
    var current: Score := if target in best then best[target] else 0.0;
    if current >= score then current else score
  }

  lemma ScoreStep(phase: Phase, scores: map<nat, Score>, rows: seq<Row>, i: nat, best: map<nat, Score>)
    requires i < |rows| && forall row | row in rows :: SourceOf(phase, row) in scores
    requires BestOf(phase, scores, rows[..i], best)
    ensures var target := TargetOf(phase, rows[i]);
            BestOf(phase, scores, rows[..i + 1],
                   best[target := Raised(best, target, scores[SourceOf(phase, rows[i])])])
  {
    var target := TargetOf(phase, rows[i]);
    var next := Raised(best, target, scores[SourceOf(phase, rows[i])]);
    TargetsExtend(phase, rows, i);
    BestUpdates(phase, scores, rows, i, if target in best then Some(best[target]) else None, next);
    var raised := best[target := next];
    hide IsBest;
    forall other | other in raised ensures IsBest(phase, scores, rows[..i + 1], other, raised[other]) {
      if other != target {
        BestExtends(phase, scores, rows, i, other, best[other]);
      }
    }
  }

  lemma EdgesExtend(phase: Phase, rows: seq<Row>, i: nat)
    requires i < |rows|
    ensures EdgesOf(phase, rows[..i + 1]) == EdgesOf(phase, rows[..i]) + [EdgeOf(phase, rows[i])]
  {
  }

  /** Each target's running maximum, and an edge for every row. */
  method ScoreTargets(phase: Phase, scores: map<nat, Score>, rows: seq<Row>, selected: set<nat>)
    returns (best: map<nat, Score>, edges: seq<Edge>)
    requires (forall row | row in rows :: SourceOf(phase, row) in scores) && selected == Targets(phase, rows)
    ensures BestOf(phase, scores, rows, best) && edges == EdgesOf(phase, rows)
  {
    best, edges := map[], [];
    for i := 0 to |rows|
      invariant BestOf(phase, scores, rows[..i], best) && edges == EdgesOf(phase, rows[..i])
    {
      hide BestOf, EdgesOf;
      var target := TargetOf(phase, rows[i]);
      assert rows[i] in rows && target in selected;
      ScoreStep(phase, scores, rows, i, best);
      EdgesExtend(phase, rows, i);
      var score := scores[SourceOf(phase, rows[i])];
      var current: Score := if target in best then best[target] else 0.0;
      best := best[target := if current >= score then current else score];
      edges := edges + [EdgeOf(phase, rows[i])];
    }
    assert rows[..|rows|] == rows;
  }

  // Sorting the output.

  function InsertCandidate(candidates: seq<Candidate>, c: Candidate): (r: seq<Candidate>)
    requires SortedCandidates(candidates) && forall d | d in candidates :: d.id != c.id
    ensures SortedCandidates(r)
    ensures forall d :: d in r <==> d in candidates || d == c
    decreases |candidates|
  {
    if candidates == [] then [c]
    else if CandidateBefore(c, candidates[0]) then [c] + candidates
    else
      assert candidates == [candidates[0]] + candidates[1..];
      var rest := InsertCandidate(candidates[1..], c);
      assert forall i | 0 <= i < |rest| :: rest[i] in rest;
      [candidates[0]] + rest
  }

  method SortCandidates(best: map<nat, Score>) returns (candidates: seq<Candidate>)
    ensures SortedCandidates(candidates)
    ensures forall c :: c in candidates <==> c.id in best && best[c.id] == c.score
  {
    candidates := [];
    var rest := best.Keys;
    while rest != {}
      invariant rest <= best.Keys
      invariant SortedCandidates(candidates)
      invariant forall c :: c in candidates <==> c.id in best && c.id !in rest && best[c.id] == c.score
      decreases |rest|
    {
      var id :| id in rest;
      rest := rest - {id};
      candidates := InsertCandidate(candidates, Candidate(id, best[id]));
    }
  }

  function InsertEdge(edges: seq<Edge>, e: Edge): seq<Edge> {
    if edges == [] then [e]
    else if EdgeBefore(e, edges[0]) then [e] + edges
    else [edges[0]] + InsertEdge(edges[1..], e)
  }

  lemma {:induction false} InsertEdgeMembers(edges: seq<Edge>, e: Edge)
    ensures multiset(InsertEdge(edges, e)) == multiset(edges) + multiset{e}
    decreases |edges|
  {
    if edges != [] && !EdgeBefore(e, edges[0]) {
      hide EdgeBefore;
      InsertEdgeMembers(edges[1..], e);
      assert edges == [edges[0]] + edges[1..];
      assert multiset(InsertEdge(edges, e)) == multiset{edges[0]} + multiset(InsertEdge(edges[1..], e));
    }
  }

  lemma EdgeAgainstAll(edges: seq<Edge>, e: Edge)
    requires SortedEdges(edges) && edges != []
    ensures EdgeBefore(e, edges[0]) ==> SortedEdges([e] + edges)
  {
    if EdgeBefore(e, edges[0]) {
      forall i | 0 <= i < |edges| ensures EdgeBefore(e, edges[i]) {
        assert i > 0 ==> EdgeBefore(edges[0], edges[i]);
      }
    }
  }

  lemma EdgeInFront(first: Edge, rest: seq<Edge>)
    requires SortedEdges(rest) && forall i | 0 <= i < |rest| :: EdgeBefore(first, rest[i])
    ensures SortedEdges([first] + rest)
  {
    hide EdgeBefore;
  }

  lemma {:induction false} InsertEdgeSorted(edges: seq<Edge>, e: Edge)
    requires SortedEdges(edges)
    ensures SortedEdges(InsertEdge(edges, e))
    decreases |edges|
  {
    if edges != [] {
      EdgeAgainstAll(edges, e);
      if !EdgeBefore(e, edges[0]) {
        var rest := InsertEdge(edges[1..], e);
        EdgeOrderTotal(e, edges[0]);
        InsertEdgeSorted(edges[1..], e);
        InsertEdgeMembers(edges[1..], e);
        hide EdgeBefore;
        forall i | 0 <= i < |rest| ensures EdgeBefore(edges[0], rest[i]) {
          assert rest[i] in multiset(rest);
          if rest[i] != e {
            assert rest[i] in multiset(edges[1..]);
            var k :| 0 <= k < |edges[1..]| && edges[1..][k] == rest[i];
            assert edges[k + 1] == rest[i];
          }
        }
        EdgeInFront(edges[0], rest);
      }
    }
  }

  lemma EdgeOrderTotal(a: Edge, b: Edge)
    ensures EdgeBefore(a, b) || EdgeBefore(b, a)
  {
  }

  method SortEdges(edges: seq<Edge>) returns (sorted: seq<Edge>)
    ensures SortedEdges(sorted) && multiset(sorted) == multiset(edges)
  {
    sorted := [];
    for i := 0 to |edges|
      invariant SortedEdges(sorted) && multiset(sorted) == multiset(edges[..i])
    {
      assert edges[..i + 1] == edges[..i] + [edges[i]];
      InsertEdgeSorted(sorted, edges[i]);
      InsertEdgeMembers(sorted, edges[i]);
      sorted := InsertEdge(sorted, edges[i]);
    }
    assert edges[..|edges|] == edges;
  }

  lemma SameBest(phase: Phase, scores: map<nat, Score>, rows: seq<Row>, others: seq<Row>, candidates: seq<Candidate>)
    requires forall row :: row in rows <==> row in others
    requires forall row | row in rows :: SourceOf(phase, row) in scores
    requires BestTargets(phase, scores, rows, candidates)
    ensures BestTargets(phase, scores, others, candidates)
  {
    SameTargets(phase, rows, others);
    forall c | c in candidates ensures IsBest(phase, scores, others, c.id, c.score) {
      assert IsBest(phase, scores, rows, c.id, c.score);
    }
  }

  /** Sorting the matching claims first changes nothing about the specification. */
  lemma SortedExpands(
    plan: Plan, phase: Phase, scores: map<nat, Score>, claims: seq<Row>, sorted: seq<Row>, e: Expanded)
    requires SameRows(sorted, MatchingRows(plan, phase, scores, claims))
    requires forall row | row in sorted :: SourceOf(phase, row) in scores
    requires BestTargets(phase, scores, sorted, e.candidates)
    requires SortedEdges(e.edges) && multiset(e.edges) == multiset(EdgesOf(phase, sorted))
    ensures Expands(plan, phase, scores, claims, e)
  {
    hide BestTargets, SortedEdges;
    MatchingMembers(plan, phase, scores, claims);
    var rows := MatchingRows(plan, phase, scores, claims);
    SameRowsMembers(sorted, rows);
    SameBest(phase, scores, sorted, rows, e.candidates);
    EdgesCount(phase, sorted, rows);
  }

  lemma CandidatesAreBest(
    phase: Phase, scores: map<nat, Score>, rows: seq<Row>, best: map<nat, Score>, candidates: seq<Candidate>)
    requires BestOf(phase, scores, rows, best) && SortedCandidates(candidates)
    requires forall c :: c in candidates <==> c.id in best && best[c.id] == c.score
    ensures BestTargets(phase, scores, rows, candidates)
  {
    forall target | target in Targets(phase, rows) ensures exists c :: c in candidates && c.id == target {
      assert Candidate(target, best[target]) in candidates;
    }
  }

  /**
   Expansion fails on a wrong limit, on an unbound selected claim, or on more than
   a hundred distinct targets, in this order; otherwise it is the one-hop expansion.
   */
  method ExpandPhase(
    handles: seq<FrontierHandle>, limit: nat, plan: Plan, phase: Phase, resources: map<nat, nat>, claims: seq<Row>)
    returns (result: Result<Expanded, ExpansionError>)
    ensures IsOutcome(limit, plan, phase, Scores(handles), resources, claims, result)
    ensures (forall f | f in plan.filters :: 1 <= f.kind <= 5) ==>
              OutcomeByFields(handles, limit, plan, phase, resources, claims, result)
  {
    hide OutcomeByFields, Expands, BestTargets, BestOf, SortedEdges, SortedCandidates, Unbound, MatchingRows, Matches;
    if forall f | f in plan.filters :: 1 <= f.kind <= 5 {
      EveryOutcomeByFields(handles, limit, plan, phase, resources, claims);
    }
    if limit != MAX_ITEMS {
      return Err(LimitMismatch);
    }
    var scores := FrontierScores(handles);
    var matching := SelectClaims(plan, phase, scores, resources, claims);
    if matching.None? {
      return Err(InvalidGraphBinding);
    }
    MatchingMembers(plan, phase, scores, claims);
    var sorted := SortRows(matching.value, plan.order);
    SameRowsMembers(sorted, matching.value);
    SameTargets(phase, sorted, matching.value);
    var selected := SelectTargets(phase, sorted);
    if selected.None? {
      return Err(CandidateLimit);
    }
    var best, edges := ScoreTargets(phase, scores, sorted, selected.value);
    var candidates := SortCandidates(best);
    var sortedEdges := SortEdges(edges);
    CandidatesAreBest(phase, scores, sorted, best, candidates);
    result := Ok(Expanded(candidates, sortedEdges));
    SortedExpands(plan, phase, scores, claims, sorted, result.value);
  }
}
