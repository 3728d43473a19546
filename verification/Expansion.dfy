/**
 One hop of graph expansion: from a scored frontier over the selected claims to the
 scored targets and the edges that reach them.
 */
module Expansion {
  import opened Wrappers
  import opened Canonical
  import opened GraphQuerying

  const MAX_ITEMS := 100
  const KIND_CLAIM := 2
  const KIND_ENTITY := 5

  type Score = s: real | 0.0 <= s <= 1.0 witness 0.0

  datatype Phase = EntityToClaim | ClaimToEntity

  datatype FrontierHandle = FrontierHandle(id: nat, score: Score)

  /** The stable identities of one claim. */
  datatype Row = Row(claim: nat, subject: nat, predicateKey: nat, target: nat, source: nat, derivation: nat)

  datatype Edge = Edge(from: nat, to: nat, claim: nat, predicateKey: nat)

  datatype Candidate = Candidate(id: nat, score: Score)

  datatype ExpansionError = LimitMismatch | InvalidGraphBinding | CandidateLimit

  datatype Expanded = Expanded(candidates: seq<Candidate>, edges: seq<Edge>)

  // Selecting claims.

  /** Filter kinds in lexical order: claim, derivation, object, source document, subject. */
  predicate MatchesFilter(row: Row, f: Filter) {
    if f.kind == DERIVATION_FILTER then row.derivation in f.derivations
    else if f.kind == 1 then row.claim in f.ids
    else if f.kind == 3 then row.target in f.ids
    else if f.kind == 4 then row.source in f.ids
    else row.subject in f.ids
  }

  predicate IsSelected(plan: Plan, row: Row) {
    row.predicateKey in plan.predicates && forall f | f in plan.filters :: MatchesFilter(row, f)
  }

  /** The claim and its object are known resources of the right kinds. */
  predicate IsComplete(resources: map<nat, nat>, row: Row) {
    && row.claim in resources && resources[row.claim] == KIND_CLAIM
    && row.target in resources && resources[row.target] == KIND_ENTITY
  }

  function SourceOf(phase: Phase, row: Row): nat {
    if phase.EntityToClaim? then row.subject else row.claim
  }

  function TargetOf(phase: Phase, row: Row): nat {
    if phase.EntityToClaim? then row.claim else row.target
  }

  predicate KindAllowed(plan: Plan, phase: Phase) {
    KIND_ENTITY in plan.kinds || (phase.EntityToClaim? && KIND_CLAIM in plan.kinds)
  }

  function Scores(handles: seq<FrontierHandle>): map<nat, Score> {
    if handles == [] then map[]
    else Scores(handles[..|handles| - 1])[handles[|handles| - 1].id := handles[|handles| - 1].score]
  }

  predicate Matches(plan: Plan, phase: Phase, scores: map<nat, Score>, row: Row) {
    IsSelected(plan, row) && SourceOf(phase, row) in scores && KindAllowed(plan, phase)
  }

  function EdgeOf(phase: Phase, row: Row): Edge {
    Edge(SourceOf(phase, row), TargetOf(phase, row), row.claim, row.predicateKey)
  }

  function MatchingRows(plan: Plan, phase: Phase, scores: map<nat, Score>, claims: seq<Row>): seq<Row> {
    if claims == [] then []
    else
      MatchingRows(plan, phase, scores, claims[..|claims| - 1])
      + (if Matches(plan, phase, scores, claims[|claims| - 1]) then [claims[|claims| - 1]] else [])
  }

  function EdgesOf(phase: Phase, rows: seq<Row>): seq<Edge> {
    seq(|rows|, i requires 0 <= i < |rows| => EdgeOf(phase, rows[i]))
  }

  // The result, independently of any order.

  predicate EdgeBefore(a: Edge, b: Edge) {
    if a.from != b.from then a.from < b.from
    else if a.to != b.to then a.to < b.to
    else if a.claim != b.claim then a.claim < b.claim
    else a.predicateKey <= b.predicateKey
  }

  predicate CandidateBefore(a: Candidate, b: Candidate) {
    a.score > b.score || (a.score == b.score && a.id < b.id)
  }

  predicate SortedEdges(edges: seq<Edge>) {
    forall i, j | 0 <= i < j < |edges| :: EdgeBefore(edges[i], edges[j])
  }

  predicate SortedCandidates(candidates: seq<Candidate>) {
    forall i, j | 0 <= i < j < |candidates| :: CandidateBefore(candidates[i], candidates[j])
  }

  function Targets(phase: Phase, rows: seq<Row>): set<nat> {
    set row | row in rows :: TargetOf(phase, row)
  }

  /** The best score among the rows that reach the target. */
  predicate IsBest(phase: Phase, scores: map<nat, Score>, rows: seq<Row>, target: nat, score: Score)
    requires forall row | row in rows :: SourceOf(phase, row) in scores
  {
    && (exists row | row in rows :: TargetOf(phase, row) == target && scores[SourceOf(phase, row)] == score)
    && (forall row | row in rows :: TargetOf(phase, row) == target ==> scores[SourceOf(phase, row)] <= score)
  }

  /** Exactly the targets of the rows, each with its best score, best first. */
  ghost predicate BestTargets(
    phase: Phase, scores: map<nat, Score>, rows: seq<Row>, candidates: seq<Candidate>)
    requires forall row | row in rows :: SourceOf(phase, row) in scores
  {
    && SortedCandidates(candidates)
    && (forall c | c in candidates :: IsBest(phase, scores, rows, c.id, c.score))
    && (forall target | target in Targets(phase, rows) :: exists c :: c in candidates && c.id == target)
  }

  lemma {:induction false} MatchingMembers(plan: Plan, phase: Phase, scores: map<nat, Score>, claims: seq<Row>)
    ensures forall row :: row in MatchingRows(plan, phase, scores, claims)
                     <==> row in claims && Matches(plan, phase, scores, row)
    ensures forall row | row in MatchingRows(plan, phase, scores, claims) :: SourceOf(phase, row) in scores
    decreases |claims|
  {
    if claims != [] {
      MatchingMembers(plan, phase, scores, claims[..|claims| - 1]);
      assert claims == claims[..|claims| - 1] + [claims[|claims| - 1]];
    }
  }

  /** The one-hop specification. */
  ghost predicate Expands(plan: Plan, phase: Phase, scores: map<nat, Score>, claims: seq<Row>, e: Expanded) {
    MatchingMembers(plan, phase, scores, claims);
    var rows := MatchingRows(plan, phase, scores, claims);
    && BestTargets(phase, scores, rows, e.candidates)
    && SortedEdges(e.edges)
    && multiset(e.edges) == multiset(EdgesOf(phase, rows))
  }

  /** Some selected claim, whether or not the frontier reaches it, is not properly bound. */
  predicate Unbound(plan: Plan, resources: map<nat, nat>, claims: seq<Row>) {
    exists row | row in claims :: IsSelected(plan, row) && !IsComplete(resources, row)
  }

  predicate TooMany(plan: Plan, phase: Phase, scores: map<nat, Score>, claims: seq<Row>) {
    |Targets(phase, MatchingRows(plan, phase, scores, claims))| > MAX_ITEMS
  }

  /** Which failure is reported, and otherwise what is returned. */
  ghost predicate IsOutcome(
    limit: nat, plan: Plan, phase: Phase, scores: map<nat, Score>, resources: map<nat, nat>, claims: seq<Row>,
    result: Result<Expanded, ExpansionError>)
  {
    if limit != MAX_ITEMS then result == Err(LimitMismatch)
    else if Unbound(plan, resources, claims) then result == Err(InvalidGraphBinding)
    else if TooMany(plan, phase, scores, claims) then result == Err(CandidateLimit)
    else result.Ok? && Expands(plan, phase, scores, claims, result.value)
  }

  // The result is unique, whatever the order of the claims.

  lemma EdgeOrderStrict(a: Edge, b: Edge)
    requires EdgeBefore(a, b) && EdgeBefore(b, a)
    ensures a == b
  {
  }

  lemma EdgeTail(s: seq<Edge>)
    requires s != []
    ensures multiset(s[1..]) == multiset(s) - multiset{s[0]}
  {
    assert s == [s[0]] + s[1..];
  }

  lemma SameFirstEdge(s: seq<Edge>, t: seq<Edge>)
    requires SortedEdges(s) && SortedEdges(t) && multiset(s) == multiset(t) && s != [] && t != []
    ensures s[0] == t[0]
  {
    assert s[0] in multiset(t) && t[0] in multiset(s);
    var i :| 0 <= i < |t| && t[i] == s[0];
    var j :| 0 <= j < |s| && s[j] == t[0];
    hide EdgeBefore;
    if i > 0 && j > 0 {
      EdgeOrderStrict(s[0], t[0]);
    }
  }

  lemma {:induction false} SortedEdgesUnique(s: seq<Edge>, t: seq<Edge>)
    requires SortedEdges(s) && SortedEdges(t) && multiset(s) == multiset(t)
    ensures s == t
    decreases |s|
  {
    assert |s| == |multiset(s)| && |t| == |multiset(t)|;
    if s != [] {
      SameFirstEdge(s, t);
      EdgeTail(s);
      EdgeTail(t);
      hide EdgeBefore;
      assert SortedEdges(s[1..]) && SortedEdges(t[1..]);
      hide SortedEdges;
      SortedEdgesUnique(s[1..], t[1..]);
      assert s == [s[0]] + s[1..] && t == [t[0]] + t[1..];
    }
  }

  lemma {:induction false} SortedCandidatesUnique(s: seq<Candidate>, t: seq<Candidate>)
    requires SortedCandidates(s) && SortedCandidates(t) && forall c :: c in s <==> c in t
    ensures s == t
    decreases |s|
  {
    if s == [] {
      NoneIsEmpty(t);
    } else {
      assert s[0] in t && t != [] && t[0] in s;
      assert s[0] == t[0];
      forall c ensures c in s[1..] <==> c in t[1..] {
        CandidateTail(s, c);
        CandidateTail(t, c);
      }
      SortedCandidatesUnique(s[1..], t[1..]);
      assert s == [s[0]] + s[1..] && t == [t[0]] + t[1..];
    }
  }

  lemma CandidateTail(s: seq<Candidate>, c: Candidate)
    requires s != [] && SortedCandidates(s)
    ensures c in s[1..] <==> c in s && c != s[0]
  {
    if c in s && c != s[0] {
      var i :| 0 <= i < |s| && s[i] == c;
      assert s[1..][i - 1] == c;
    }
  }

  predicate SameRows(rows: seq<Row>, others: seq<Row>) {
    multiset(rows) == multiset(others)
  }

  lemma SameRowsMembers(rows: seq<Row>, others: seq<Row>)
    requires SameRows(rows, others)
    ensures forall row :: row in rows <==> row in others
  {
    forall row ensures row in rows <==> row in others {
      assert row in rows <==> row in multiset(rows);
      assert row in others <==> row in multiset(others);
    }
  }

  lemma CandidateIncluded(
    phase: Phase, scores: map<nat, Score>, rows: seq<Row>, others: seq<Row>, s: seq<Candidate>, t: seq<Candidate>,
    c: Candidate)
    requires forall row | row in rows :: SourceOf(phase, row) in scores
    requires forall row | row in others :: SourceOf(phase, row) in scores
    requires forall row :: row in rows <==> row in others
    requires BestTargets(phase, scores, rows, s) && BestTargets(phase, scores, others, t) && c in s
    ensures c in t
  {
    assert IsBest(phase, scores, rows, c.id, c.score);
    assert c.id in Targets(phase, others);
    var d :| d in t && d.id == c.id;
    assert IsBest(phase, scores, others, d.id, d.score);
    assert d == c;
  }

  lemma BestTargetsUnique(
    phase: Phase, scores: map<nat, Score>, rows: seq<Row>, others: seq<Row>, s: seq<Candidate>, t: seq<Candidate>)
    requires forall row | row in rows :: SourceOf(phase, row) in scores
    requires forall row | row in others :: SourceOf(phase, row) in scores
    requires forall row :: row in rows <==> row in others
    requires BestTargets(phase, scores, rows, s) && BestTargets(phase, scores, others, t)
    ensures s == t
  {
    forall c ensures c in s <==> c in t {
      if c in s {
        CandidateIncluded(phase, scores, rows, others, s, t, c);
      }
      if c in t {
        CandidateIncluded(phase, scores, others, rows, t, s, c);
      }
    }
    SortedCandidatesUnique(s, t);
  }

  lemma {:induction false} MatchingCount(plan: Plan, phase: Phase, scores: map<nat, Score>, claims: seq<Row>, row: Row)
    ensures multiset(MatchingRows(plan, phase, scores, claims))[row]
         == if Matches(plan, phase, scores, row) then multiset(claims)[row] else 0
    decreases |claims|
  {
    if claims != [] {
      MatchingCount(plan, phase, scores, claims[..|claims| - 1], row);
      assert claims == claims[..|claims| - 1] + [claims[|claims| - 1]];
    }
  }

  function Without(rows: seq<Row>, i: nat): seq<Row>
    requires i < |rows|
  {
    rows[..i] + rows[i + 1..]
  }

  lemma EdgesConcat(phase: Phase, rows: seq<Row>, more: seq<Row>)
    ensures EdgesOf(phase, rows + more) == EdgesOf(phase, rows) + EdgesOf(phase, more)
  {
  }

  lemma SplitAt(phase: Phase, rows: seq<Row>, i: nat)
    requires i < |rows|
    ensures multiset(Without(rows, i)) == multiset(rows) - multiset{rows[i]}
    ensures multiset(EdgesOf(phase, rows))
         == multiset(EdgesOf(phase, Without(rows, i))) + multiset{EdgeOf(phase, rows[i])}
  {
    assert rows == rows[..i] + ([rows[i]] + rows[i + 1..]);
    EdgesConcat(phase, rows[..i], [rows[i]] + rows[i + 1..]);
    EdgesConcat(phase, [rows[i]], rows[i + 1..]);
    EdgesConcat(phase, rows[..i], rows[i + 1..]);
    assert EdgesOf(phase, [rows[i]]) == [EdgeOf(phase, rows[i])];
    hide EdgesOf;
  }

  lemma {:induction false} EdgesCount(phase: Phase, rows: seq<Row>, others: seq<Row>)
    requires SameRows(rows, others)
    ensures multiset(EdgesOf(phase, rows)) == multiset(EdgesOf(phase, others))
    decreases |rows|
  {
    assert |rows| == |multiset(rows)| && |others| == |multiset(others)|;
    if rows != [] {
      assert rows[0] in multiset(others);
      var i :| 0 <= i < |others| && others[i] == rows[0];
      SplitAt(phase, rows, 0);
      SplitAt(phase, others, i);
      hide EdgesOf;
      EdgesCount(phase, Without(rows, 0), Without(others, i));
    }
  }

  /** The order clauses of the plan play no part in what matches. */
  predicate SamePlan(plan: Plan, other: Plan) {
    plan.(order := []) == other.(order := [])
  }

  lemma {:induction false} MatchingIgnoresOrder(
    plan: Plan, other: Plan, phase: Phase, scores: map<nat, Score>, claims: seq<Row>)
    requires SamePlan(plan, other)
    ensures MatchingRows(plan, phase, scores, claims) == MatchingRows(other, phase, scores, claims)
    decreases |claims|
  {
    assert plan.predicates == other.predicates && plan.filters == other.filters && plan.kinds == other.kinds;
    if claims != [] {
      MatchingIgnoresOrder(plan, other, phase, scores, claims[..|claims| - 1]);
    }
  }

  lemma SameMatching(
    plan: Plan, other: Plan, phase: Phase, scores: map<nat, Score>, claims: seq<Row>, permuted: seq<Row>)
    requires SamePlan(plan, other) && SameRows(claims, permuted)
    ensures SameRows(MatchingRows(plan, phase, scores, claims), MatchingRows(other, phase, scores, permuted))
  {
    MatchingIgnoresOrder(plan, other, phase, scores, permuted);
    var rows, others := MatchingRows(plan, phase, scores, claims), MatchingRows(plan, phase, scores, permuted);
    forall row ensures multiset(rows)[row] == multiset(others)[row] {
      MatchingCount(plan, phase, scores, claims, row);
      MatchingCount(plan, phase, scores, permuted, row);
    }
  }

  /**
   The expansion depends neither on the order of the claim list nor on the plan's
   order clauses.
   */
  lemma ExpansionUnique(
    plan: Plan, other: Plan, phase: Phase, scores: map<nat, Score>, claims: seq<Row>, permuted: seq<Row>,
    e: Expanded, f: Expanded)
    requires SamePlan(plan, other) && SameRows(claims, permuted)
    requires Expands(plan, phase, scores, claims, e) && Expands(other, phase, scores, permuted, f)
    ensures e == f
  {
    MatchingMembers(plan, phase, scores, claims);
    MatchingMembers(other, phase, scores, permuted);
    SameMatching(plan, other, phase, scores, claims, permuted);
    var rows, others := MatchingRows(plan, phase, scores, claims), MatchingRows(other, phase, scores, permuted);
    SameRowsMembers(rows, others);
    hide BestTargets, SortedEdges, MatchingRows, Matches;
    BestTargetsUnique(phase, scores, rows, others, e.candidates, f.candidates);
    EdgesCount(phase, rows, others);
    SortedEdgesUnique(e.edges, f.edges);
  }

  lemma SameTargets(phase: Phase, rows: seq<Row>, others: seq<Row>)
    requires forall row :: row in rows <==> row in others
    ensures Targets(phase, rows) == Targets(phase, others)
  {
  }

  /** Nor do the failures: an order cannot decide whether expansion fails, or how. */
  lemma FailuresIgnoreOrder(
    plan: Plan, other: Plan, phase: Phase, scores: map<nat, Score>, resources: map<nat, nat>, claims: seq<Row>,
    permuted: seq<Row>)
    requires SamePlan(plan, other) && SameRows(claims, permuted)
    ensures Unbound(plan, resources, claims) <==> Unbound(other, resources, permuted)
    ensures TooMany(plan, phase, scores, claims) <==> TooMany(other, phase, scores, permuted)
  {
    SameRowsMembers(claims, permuted);
    assert forall row :: IsSelected(plan, row) <==> IsSelected(other, row) by {
      assert plan.predicates == other.predicates && plan.filters == other.filters;
    }
    SameMatching(plan, other, phase, scores, claims, permuted);
    var rows, others := MatchingRows(plan, phase, scores, claims), MatchingRows(other, phase, scores, permuted);
    SameRowsMembers(rows, others);
    SameTargets(phase, rows, others);
  }

  /** Success or failure, the outcome is a function of the set of rows. */
  lemma OutcomeUnique(
    limit: nat, plan: Plan, other: Plan, phase: Phase, scores: map<nat, Score>, resources: map<nat, nat>,
    claims: seq<Row>, permuted: seq<Row>, result: Result<Expanded, ExpansionError>,
    result': Result<Expanded, ExpansionError>)
    requires SamePlan(plan, other) && SameRows(claims, permuted)
    requires IsOutcome(limit, plan, phase, scores, resources, claims, result)
    requires IsOutcome(limit, other, phase, scores, resources, permuted, result')
    ensures result == result'
  {
    hide SamePlan, SameRows, Unbound, TooMany, Expands;
    FailuresIgnoreOrder(plan, other, phase, scores, resources, claims, permuted);
    if result.Ok? {
      ExpansionUnique(plan, other, phase, scores, claims, permuted, result.value, result'.value);
    }
  }

  /** Edges and candidates complete each other: every edge has its candidate and every candidate an edge. */
  lemma MutuallyComplete(plan: Plan, phase: Phase, scores: map<nat, Score>, claims: seq<Row>, e: Expanded)
    requires Expands(plan, phase, scores, claims, e)
    ensures forall edge | edge in e.edges ::
              edge.from in scores && exists c :: c in e.candidates && c.id == edge.to && scores[edge.from] <= c.score
    ensures forall c | c in e.candidates ::
              exists edge :: edge in e.edges && edge.to == c.id && edge.from in scores && scores[edge.from] == c.score
  {
    MatchingMembers(plan, phase, scores, claims);
    var rows := MatchingRows(plan, phase, scores, claims);
    forall edge | edge in e.edges
      ensures edge.from in scores
      ensures exists c :: c in e.candidates && c.id == edge.to && scores[edge.from] <= c.score
    {
      EdgeHasRow(phase, rows, e.edges, edge);
      var row :| row in rows && EdgeOf(phase, row) == edge;
      assert edge.to in Targets(phase, rows);
      var c :| c in e.candidates && c.id == edge.to;
      assert IsBest(phase, scores, rows, c.id, c.score);
    }
    forall c | c in e.candidates
      ensures exists edge :: edge in e.edges && edge.to == c.id && edge.from in scores && scores[edge.from] == c.score
    {
      assert IsBest(phase, scores, rows, c.id, c.score);
      var row :| row in rows && TargetOf(phase, row) == c.id && scores[SourceOf(phase, row)] == c.score;
      RowHasEdge(phase, rows, e.edges, row);
      assert EdgeOf(phase, row).to == c.id;
    }
  }

  lemma EdgeHasRow(phase: Phase, rows: seq<Row>, edges: seq<Edge>, edge: Edge)
    requires multiset(edges) == multiset(EdgesOf(phase, rows)) && edge in edges
    ensures exists row :: row in rows && EdgeOf(phase, row) == edge
  {
    assert edge in multiset(EdgesOf(phase, rows));
    var i :| 0 <= i < |rows| && EdgesOf(phase, rows)[i] == edge;
    assert rows[i] in rows;
  }

  lemma RowHasEdge(phase: Phase, rows: seq<Row>, edges: seq<Edge>, row: Row)
    requires multiset(edges) == multiset(EdgesOf(phase, rows)) && row in rows
    ensures EdgeOf(phase, row) in edges
  {
    var i :| 0 <= i < |rows| && rows[i] == row;
    assert EdgesOf(phase, rows)[i] in multiset(edges);
  }
}
