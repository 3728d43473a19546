/**
 What one hop of expansion returns, field by field of the claim rows: which rows pass
 the filters, which edges and candidates they give, and which of them make it fail.
 */
module ExpansionFields {
  import opened Wrappers
  import opened GraphQuerying
  import opened Expansion

  /** Filters by claim, derivation, object, source document and subject, each on its own field. */
  predicate PassesFilter(row: Row, f: Filter) {
    && (f.kind == 1 ==> row.claim in f.ids)
    && (f.kind == 2 ==> row.derivation in f.derivations)
    && (f.kind == 3 ==> row.target in f.ids)
    && (f.kind == 4 ==> row.source in f.ids)
    && (f.kind == 5 ==> row.subject in f.ids)
  }

  predicate Passes(plan: Plan, row: Row) {
    row.predicateKey in plan.predicates && forall f | f in plan.filters :: PassesFilter(row, f)
  }

  /** The claim and its object are resources of the right kinds. */
  predicate WellBound(resources: map<nat, nat>, row: Row) {
    && row.claim in resources && resources[row.claim] == 2
    && row.target in resources && resources[row.target] == 5
  }

  predicate InFrontier(handles: seq<FrontierHandle>, id: nat) {
    exists h | h in handles :: h.id == id
  }

  /** From a subject to its claim, or from a claim to its object. */
  predicate Reaches(plan: Plan, phase: Phase, handles: seq<FrontierHandle>, row: Row) {
    match phase
    case EntityToClaim => InFrontier(handles, row.subject) && (2 in plan.kinds || 5 in plan.kinds)
    case ClaimToEntity => InFrontier(handles, row.claim) && 5 in plan.kinds
  }

  function EdgeFor(phase: Phase, row: Row): Edge {
    match phase
    case EntityToClaim => Edge(row.subject, row.claim, row.claim, row.predicateKey)
    case ClaimToEntity => Edge(row.claim, row.target, row.claim, row.predicateKey)
  }

  /** The score of a frontier resource; of a repeated one, the last. */
  predicate HasScore(handles: seq<FrontierHandle>, id: nat, score: Score) {
    exists i | 0 <= i < |handles| ::
      handles[i] == FrontierHandle(id, score) && forall j | i < j < |handles| :: handles[j].id != id
  }

  /** The rows that count: they pass, and the frontier reaches them. */
  predicate Counts(plan: Plan, phase: Phase, handles: seq<FrontierHandle>, claims: seq<Row>, row: Row) {
    row in claims && Passes(plan, row) && Reaches(plan, phase, handles, row)
  }

  function TargetIDs(plan: Plan, phase: Phase, handles: seq<FrontierHandle>, claims: seq<Row>): set<nat> {
    set row | row in claims && Passes(plan, row) && Reaches(plan, phase, handles, row) :: EdgeFor(phase, row).to
  }

  /** Some counting row leads to the candidate with this score, and none with a better one. */
  ghost predicate IsBestScore(
    plan: Plan, phase: Phase, handles: seq<FrontierHandle>, claims: seq<Row>, id: nat, score: Score)
  {
    && (exists row :: Counts(plan, phase, handles, claims, row) && EdgeFor(phase, row).to == id
                      && HasScore(handles, EdgeFor(phase, row).from, score))
    && (forall row, other: Score ::
          Counts(plan, phase, handles, claims, row) && EdgeFor(phase, row).to == id ==>
            (HasScore(handles, EdgeFor(phase, row).from, other) ==> other <= score))
  }

  // Agreement with the rows the expansion matches.

  lemma PassesIsSelected(plan: Plan, row: Row)
    requires forall f | f in plan.filters :: 1 <= f.kind <= 5
    ensures Passes(plan, row) <==> IsSelected(plan, row)
  {
    forall f | f in plan.filters ensures PassesFilter(row, f) <==> MatchesFilter(row, f) {
    }
  }

  lemma {:induction false} ScoresHave(handles: seq<FrontierHandle>, id: nat)
    ensures id in Scores(handles) <==> InFrontier(handles, id)
    ensures forall score: Score :: HasScore(handles, id, score) <==> id in Scores(handles) && Scores(handles)[id] == score
    decreases |handles|
  {
    if handles != [] {
      var n := |handles| - 1;
      var front := handles[..n];
      assert handles == front + [handles[n]];
      ScoresHave(front, id);
      forall score: Score
        ensures HasScore(handles, id, score) <==>
                  if handles[n].id == id then score == handles[n].score else HasScore(front, id, score)
      {
        LastScore(handles, id, score);
      }
      hide HasScore;
    }
  }

  lemma LastScore(handles: seq<FrontierHandle>, id: nat, score: Score)
    requires handles != []
    ensures var n := |handles| - 1;
            HasScore(handles, id, score) <==>
              if handles[n].id == id then score == handles[n].score else HasScore(handles[..n], id, score)
  {
    var n := |handles| - 1;
    var front := handles[..n];
    if handles[n].id == id {
      if score == handles[n].score {
        assert handles[n] == FrontierHandle(id, score);
      }
    } else {
      if HasScore(handles, id, score) {
        var i :| 0 <= i < |handles| && handles[i] == FrontierHandle(id, score)
              && forall j | i < j < |handles| :: handles[j].id != id;
        assert front[i] == FrontierHandle(id, score);
      }
      if HasScore(front, id, score) {
        var i :| 0 <= i < n && front[i] == FrontierHandle(id, score) && forall j | i < j < n :: front[j].id != id;
        assert handles[i] == FrontierHandle(id, score);
        forall j | i < j < |handles| ensures handles[j].id != id {
          assert j < n ==> handles[j] == front[j];
        }
      }
    }
  }

  lemma CountsMatches(plan: Plan, phase: Phase, handles: seq<FrontierHandle>, claims: seq<Row>, row: Row)
    requires forall f | f in plan.filters :: 1 <= f.kind <= 5
    ensures Counts(plan, phase, handles, claims, row)
       <==> row in claims && Matches(plan, phase, Scores(handles), row)
    ensures EdgeFor(phase, row) == EdgeOf(phase, row)
  {
    hide Passes, IsSelected, InFrontier, Scores;
    PassesIsSelected(plan, row);
    ScoresHave(handles, row.subject);
    ScoresHave(handles, row.claim);
  }

  lemma MatchingCounts(plan: Plan, phase: Phase, handles: seq<FrontierHandle>, claims: seq<Row>)
    requires forall f | f in plan.filters :: 1 <= f.kind <= 5
    ensures forall row :: row in MatchingRows(plan, phase, Scores(handles), claims)
                     <==> Counts(plan, phase, handles, claims, row)
    ensures Targets(phase, MatchingRows(plan, phase, Scores(handles), claims)) == TargetIDs(plan, phase, handles, claims)
  {
    hide MatchingRows, Scores, Passes, Reaches, Matches;
    MatchingMembers(plan, phase, Scores(handles), claims);
    forall row ensures row in MatchingRows(plan, phase, Scores(handles), claims)
                  <==> Counts(plan, phase, handles, claims, row)
    {
      CountsMatches(plan, phase, handles, claims, row);
    }
  }

  /** The positions of the rows that count. */
  function Counted(plan: Plan, phase: Phase, handles: seq<FrontierHandle>, claims: seq<Row>): set<nat> {
    set i: nat | i < |claims| && Passes(plan, claims[i]) && Reaches(plan, phase, handles, claims[i])
  }

  lemma {:induction false} OneEdgeEach(plan: Plan, phase: Phase, handles: seq<FrontierHandle>, claims: seq<Row>)
    requires forall f | f in plan.filters :: 1 <= f.kind <= 5
    ensures |MatchingRows(plan, phase, Scores(handles), claims)| == |Counted(plan, phase, handles, claims)|
    decreases |claims|
  {
    if claims != [] {
      var n := |claims| - 1;
      OneEdgeEach(plan, phase, handles, claims[..n]);
      CountsMatches(plan, phase, handles, claims, claims[n]);
      hide Passes, Reaches, Matches, Scores;
      var before := Counted(plan, phase, handles, claims[..n]);
      assert claims[n] in claims;
      assert Counted(plan, phase, handles, claims)
          == if Counts(plan, phase, handles, claims, claims[n]) then before + {n} else before;
    }
  }

  lemma EdgesByFields(
    plan: Plan, phase: Phase, handles: seq<FrontierHandle>, claims: seq<Row>, e: Expanded, edge: Edge)
    requires forall f | f in plan.filters :: 1 <= f.kind <= 5
    requires Expands(plan, phase, Scores(handles), claims, e)
    ensures edge in e.edges <==> exists row :: Counts(plan, phase, handles, claims, row) && edge == EdgeFor(phase, row)
  {
    var rows := MatchingRows(plan, phase, Scores(handles), claims);
    MatchingCounts(plan, phase, handles, claims);
    assert edge in e.edges <==> edge in EdgesOf(phase, rows) by {
      assert edge in e.edges <==> edge in multiset(e.edges);
      assert edge in EdgesOf(phase, rows) <==> edge in multiset(EdgesOf(phase, rows));
    }
    hide Counts, Expands, MatchingRows;
    if edge in EdgesOf(phase, rows) {
      var i :| 0 <= i < |rows| && edge == EdgeOf(phase, rows[i]);
      assert rows[i] in rows;
    }
    if row :| Counts(plan, phase, handles, claims, row) && edge == EdgeFor(phase, row) {
      var i :| 0 <= i < |rows| && rows[i] == row;
      assert EdgesOf(phase, rows)[i] == edge;
    }
  }

  lemma BestByFields(
    plan: Plan, phase: Phase, handles: seq<FrontierHandle>, claims: seq<Row>, rows: seq<Row>, id: nat, score: Score)
    requires forall row :: row in rows <==> Counts(plan, phase, handles, claims, row)
    requires forall row | row in rows :: SourceOf(phase, row) in Scores(handles)
    requires IsBest(phase, Scores(handles), rows, id, score)
    ensures IsBestScore(plan, phase, handles, claims, id, score)
  {
    hide Counts, Scores, HasScore;
    forall row | row in rows
      ensures EdgeFor(phase, row).from == SourceOf(phase, row) && EdgeFor(phase, row).to == TargetOf(phase, row)
      ensures forall other: Score :: HasScore(handles, SourceOf(phase, row), other) <==>
                                       Scores(handles)[SourceOf(phase, row)] == other
    {
      ScoresHave(handles, SourceOf(phase, row));
    }
    var best :| best in rows && TargetOf(phase, best) == id && Scores(handles)[SourceOf(phase, best)] == score;
    assert Counts(plan, phase, handles, claims, best) && HasScore(handles, EdgeFor(phase, best).from, score);
  }

  lemma CandidatesByFields(
    plan: Plan, phase: Phase, handles: seq<FrontierHandle>, claims: seq<Row>, e: Expanded)
    requires forall f | f in plan.filters :: 1 <= f.kind <= 5
    requires Expands(plan, phase, Scores(handles), claims, e)
    ensures forall c | c in e.candidates :: IsBestScore(plan, phase, handles, claims, c.id, c.score)
    ensures forall id :: id in TargetIDs(plan, phase, handles, claims) <==> exists c :: c in e.candidates && c.id == id
  {
    MatchingMembers(plan, phase, Scores(handles), claims);
    MatchingCounts(plan, phase, handles, claims);
    var rows := MatchingRows(plan, phase, Scores(handles), claims);
    assert BestTargets(phase, Scores(handles), rows, e.candidates);
    hide MatchingRows, Counts, Scores, IsBestScore, TargetIDs, Expands;
    forall c | c in e.candidates
      ensures IsBestScore(plan, phase, handles, claims, c.id, c.score) && c.id in Targets(phase, rows)
    {
      BestByFields(plan, phase, handles, claims, rows, c.id, c.score);
    }
  }

  /** Candidates by falling score and then by id; edges by from, to, claim and predicate. */
  predicate InOrder(e: Expanded) {
    && (forall i, j | 0 <= i < j < |e.candidates| ::
          var a, b := e.candidates[i], e.candidates[j];
          a.score > b.score || (a.score == b.score && a.id < b.id))
    && (forall i, j | 0 <= i < j < |e.edges| ::
          var a, b := e.edges[i], e.edges[j];
          || a.from < b.from
          || (a.from == b.from && a.to < b.to)
          || (a.from == b.from && a.to == b.to && a.claim < b.claim)
          || (a.from == b.from && a.to == b.to && a.claim == b.claim && a.predicateKey <= b.predicateKey))
  }

  lemma ExpandsInOrder(plan: Plan, phase: Phase, scores: map<nat, Score>, claims: seq<Row>, e: Expanded)
    requires Expands(plan, phase, scores, claims, e)
    ensures InOrder(e)
  {
    hide MatchingRows, IsBest;
    assert SortedCandidates(e.candidates) && SortedEdges(e.edges);
    forall i, j | 0 <= i < j < |e.edges| ensures EdgeBefore(e.edges[i], e.edges[j]) {
    }
  }

  /** Everything a caller can learn from one hop, from the rows alone. */
  ghost predicate OutcomeByFields(
    handles: seq<FrontierHandle>, limit: nat, plan: Plan, phase: Phase, resources: map<nat, nat>, claims: seq<Row>,
    result: Result<Expanded, ExpansionError>)
  {
    && (result == Err(LimitMismatch) <==> limit != 100)
    && (result == Err(InvalidGraphBinding) <==>
          limit == 100 && exists row | row in claims :: Passes(plan, row) && !WellBound(resources, row))
    && (result == Err(CandidateLimit) <==>
          && limit == 100 && (forall row | row in claims && Passes(plan, row) :: WellBound(resources, row))
          && |TargetIDs(plan, phase, handles, claims)| > 100)
    && (result.Ok? ==>
          && (forall edge :: edge in result.value.edges <==>
                exists row :: Counts(plan, phase, handles, claims, row) && edge == EdgeFor(phase, row))
          && |result.value.edges| == |Counted(plan, phase, handles, claims)|
          && (forall id :: (exists c :: c in result.value.candidates && c.id == id) <==>
                           id in TargetIDs(plan, phase, handles, claims))
          && (forall c | c in result.value.candidates ::
                IsBestScore(plan, phase, handles, claims, c.id, c.score))
          && InOrder(result.value))
  }

  lemma AsManyEdges(plan: Plan, phase: Phase, handles: seq<FrontierHandle>, claims: seq<Row>, e: Expanded)
    requires Expands(plan, phase, Scores(handles), claims, e)
    ensures |e.edges| == |MatchingRows(plan, phase, Scores(handles), claims)|
  {
    hide MatchingRows, BestTargets, SortedEdges;
    var rows := MatchingRows(plan, phase, Scores(handles), claims);
    assert |e.edges| == |multiset(e.edges)| && |multiset(EdgesOf(phase, rows))| == |EdgesOf(phase, rows)|;
  }

  lemma UnboundByFields(plan: Plan, resources: map<nat, nat>, claims: seq<Row>)
    requires forall f | f in plan.filters :: 1 <= f.kind <= 5
    ensures Unbound(plan, resources, claims)
       <==> exists row | row in claims :: Passes(plan, row) && !WellBound(resources, row)
  {
    hide Passes, IsSelected;
    forall row: Row ensures Passes(plan, row) <==> IsSelected(plan, row) {
      PassesIsSelected(plan, row);
    }
  }

  /**
   Whatever a hop returns is exactly what the fields of the rows call for: no filter
   reads another's field, no phase another's direction.
   */
  lemma ExpandsByFields(
    handles: seq<FrontierHandle>, limit: nat, plan: Plan, phase: Phase, resources: map<nat, nat>, claims: seq<Row>,
    result: Result<Expanded, ExpansionError>)
    requires forall f | f in plan.filters :: 1 <= f.kind <= 5
    requires IsOutcome(limit, plan, phase, Scores(handles), resources, claims, result)
    ensures OutcomeByFields(handles, limit, plan, phase, resources, claims, result)
  {
    hide Passes, WellBound, Counts, IsBestScore, Expands, Unbound, MatchingRows, TargetIDs, Counted, InOrder;
    UnboundByFields(plan, resources, claims);
    MatchingCounts(plan, phase, handles, claims);
    if result.Ok? {
      CandidatesByFields(plan, phase, handles, claims, result.value);
      OneEdgeEach(plan, phase, handles, claims);
      AsManyEdges(plan, phase, handles, claims, result.value);
      ExpandsInOrder(plan, phase, Scores(handles), claims, result.value);
      forall edge ensures edge in result.value.edges <==>
                            exists row :: Counts(plan, phase, handles, claims, row) && edge == EdgeFor(phase, row)
      {
        EdgesByFields(plan, phase, handles, claims, result.value, edge);
      }
    }
  }

  lemma EveryOutcomeByFields(
    handles: seq<FrontierHandle>, limit: nat, plan: Plan, phase: Phase, resources: map<nat, nat>, claims: seq<Row>)
    requires forall f | f in plan.filters :: 1 <= f.kind <= 5
    ensures forall result | IsOutcome(limit, plan, phase, Scores(handles), resources, claims, result) ::
              OutcomeByFields(handles, limit, plan, phase, resources, claims, result)
  {
    hide IsOutcome, OutcomeByFields;
    forall result | IsOutcome(limit, plan, phase, Scores(handles), resources, claims, result)
      ensures OutcomeByFields(handles, limit, plan, phase, resources, claims, result)
    {
      ExpandsByFields(handles, limit, plan, phase, resources, claims, result);
    }
  }

  /** A valid plan has no other filters. */
  lemma ValidPlanFilters(plan: Plan, digest: nat -> nat)
    requires ValidPlan(plan, digest)
    ensures forall f | f in plan.filters :: 1 <= f.kind <= 5
  {
  }
}
