/** The three-colour search for cycles among derived resources is exact. */
module ProvenanceCycles {

  type ResourceID = nat

  /** The supports of every claim, entity and derived artifact, each a list of evidence. */
  type ProvenanceMap = map<ResourceID, seq<seq<ResourceID>>>

  /** One derived resource is evidence of another; other evidence does not count. */
  predicate Edge(g: ProvenanceMap, a: ResourceID, b: ResourceID) {
    a in g && b in g && exists support | support in g[a] :: b in support
  }

  predicate IsPath(g: ProvenanceMap, path: seq<ResourceID>) {
    forall i | 0 <= i < |path| - 1 :: Edge(g, path[i], path[i + 1])
  }

  predicate IsCycle(g: ProvenanceMap, path: seq<ResourceID>) {
    |path| >= 2 && path[0] == path[|path| - 1] && IsPath(g, path)
  }

  ghost predicate HasCycle(g: ProvenanceMap) {
    exists path :: IsCycle(g, path)
  }

  /** `b` stands at some place in some support of `a`. */
  predicate IsEvidence(g: ProvenanceMap, a: ResourceID, b: ResourceID) {
    a in g && b in g && exists j, k :: 0 <= j < |g[a]| && 0 <= k < |g[a][j]| && g[a][j][k] == b
  }

  lemma EdgeIsEvidence(g: ProvenanceMap, a: ResourceID, b: ResourceID)
    ensures Edge(g, a, b) <==> IsEvidence(g, a, b)
  {
    if Edge(g, a, b) {
      var support :| support in g[a] && b in support;
      var j :| 0 <= j < |g[a]| && g[a][j] == support;
      var k :| 0 <= k < |support| && support[k] == b;
      assert g[a][j][k] == b;
    }
    if IsEvidence(g, a, b) {
      var j, k :| 0 <= j < |g[a]| && 0 <= k < |g[a][j]| && g[a][j][k] == b;
      assert g[a][j] in g[a] && b in g[a][j];
    }
  }

  /** A cycle is a way from a derived resource back to itself, support by support. */
  lemma CycleIsEvidence(g: ProvenanceMap, path: seq<ResourceID>)
    ensures IsCycle(g, path) <==>
              && |path| >= 2 && path[0] == path[|path| - 1]
              && forall i | 0 <= i < |path| - 1 :: IsEvidence(g, path[i], path[i + 1])
  {
    hide Edge, IsEvidence;
    forall i | 0 <= i < |path| - 1 ensures Edge(g, path[i], path[i + 1]) <==> IsEvidence(g, path[i], path[i + 1]) {
      EdgeIsEvidence(g, path[i], path[i + 1]);
    }
  }

  /** Every edge leads to something listed earlier. */
  predicate Layered(g: ProvenanceMap, order: seq<ResourceID>) {
    forall i, b | 0 <= i < |order| && b in g && Edge(g, order[i], b) :: b in order[..i]
  }

  lemma {:induction false} LayeredDescends(g: ProvenanceMap, order: seq<ResourceID>, path: seq<ResourceID>, i: nat)
    requires Layered(g, order) && IsPath(g, path) && |path| >= 1
    requires i < |order| && path[0] == order[i]
    ensures |path| >= 2 ==> path[|path| - 1] in order[..i]
    decreases |path|
  {
    if |path| >= 2 {
      assert Edge(g, path[0], path[1]);
      var j :| 0 <= j < i && order[j] == path[1];
      var rest := path[1..];
      forall k | 0 <= k < |rest| - 1 ensures Edge(g, rest[k], rest[k + 1]) {
        assert Edge(g, path[k + 1], path[k + 1 + 1]);
      }
      LayeredDescends(g, order, rest, j);
      assert path[|path| - 1] == rest[|rest| - 1];
      assert order[..j] <= order[..i];
    }
  }

  predicate Distinct(s: seq<ResourceID>) {
    forall i, j | 0 <= i < j < |s| :: s[i] != s[j]
  }

  /** A graph whose nodes can all be listed in layers has no cycle. */
  lemma LayeredHasNoCycle(g: ProvenanceMap, order: seq<ResourceID>)
    requires Layered(g, order) && Distinct(order) && forall a | a in g :: a in order
    ensures !HasCycle(g)
  {
    forall path ensures !IsCycle(g, path) {
      if IsCycle(g, path) {
        assert Edge(g, path[0], path[1]);
        var i :| 0 <= i < |order| && order[i] == path[0];
        LayeredDescends(g, order, path, i);
      }
    }
  }

  /** An edge back into the path that led here closes a cycle. */
  lemma BackEdge(g: ProvenanceMap, stack: seq<ResourceID>, a: ResourceID, b: ResourceID)
    requires IsPath(g, stack) && |stack| > 0 && stack[|stack| - 1] == a
    requires b in stack && Edge(g, a, b)
    ensures HasCycle(g)
  {
    var i :| 0 <= i < |stack| && stack[i] == b;
    var path := stack[i..] + [b];
    assert IsPath(g, path) by {
      forall k | 0 <= k < |path| - 1 ensures Edge(g, path[k], path[k + 1]) {
        if k < |stack| - 1 - i {
          assert path[k] == stack[i + k] && path[k + 1] == stack[i + k + 1];
        }
      }
    }
    assert IsCycle(g, path);
  }

  datatype Color = Visiting | Visited

  class CycleSearch {
    const provenance: ProvenanceMap
    var states: map<ResourceID, Color>
    /** The visited resources in the order they were finished. */
    ghost var finished: seq<ResourceID>

    constructor (provenance: ProvenanceMap)
      ensures this.provenance == provenance && states == map[] && finished == []
    {
      this.provenance := provenance;
      states := map[];
      finished := [];
    }

    /** The stack is being visited and everything finished is visited, in layers. */
    ghost predicate Valid(stack: seq<ResourceID>)
      reads this
    {
      && states.Keys <= provenance.Keys
      && (forall a :: a in states && states[a].Visiting? <==> a in stack)
      && (forall a :: a in states && states[a].Visited? <==> a in finished)
      && Distinct(finished)
      && Layered(provenance, finished)
      && IsPath(provenance, stack)
    }

    /** Everything derived in a list of evidence has been visited. */
    ghost predicate Handled(evidence: seq<ResourceID>)
      reads this
    {
      forall b | b in evidence && b in provenance :: b in finished
    }

    method Visit(a: ResourceID, ghost stack: seq<ResourceID>) returns (ok: bool)
      requires Valid(stack) && a in provenance && a !in states
      requires stack != [] ==> Edge(provenance, stack[|stack| - 1], a)
      modifies this
      ensures !ok ==> HasCycle(provenance)
      ensures ok ==> Valid(stack) && a in finished && old(finished) <= finished
      ensures old(states.Keys) <= states.Keys
      decreases provenance.Keys - states.Keys, 0
    {
      states := states[a := Visiting];
      ghost var path := stack + [a];
      PathExtends(provenance, stack, a);
      assert a in old(provenance.Keys - states.Keys) && a !in provenance.Keys - states.Keys;
      ok := VisitSupports(a, path);
      if ok {
        Finish(a, stack, path, provenance[a]);
        states := states[a := Visited];
        finished := finished + [a];
      }
    }

    method VisitSupports(a: ResourceID, ghost path: seq<ResourceID>) returns (ok: bool)
      requires Valid(path) && a in provenance && path != [] && path[|path| - 1] == a
      modifies this
      ensures !ok ==> HasCycle(provenance)
      ensures ok ==> Valid(path) && old(finished) <= finished
      ensures ok ==> forall k | 0 <= k < |provenance[a]| :: Handled(provenance[a][k])
      ensures old(states.Keys) <= states.Keys
      decreases provenance.Keys - states.Keys, 3
    {
      hide Layered, IsPath, Edge, Distinct;
      var supports := provenance[a];
      for i := 0 to |supports|
        invariant Valid(path) && old(finished) <= finished
        invariant old(states.Keys) <= states.Keys
        invariant forall k | 0 <= k < i :: Handled(supports[k])
      {
        ghost var before := finished;
        ok := VisitEvidence(a, supports[i], path);
        if !ok {
          return;
        }
        HandledKept(before, supports, i);
      }
      return true;
    }

    method VisitEvidence(a: ResourceID, evidence: seq<ResourceID>, ghost path: seq<ResourceID>) returns (ok: bool)
      requires Valid(path) && a in provenance && evidence in provenance[a] && path != [] && path[|path| - 1] == a
      modifies this
      ensures !ok ==> HasCycle(provenance)
      ensures ok ==> Valid(path) && old(finished) <= finished && Handled(evidence)
      ensures old(states.Keys) <= states.Keys
      decreases provenance.Keys - states.Keys, 2
    {
      for j := 0 to |evidence|
        invariant Valid(path) && old(finished) <= finished
        invariant old(states.Keys) <= states.Keys
        invariant Handled(evidence[..j])
      {
        ghost var before := finished;
        if evidence[j] in provenance {
          assert Edge(provenance, a, evidence[j]);
          ok := Consider(a, evidence[j], path);
          if !ok {
            return;
          }
        }
        HandledGrows(before, evidence, j, evidence[j]);
      }
      assert evidence[..|evidence|] == evidence;
      return true;
    }

    /** A resource being visited closes a cycle; an unvisited one is visited first. */
    method Consider(a: ResourceID, b: ResourceID, ghost path: seq<ResourceID>) returns (ok: bool)
      requires Valid(path) && path != [] && path[|path| - 1] == a && Edge(provenance, a, b)
      modifies this
      ensures !ok ==> HasCycle(provenance)
      ensures ok ==> Valid(path) && old(finished) <= finished && b in finished
      ensures old(states.Keys) <= states.Keys
      decreases provenance.Keys - states.Keys, 1
    {
      if b in states {
        if states[b].Visiting? {
          BackEdge(provenance, path, a, b);
          return false;
        }
        return true;
      }
      ok := Visit(b, path);
    }

    lemma HandledGrows(before: seq<ResourceID>, evidence: seq<ResourceID>, j: nat, b: ResourceID)
      requires j < |evidence| && evidence[j] == b && before <= finished
      requires forall c | c in evidence[..j] && c in provenance :: c in before
      requires b in provenance ==> b in finished
      ensures Handled(evidence[..j + 1])
    {
      assert evidence[..j + 1] == evidence[..j] + [b];
    }

    lemma HandledKept(before: seq<ResourceID>, supports: seq<seq<ResourceID>>, i: nat)
      requires i <= |supports| && before <= finished
      requires forall k, b | 0 <= k < i && b in supports[k] && b in provenance :: b in before
      ensures forall k | 0 <= k < i :: Handled(supports[k])
    {
    }

    /** A resource all of whose derived evidence is visited can be finished. */
    lemma Finish(a: ResourceID, stack: seq<ResourceID>, path: seq<ResourceID>, supports: seq<seq<ResourceID>>)
      requires Valid(path) && path == stack + [a] && a in provenance && supports == provenance[a]
      requires forall k | 0 <= k < |supports| :: Handled(supports[k])
      ensures a !in finished
      ensures Layered(provenance, finished + [a]) && Distinct(finished + [a])
    {
      assert a in path;
      var order := finished + [a];
      forall i, b | 0 <= i < |order| && b in provenance && Edge(provenance, order[i], b) ensures b in order[..i] {
        if i == |finished| {
          assert order[..i] == finished;
          var support :| support in supports && b in support;
          var k :| 0 <= k < |supports| && supports[k] == support;
          assert Handled(supports[k]);
        } else {
          assert order[..i] == finished[..i];
        }
      }
    }

    /** Accepts exactly the acyclic provenance. */
    method ValidateAcyclic() returns (ok: bool)
      requires states == map[] && finished == []
      modifies this
      ensures ok <==> !HasCycle(provenance)
    {
      var rest := provenance.Keys;
      while rest != {}
        invariant Valid([]) && rest <= provenance.Keys
        invariant forall a | a in provenance && a !in rest :: a in finished
        decreases |rest|
      {
        var a :| a in rest;
        rest := rest - {a};
        if a !in states {
          var visited := Visit(a, []);
          if !visited {
            return false;
          }
        }
      }
      LayeredHasNoCycle(provenance, finished);
      return true;
    }
  }

  lemma PathExtends(g: ProvenanceMap, stack: seq<ResourceID>, a: ResourceID)
    requires IsPath(g, stack) && (stack != [] ==> Edge(g, stack[|stack| - 1], a))
    ensures IsPath(g, stack + [a])
  {
    var path := stack + [a];
    forall i | 0 <= i < |path| - 1 ensures Edge(g, path[i], path[i + 1]) {
      if i < |stack| - 1 {
        assert Edge(g, stack[i], stack[i + 1]);
      }
    }
  }
}
