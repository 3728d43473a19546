/**
 Lists in the order of a rank. Names and digests are compared as strings; which
 string a value has is immaterial, so the order is that of any rank that tells the
 values apart.
 */
module Ordering {
  import opened Canonical

  ghost predicate Injective<T(!new)>(rank: T -> nat) {
    forall x, y :: rank(x) == rank(y) ==> x == y
  }

  predicate Ranked<T>(rank: T -> nat, s: seq<T>) {
    forall i, j | 0 <= i < j < |s| :: rank(s[i]) < rank(s[j])
  }

  /** No two elements have the same rank. */
  predicate Separated<T>(rank: T -> nat, s: seq<T>) {
    forall i, j | 0 <= i < j < |s| :: rank(s[i]) != rank(s[j])
  }

  /** A ranked list is determined by its members. */
  lemma {:induction false} RankedUnique<T(!new)>(rank: T -> nat, s: seq<T>, t: seq<T>)
    requires Ranked(rank, s) && Ranked(rank, t)
    requires forall x :: x in s <==> x in t
    ensures s == t
    decreases |s|
  {
    if s == [] {
      NoneIsEmpty(t);
    } else {
      assert s[0] in t && t != [] && t[0] in s;
      var i :| 0 <= i < |t| && t[i] == s[0];
      var j :| 0 <= j < |s| && s[j] == t[0];
      assert i == 0;
      forall x ensures x in s[1..] <==> x in t[1..] {
        RankedTail(rank, s, x);
        RankedTail(rank, t, x);
      }
      RankedUnique(rank, s[1..], t[1..]);
      assert s == [s[0]] + s[1..] && t == [t[0]] + t[1..];
    }
  }

  lemma RankedTail<T>(rank: T -> nat, s: seq<T>, x: T)
    requires Ranked(rank, s) && s != []
    ensures x in s[1..] <==> x in s && x != s[0]
  {
    if x in s && x != s[0] {
      var i :| 0 <= i < |s| && s[i] == x;
      assert s[1..][i - 1] == x;
    }
  }

  lemma Placed<T>(rank: T -> nat, s: seq<T>, x: T, i: nat)
    requires Ranked(rank, s) && i <= |s|
    requires forall j | 0 <= j < i :: rank(s[j]) < rank(x)
    requires forall j | i <= j < |s| :: rank(x) < rank(s[j])
    ensures Ranked(rank, s[..i] + [x] + s[i..])
  {
    var r := s[..i] + [x] + s[i..];
    forall j, k | 0 <= j < k < |r| ensures rank(r[j]) < rank(r[k]) {
      if k < i {
        assert r[j] == s[j] && r[k] == s[k];
      } else if k == i {
        assert r[j] == s[j] && r[k] == x;
      } else if j < i {
        assert r[j] == s[j] && r[k] == s[k - 1];
      } else if j == i {
        assert r[j] == x && r[k] == s[k - 1];
      } else {
        assert r[j] == s[j - 1] && r[k] == s[k - 1];
      }
    }
  }

  /** Where an element goes: behind everything of lower rank. */
  method Place<T>(rank: T -> nat, s: seq<T>, x: T) returns (r: seq<T>)
    requires Ranked(rank, s) && forall y | y in s :: rank(y) != rank(x)
    ensures Ranked(rank, r) && multiset(r) == multiset(s) + multiset{x}
  {
    var i := 0;
    while i < |s| && rank(s[i]) < rank(x)
      invariant 0 <= i <= |s| && forall j | 0 <= j < i :: rank(s[j]) < rank(x)
    {
      i := i + 1;
    }
    forall j | i <= j < |s| ensures rank(x) < rank(s[j]) {
      assert s[i] in s && (j > i ==> rank(s[i]) < rank(s[j]));
    }
    Placed(rank, s, x, i);
    InsertedOnce(s, x, i);
    r := s[..i] + [x] + s[i..];
  }

  /** Sorting a list whose elements differ in rank. */
  method Arrange<T>(rank: T -> nat, s: seq<T>) returns (r: seq<T>)
    requires Separated(rank, s)
    ensures Ranked(rank, r) && multiset(r) == multiset(s)
  {
    r := [];
    for i := 0 to |s|
      invariant Ranked(rank, r) && multiset(r) == multiset(s[..i])
    {
      assert s[..i + 1] == s[..i] + [s[i]];
      forall y | y in r ensures rank(y) != rank(s[i]) {
        assert y in multiset(s[..i]);
        var j :| 0 <= j < i && s[..i][j] == y;
      }
      r := Place(rank, r, s[i]);
    }
    assert s[..|s|] == s;
  }

  /** The members of a set, in order. */
  method Members<T(!new)>(rank: T -> nat, members: set<T>) returns (s: seq<T>)
    requires Injective(rank)
    ensures Ranked(rank, s) && forall x :: x in s <==> x in members
  {
    s := [];
    var rest := members;
    while rest != {}
      invariant Ranked(rank, s) && rest <= members
      invariant forall x :: x in s <==> x in members && x !in rest
      decreases |rest|
    {
      var x :| x in rest;
      rest := rest - {x};
      ghost var before := s;
      s := Place(rank, s, x);
      forall y ensures y in s <==> y in before || y == x {
        assert y in s <==> y in multiset(s);
        assert y in before <==> y in multiset(before);
      }
    }
  }

  lemma SameMultisetMembers<T(!new)>(s: seq<T>, t: seq<T>)
    requires multiset(s) == multiset(t)
    ensures |s| == |t| && forall x :: x in s <==> x in t
  {
    assert |multiset(s)| == |s| && |multiset(t)| == |t|;
    forall x ensures x in s <==> x in t {
      assert x in s <==> x in multiset(s);
      assert x in t <==> x in multiset(t);
    }
  }
}
