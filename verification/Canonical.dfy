/** Strictly ascending, duplicate-free lists, and the loop that builds one. */
module Canonical {

  predicate StrictlySorted(s: seq<nat>) {
    forall i, j | 0 <= i < j < |s| :: s[i] < s[j]
  }

  lemma NoneIsEmpty<T(!new)>(s: seq<T>)
    requires forall x :: x !in s
    ensures s == []
  {
    forall x ensures multiset(s)[x] == 0 {
      assert x in s <==> x in multiset(s);
    }
    assert multiset(s) == multiset{};
    assert |s| == |multiset(s)|;
  }

  /** Inserting an element anywhere adds it once. */
  lemma InsertedOnce<T>(s: seq<T>, x: T, i: nat)
    requires i <= |s|
    ensures multiset(s[..i] + [x] + s[i..]) == multiset(s) + multiset{x}
  {
    var front, back := s[..i], s[i..];
    assert s == front + back;
    assert multiset(front + [x] + back) == multiset(front) + multiset{x} + multiset(back);
  }

  /** Two canonical lists with the same members are the same list. */
  lemma {:induction false} CanonicalUnique(s: seq<nat>, t: seq<nat>)
    requires StrictlySorted(s) && StrictlySorted(t)
    requires forall x :: x in s <==> x in t
    ensures s == t
    decreases |s|
  {
    if s == [] {
      NoneIsEmpty(t);
    } else {
      assert s[0] in t && t != [] && t[0] in s;
      assert s[0] == t[0];
      forall x ensures x in s[1..] <==> x in t[1..] {
        Tail(s, x);
        Tail(t, x);
      }
      CanonicalUnique(s[1..], t[1..]);
      assert s == [s[0]] + s[1..] && t == [t[0]] + t[1..];
    }
  }

  lemma Tail(s: seq<nat>, x: nat)
    requires StrictlySorted(s) && s != []
    ensures x in s[1..] <==> x in s && x != s[0]
  {
    if x in s && x != s[0] {
      var i :| 0 <= i < |s| && s[i] == x;
      assert s[1..][i - 1] == x;
    }
  }

  function Insert(s: seq<nat>, x: nat): (r: seq<nat>)
    requires StrictlySorted(s) && x !in s
    ensures StrictlySorted(r) && |r| == |s| + 1
    ensures forall y :: y in r <==> y in s || y == x
    decreases |s|
  {
    if s == [] then [x]
    else if x < s[0] then [x] + s
    else
      assert s == [s[0]] + s[1..];
      var rest := Insert(s[1..], x);
      assert forall i | 0 <= i < |rest| :: rest[i] in rest;
      [s[0]] + rest
  }

  /** The members of a set in ascending order. */
  method Ascending(members: set<nat>) returns (s: seq<nat>)
    ensures StrictlySorted(s) && |s| == |members|
    ensures forall x :: x in s <==> x in members
  {
    var rest := members;
    s := [];
    while rest != {}
      invariant StrictlySorted(s) && rest <= members && |s| + |rest| == |members|
      invariant forall x :: x in s <==> x in members && x !in rest
      decreases |rest|
    {
      var x :| x in rest;
      rest := rest - {x};
      s := Insert(s, x);
    }
  }

  /** The members of two lists, once each and in order. */
  method CanonicalUnion(left: seq<nat>, right: seq<nat>) returns (s: seq<nat>)
    ensures StrictlySorted(s)
    ensures forall x :: x in s <==> x in left || x in right
  {
    var seen: set<nat> := {};
    for i := 0 to |left|
      invariant forall x :: x in seen <==> x in left[..i]
    {
      assert left[..i + 1] == left[..i] + [left[i]];
      seen := seen + {left[i]};
    }
    assert left[..|left|] == left;
    for i := 0 to |right|
      invariant forall x :: x in seen <==> x in left || x in right[..i]
    {
      assert right[..i + 1] == right[..i] + [right[i]];
      seen := seen + {right[i]};
    }
    assert right[..|right|] == right;
    s := Ascending(seen);
  }
}
