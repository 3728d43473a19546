/** Failure-carrying results shared by every module. */
module Wrappers {

  datatype Option<+T> = None | Some(value: T)

  datatype Result<+T, +E> = Ok(value: T) | Err(error: E)

  predicate IsLeast(ids: set<nat>, least: nat) {
    least in ids && forall id | id in ids :: least <= id
  }

  lemma {:induction false} HasLeast(ids: set<nat>)
    requires ids != {}
    ensures exists least :: IsLeast(ids, least)
    decreases ids
  {
    var some :| some in ids;
    if ids == {some} {
      assert IsLeast(ids, some);
    } else {
      var rest := ids - {some};
      assert rest != {};
      HasLeast(rest);
      var least :| IsLeast(rest, least);
      assert forall id | id in ids :: id == some || id in rest;
      assert IsLeast(ids, if some < least then some else least);
    }
  }

  /** The least member of a nonempty set of naturals. */
  function Least(ids: set<nat>): (least: nat)
    requires ids != {}
    ensures IsLeast(ids, least)
  {
    HasLeast(ids);
    var least :| IsLeast(ids, least);
    least
  }
}
