/** Stock datatypes, and facts about sets, shared by the whole model. */
module Prelude {
  datatype Option<+T> = None | Some(value: T)

  datatype Result<+T, +E> = Ok(value: T) | Err(error: E)

  lemma SubsetIsNoLarger<T>(small: set<T>, large: set<T>)
    requires small <= large
    ensures |small| <= |large|
  {
    assert |large - small| + |small| == |large - small + small|;
    assert large - small + small == large;
  }

  /** There is always a number that is not in use. */
  lemma {:induction false} UnusedNumber(used: set<nat>) returns (n: nat)
    ensures forall m | m in used :: m < n
  {
    if used == {} {
      return 0;
    }
    var m :| m in used;
    var k := UnusedNumber(used - {m});
    n := if k <= m then m + 1 else k;
    forall x | x in used ensures x < n {
      assert x != m ==> x in used - {m};
    }
  }
}
