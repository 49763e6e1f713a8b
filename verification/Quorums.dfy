/** Majorities of a finite voter set, and why two of them always meet. */
module Quorums {

  /** Node identifiers; the source keeps them in 1..64. */
  type Id = nat

  /** A majority of `voters` is contained in `acked`. */
  predicate IsQuorum(voters: set<Id>, acked: set<Id>) {
    |voters * acked| >= |voters| / 2 + 1
  }

  lemma QuorumGrows(voters: set<Id>, small: set<Id>, large: set<Id>)
    requires IsQuorum(voters, small)
    requires voters * small <= large
    ensures IsQuorum(voters, large)
  {
    SubsetSize(voters * small, voters * large);
  }

  lemma SubsetSize<T>(a: set<T>, b: set<T>)
    requires a <= b
    ensures |a| <= |b|
  {
    assert b == a + (b - a);
  }

  /** Any two majorities of one voter set share a voter. */
  lemma QuorumsMeet(voters: set<Id>, a: set<Id>, b: set<Id>) returns (v: Id)
    requires IsQuorum(voters, a) && IsQuorum(voters, b)
    ensures v in voters && v in a && v in b
  {
    var x, y := voters * a, voters * b;
    assert x * y != {} by {
      if x * y == {} {
        assert |x + y| == |x| + |y|;
        SubsetSize(x + y, voters);
      }
    }
    v :| v in x * y;
  }
}
