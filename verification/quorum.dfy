/** Majority quorums of consecutive replica sets. */
module Quorum {
  import opened Lists

  /** The consistency factor of `n` replicas. */
  function Majority(n: nat): nat { n / 2 + 1 }

  lemma LargeSubsetsMeet<T>(all: set<T>, q: set<T>, q': set<T>)
    requires q <= all && q' <= all && |q| + |q'| > |all|
    ensures exists x :: x in q && x in q'
  {
    UnionCard(q, q');
    SubsetCard(q + q', all);
    if q * q' != {} {
      var x :| x in q * q';
    }
  }

  /** Any quorum of a set of replicas meets any quorum of that set with one
      replica removed or added. */
  lemma QuorumsMeetAcrossOneChange<T>(all: set<T>, r: T, q: set<T>, q': set<T>)
    requires r in all
    requires q <= all && |q| >= Majority(|all|)
    requires q' <= all - {r} && |q'| >= Majority(|all| - 1)
    ensures exists x :: x in q && x in q'
  {
    LargeSubsetsMeet(all, q, q');
  }

  /** Two changes apart this can fail: two of three replicas against the last
      one. It is the health check of the remaining replicas, repeated before
      every single removal, that carries a write along a chain. */
  lemma QuorumsMayMissAcrossTwoChanges()
    ensures exists all: set<int>, r1, r2, q: set<int>, q': set<int> ::
      && r1 in all && r2 in all - {r1}
      && q <= all && |q| >= Majority(|all|)
      && q' <= all - {r1} - {r2} && |q'| >= Majority(|all - {r1} - {r2}|)
      && q !! q'
  {
    var all, q, q' := {1, 2, 3}, {1, 2}, {3};
    assert 1 in all && 2 in all - {1};
    assert |all| == 3 && |q| == 2 && |q'| == 1;
    assert q' == all - {1} - {2};
    assert q !! q';
  }
}
