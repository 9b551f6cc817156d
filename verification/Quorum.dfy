/** Majorities, and why two of them always meet. */
module Quorum {

  /** The quorum used by vote counting and by commit counting alike. */
  function Majority(total: nat): (m: nat)
    ensures 2 * m > total
    ensures total > 0 ==> m <= total
  {
    total / 2 + 1
  }

  lemma SubsetSize(a: set<nat>, b: set<nat>)
    requires a <= b
    ensures |a| <= |b|
  {
    var rest := b - a;
    assert b == a + rest;
  }

  /** Any two majorities of the same cluster share a member. */
  lemma QuorumsIntersect(all: set<nat>, a: set<nat>, b: set<nat>) returns (common: nat)
    requires a <= all && b <= all
    requires |a| >= Majority(|all|) && |b| >= Majority(|all|)
    ensures common in a && common in b
  {
    if a * b == {} {
      assert |a + b| == |a| + |b|;
      SubsetSize(a + b, all);
      assert false;
    }
    common :| common in a * b;
  }

  ghost predicate Distinct(s: seq<nat>) {
    forall i, j :: 0 <= i < j < |s| ==> s[i] != s[j]
  }

  function Members(s: seq<nat>): (m: set<nat>)
    ensures forall x :: x in m <==> x in s
  {
    set x | x in s
  }

  /** A duplicate-free list has as many elements as the set of its members. */
  lemma {:induction false} DistinctSize(s: seq<nat>)
    requires Distinct(s)
    ensures |s| == |Members(s)|
  {
    if s == [] {
      assert Members(s) == {};
    } else {
      var rest, last := s[..|s| - 1], s[|s| - 1];
      DistinctSize(rest);
      assert s == rest + [last];
      assert Members(s) == Members(rest) + {last};
    }
  }
}
