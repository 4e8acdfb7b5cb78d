/** Why a search for the first free name ends: distinct names cannot all be in a finite set. */
module Pigeonhole {

  ghost predicate DistinctFrom(name: nat -> string, lo: nat) {
    forall m, n {:trigger name(m), name(n)} :: lo <= m < n ==> name(m) != name(n)
  }

  lemma SubsetCardinality(a: set<string>, b: set<string>)
    requires a <= b
    ensures |a| <= |b|
  {
    assert |b| == |a| + |b - a| by {
      assert a + (b - a) == b;
    }
  }

  /** If the names `lo` to `n - 1` are all taken, there are at least that many taken names. */
  lemma AllTakenMeansMany(name: nat -> string, lo: nat, n: nat, taken: set<string>)
    requires lo <= n && DistinctFrom(name, lo)
    requires forall m :: lo <= m < n ==> name(m) in taken
    ensures n - lo <= |taken|
  {
    var used := UsedNames(name, lo, n);
    SubsetCardinality(used, taken);
  }

  lemma {:induction false} UsedNames(name: nat -> string, lo: nat, n: nat) returns (used: set<string>)
    requires lo <= n && DistinctFrom(name, lo)
    ensures |used| == n - lo
    ensures forall s :: s in used <==> exists m :: lo <= m < n && name(m) == s
  {
    if n == lo {
      used := {};
    } else {
      var before := UsedNames(name, lo, n - 1);
      used := before + {name(n - 1)};
    }
  }
}
