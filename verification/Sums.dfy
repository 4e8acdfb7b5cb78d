/** Sums of finite sequences of exact amounts. */
module Sums {
  import opened Prelude

  function Sum(s: seq<real>): real {
    if s == [] then 0.0 else Sum(s[..|s| - 1]) + s[|s| - 1]
  }

  function Zeros(n: nat): (s: seq<real>) {
    seq(n, i => 0.0)
  }

  function AddRows(a: seq<real>, b: seq<real>): seq<real>
    requires |a| == |b|
  {
    seq(|a|, i requires 0 <= i < |a| => a[i] + b[i])
  }

  lemma {:induction false} SumZeros(n: nat)
    ensures Sum(Zeros(n)) == 0.0
  {
    if n > 0 {
      assert Zeros(n)[..n - 1] == Zeros(n - 1);
      SumZeros(n - 1);
    }
  }

  lemma {:induction false} SumAddRows(a: seq<real>, b: seq<real>)
    requires |a| == |b|
    ensures Sum(AddRows(a, b)) == Sum(a) + Sum(b)
  {
    if a != [] {
      var n := |a| - 1;
      assert AddRows(a, b)[..n] == AddRows(a[..n], b[..n]);
      SumAddRows(a[..n], b[..n]);
    }
  }

  lemma {:induction false} SumConcat(a: seq<real>, b: seq<real>)
    ensures Sum(a + b) == Sum(a) + Sum(b)
  {
    if b == [] {
      assert a + b == a;
    } else {
      var n := |b| - 1;
      assert (a + b)[..|a + b| - 1] == a + b[..n];
      SumConcat(a, b[..n]);
    }
  }

  /** A change of one entry changes the sum by exactly that much. */
  lemma {:induction false} SumUpdate(a: seq<real>, i: nat, x: real)
    requires i < |a|
    ensures Sum(a[i := x]) == Sum(a) - a[i] + x
  {
    var n := |a| - 1;
    if i < n {
      assert a[i := x][..n] == a[..n][i := x];
      SumUpdate(a[..n], i, x);
    } else {
      assert a[i := x][..n] == a[..n];
    }
  }

  /** What `f` makes of the elements, added up. */
  ghost function SumOver<T>(s: seq<T>, f: T -> real): real {
    if s == [] then 0.0 else SumOver(s[..|s| - 1], f) + f(s[|s| - 1])
  }

  lemma {:induction false} SumOverConcat<T>(a: seq<T>, b: seq<T>, f: T -> real)
    ensures SumOver(a + b, f) == SumOver(a, f) + SumOver(b, f)
  {
    if b == [] {
      assert a + b == a;
    } else {
      var n := |b| - 1;
      assert (a + b)[..|a + b| - 1] == a + b[..n];
      SumOverConcat(a, b[..n], f);
    }
  }

  lemma {:induction false} SumOverSame<T(!new)>(s: seq<T>, f: T -> real, g: T -> real)
    requires forall x :: x in s ==> f(x) == g(x)
    ensures SumOver(s, f) == SumOver(s, g)
  {
    if s != [] {
      SumOverSame(s[..|s| - 1], f, g);
    }
  }

  /** Filtering first is adding nothing for what is filtered out. */
  lemma {:induction false} SumOverFilter<T(!new)>(s: seq<T>, keep: T -> bool, f: T -> real, g: T -> real)
    requires forall x :: x in s ==> g(x) == if keep(x) then f(x) else 0.0
    ensures SumOver(Filter(s, keep), f) == SumOver(s, g)
  {
    if s != [] {
      var n := |s| - 1;
      SumOverFilter(s[..n], keep, f, g);
      SumOverConcat(Filter(s[..n], keep), if keep(s[n]) then [s[n]] else [], f);
      SumOverOne(s[n], f);
    }
  }

  lemma {:induction false} SumOverMore<T>(s: seq<T>, f: T -> real)
    requires s != []
    ensures SumOver(s, f) == SumOver(s[..|s| - 1], f) + f(s[|s| - 1])
  {
  }

  lemma SumOverOne<T>(x: T, f: T -> real)
    ensures SumOver([x], f) == f(x) && SumOver([], f) == 0.0
  {
    assert [x][..0] == [] && SumOver([], f) == 0.0;
  }
}
