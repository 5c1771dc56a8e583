/** Sizes of sets, and sums over sequences of which one element changes. */
module Counting {

  lemma {:induction false} SubsetIsSmaller<T>(a: set<T>, b: set<T>)
    requires a <= b
    ensures |a| <= |b|
  {
    if a != {} {
      var x :| x in a;
      SubsetIsSmaller(a - {x}, b - {x});
    }
  }

  function Total<T>(xs: seq<T>, weight: T -> nat): nat {
    if xs == [] then 0 else Total(xs[..|xs| - 1], weight) + weight(xs[|xs| - 1])
  }

  lemma {:induction false} TotalUpdate<T>(xs: seq<T>, weight: T -> nat, i: nat, x: T)
    requires i < |xs|
    ensures Total(xs[i := x], weight) == Total(xs, weight) - weight(xs[i]) + weight(x)
  {
    var last := |xs| - 1;
    var after := xs[i := x];
    if i == last {
      assert after[..last] == xs[..last];
    } else {
      assert after[..last] == xs[..last][i := x];
      TotalUpdate(xs[..last], weight, i, x);
    }
  }
}
