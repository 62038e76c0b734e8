/** Sums over tables. */
module Ledger {

  function Sum(xs: seq<int>): int {
    if xs == [] then 0 else Sum(xs[..|xs| - 1]) + xs[|xs| - 1]
  }

  lemma SumAppend(xs: seq<int>, x: int)
    ensures Sum(xs + [x]) == Sum(xs) + x
  {
    assert (xs + [x])[..|xs|] == xs;
  }

  lemma {:induction false} SumUpdate(xs: seq<int>, i: nat, x: int)
    requires i < |xs|
    ensures Sum(xs[i := x]) == Sum(xs) - xs[i] + x
  {
    var n := |xs| - 1;
    if i < n {
      assert xs[i := x][..n] == xs[..n][i := x];
      SumUpdate(xs[..n], i, x);
    } else {
      assert xs[i := x][..n] == xs[..n];
    }
  }

  lemma {:induction false} SumAtLeast(xs: seq<int>, i: nat)
    requires i < |xs| && forall j :: 0 <= j < |xs| ==> xs[j] >= 0
    ensures Sum(xs) >= xs[i]
  {
    var n := |xs| - 1;
    if i < n {
      SumAtLeast(xs[..n], i);
    } else if n > 0 {
      SumAtLeast(xs[..n], 0);
    }
  }
}
