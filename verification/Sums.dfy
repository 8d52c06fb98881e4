/** Sums of a weight over a list. */
module Sums {
  function Sum<T>(xs: seq<T>, w: T -> real): real {
    if xs == [] then 0.0 else Sum(xs[..|xs| - 1], w) + w(xs[|xs| - 1])
  }

  lemma SumAppend<T>(xs: seq<T>, x: T, w: T -> real)
    ensures Sum(xs + [x], w) == Sum(xs, w) + w(x)
  {
    assert (xs + [x])[..|xs|] == xs;
  }

  lemma {:induction false} SumSame<T>(xs: seq<T>, v: T -> real, w: T -> real)
    requires forall i :: 0 <= i < |xs| ==> v(xs[i]) == w(xs[i])
    ensures Sum(xs, v) == Sum(xs, w)
  {
    if xs != [] {
      SumSame(xs[..|xs| - 1], v, w);
    }
  }

  lemma {:induction false} SumZero<T>(xs: seq<T>, w: T -> real)
    requires forall i :: 0 <= i < |xs| ==> w(xs[i]) == 0.0
    ensures Sum(xs, w) == 0.0
  {
    if xs != [] {
      SumZero(xs[..|xs| - 1], w);
    }
  }

  lemma {:induction false} SumUpTo<T>(xs: seq<T>, v: T -> real, w: T -> real)
    requires forall i :: 0 <= i < |xs| ==> v(xs[i]) <= w(xs[i])
    ensures Sum(xs, v) <= Sum(xs, w)
  {
    if xs != [] {
      SumUpTo(xs[..|xs| - 1], v, w);
    }
  }

  lemma {:induction false} SumUpdate<T>(xs: seq<T>, i: nat, x: T, w: T -> real)
    requires i < |xs|
    ensures Sum(xs[i := x], w) == Sum(xs, w) - w(xs[i]) + w(x)
  {
    var n := |xs| - 1;
    if i == n {
      assert xs[i := x][..n] == xs[..n];
    } else {
      assert xs[i := x][..n] == xs[..n][i := x];
      SumUpdate(xs[..n], i, x, w);
    }
  }

  /** Two weights that differ at one position only. */
  lemma {:induction false} SumOne<T>(xs: seq<T>, i: nat, v: T -> real, w: T -> real)
    requires i < |xs| && forall j :: 0 <= j < |xs| && j != i ==> v(xs[j]) == w(xs[j])
    ensures Sum(xs, v) == Sum(xs, w) - w(xs[i]) + v(xs[i])
  {
    var n := |xs| - 1;
    if i == n {
      SumSame(xs[..n], v, w);
    } else {
      SumOne(xs[..n], i, v, w);
    }
  }
}
