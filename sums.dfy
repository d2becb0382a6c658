/** Sums of real figures: the mathematical Σ and the `reduce` the dashboard computes it with. */
module Sums {

  /** Σ xs, by recursion on the last element. */
  function Sum(xs: seq<real>): real
  {
    if xs == [] then 0.0 else Sum(xs[..|xs| - 1]) + xs[|xs| - 1]
  }

  /** `xs.reduce((sum, x) => sum + x, acc)`: a left fold from the front. */
  function FoldAdd(xs: seq<real>, acc: real): real
  {
    if xs == [] then acc else FoldAdd(xs[1..], acc + xs[0])
  }

  /** Σ of a sequence split after its first element. */
  lemma {:induction false} SumCons(x: real, xs: seq<real>)
    ensures Sum([x] + xs) == x + Sum(xs)
  {
    if xs == [] {
      assert [x] + xs == [x];
      assert [x][..0] == [];
    } else {
      var ys := [x] + xs;
      assert ys[..|ys| - 1] == [x] + xs[..|xs| - 1];
      SumCons(x, xs[..|xs| - 1]);
    }
  }

  /** The left fold started at `acc` adds Σ xs to `acc`. */
  lemma {:induction false} FoldAddIsSum(xs: seq<real>, acc: real)
    ensures FoldAdd(xs, acc) == acc + Sum(xs)
  {
    if xs != [] {
      FoldAddIsSum(xs[1..], acc + xs[0]);
      assert xs == [xs[0]] + xs[1..];
      SumCons(xs[0], xs[1..]);
    }
  }

  /** Σ is additive over concatenation. */
  lemma {:induction false} SumAppend(xs: seq<real>, ys: seq<real>)
    ensures Sum(xs + ys) == Sum(xs) + Sum(ys)
    decreases |ys|
  {
    if ys == [] {
      assert xs + ys == xs;
    } else {
      assert (xs + ys)[..|xs + ys| - 1] == xs + ys[..|ys| - 1];
      SumAppend(xs, ys[..|ys| - 1]);
    }
  }

  /** Dropping the element at position i takes exactly that element off Σ. */
  lemma SumRemoveAt(xs: seq<real>, i: nat)
    requires i < |xs|
    ensures Sum(xs[..i] + xs[i + 1..]) == Sum(xs) - xs[i]
  {
    assert xs == xs[..i] + ([xs[i]] + xs[i + 1..]);
    SumAppend(xs[..i], [xs[i]] + xs[i + 1..]);
    SumCons(xs[i], xs[i + 1..]);
    SumAppend(xs[..i], xs[i + 1..]);
  }

  /** Σ of element-wise differences is the difference of the sums. */
  lemma {:induction false} SumOfDifferences(xs: seq<real>, ys: seq<real>, ds: seq<real>)
    requires |xs| == |ys| == |ds|
    requires forall i :: 0 <= i < |ds| ==> ds[i] == xs[i] - ys[i]
    ensures Sum(ds) == Sum(xs) - Sum(ys)
    decreases |ds|
  {
    if ds != [] {
      var n := |ds| - 1;
      SumOfDifferences(xs[..n], ys[..n], ds[..n]);
    }
  }

  /** When every ys[i] is xs[i] scaled by 100 / t, so is Σ ys: shares of a total, as percentages. */
  lemma {:induction false} SumOfShares(xs: seq<real>, ys: seq<real>, t: real)
    requires |xs| == |ys|
    requires forall i :: 0 <= i < |ys| ==> ys[i] * t == xs[i] * 100.0
    ensures Sum(ys) * t == Sum(xs) * 100.0
    decreases |ys|
  {
    if ys != [] {
      var n := |ys| - 1;
      SumOfShares(xs[..n], ys[..n], t);
      calc {
        Sum(ys) * t;
        (Sum(ys[..n]) + ys[n]) * t;
        Sum(ys[..n]) * t + ys[n] * t;
        Sum(xs[..n]) * 100.0 + xs[n] * 100.0;
        Sum(xs) * 100.0;
      }
    }
  }

  /** Shares of a positive whole, as percentages, add up to 100. */
  lemma SharesOfWholeSumTo100(xs: seq<real>, ys: seq<real>, t: real)
    requires t > 0.0 && Sum(xs) == t && |xs| == |ys|
    requires forall i :: 0 <= i < |ys| ==> ys[i] * t == xs[i] * 100.0
    ensures Sum(ys) == 100.0
  {
    SumOfShares(xs, ys, t);
    CancelWhole(Sum(ys), t, Sum(xs));
  }

  lemma CancelWhole(s: real, t: real, w: real)
    requires t > 0.0 && w == t && s * t == w * 100.0
    ensures s == 100.0
  {
    assert (s - 100.0) * t == 0.0;
  }

  /** Σ of non-negative figures is non-negative. */
  lemma {:induction false} SumNonNegative(xs: seq<real>)
    requires forall i :: 0 <= i < |xs| ==> xs[i] >= 0.0
    ensures Sum(xs) >= 0.0
    decreases |xs|
  {
    if xs != [] {
      SumNonNegative(xs[..|xs| - 1]);
    }
  }
}
