/**
 * The exact arithmetic behind `statistics.mean`, `statistics.variance`
 * (the sample variance, divided by n - 1), `max` and `min`.
 */
module Stats {
  /** The list as reals (ints are converted exactly, as `statistics` does with fractions). */
  function Reals(xs: seq<int>): (r: seq<real>)
    ensures |r| == |xs| && forall i :: 0 <= i < |xs| ==> r[i] == xs[i] as real
  {
    seq(|xs|, i requires 0 <= i < |xs| => xs[i] as real)
  }

  function Sum(xs: seq<real>): real
  {
    if xs == [] then 0.0 else Sum(xs[..|xs| - 1]) + xs[|xs| - 1]
  }

  function SumInt(xs: seq<int>): int
  {
    if xs == [] then 0 else SumInt(xs[..|xs| - 1]) + xs[|xs| - 1]
  }

  function Mean(xs: seq<real>): real
    requires |xs| > 0
  {
    Sum(xs) / |xs| as real
  }

  /** Sum of squared deviations from `m`. */
  function SquaredDeviations(xs: seq<real>, m: real): (r: real)
    ensures r >= 0.0
  {
    if xs == [] then 0.0
    else SquaredDeviations(xs[..|xs| - 1], m) + Square(xs[|xs| - 1] - m)
  }

  function Square(d: real): (s: real)
    ensures s >= 0.0
  {
    if d >= 0.0 then
      assert d * d >= 0.0 * d;
      d * d
    else
      assert (-d) * (-d) >= 0.0 * (-d);
      d * d
  }

  /** `statistics.variance`: the sample variance, with n - 1 in the denominator. */
  function SampleVariance(xs: seq<real>): (v: real)
    requires |xs| >= 2
    ensures v >= 0.0
  {
    SquaredDeviations(xs, Mean(xs)) / (|xs| - 1) as real
  }

  function MaxReal(xs: seq<real>): (m: real)
    requires xs != []
    ensures m in xs && forall i :: 0 <= i < |xs| ==> xs[i] <= m
  {
    if |xs| == 1 then xs[0]
    else
      var t := MaxReal(xs[..|xs| - 1]);
      assert forall i :: 0 <= i < |xs| - 1 ==> xs[i] == xs[..|xs| - 1][i];
      if t >= xs[|xs| - 1] then t else xs[|xs| - 1]
  }

  function MaxInt(xs: seq<int>): (m: int)
    requires xs != []
    ensures m in xs && forall i :: 0 <= i < |xs| ==> xs[i] <= m
  {
    if |xs| == 1 then xs[0]
    else
      var t := MaxInt(xs[..|xs| - 1]);
      assert forall i :: 0 <= i < |xs| - 1 ==> xs[i] == xs[..|xs| - 1][i];
      if t >= xs[|xs| - 1] then t else xs[|xs| - 1]
  }

  function MinInt(xs: seq<int>): (m: int)
    requires xs != []
    ensures m in xs && forall i :: 0 <= i < |xs| ==> m <= xs[i]
  {
    if |xs| == 1 then xs[0]
    else
      var t := MinInt(xs[..|xs| - 1]);
      assert forall i :: 0 <= i < |xs| - 1 ==> xs[i] == xs[..|xs| - 1][i];
      if t <= xs[|xs| - 1] then t else xs[|xs| - 1]
  }

  /** A list whose every element is `c` sums to `|xs| * c`. */
  lemma {:induction false} SumOfConstant(xs: seq<real>, c: real)
    requires forall i :: 0 <= i < |xs| ==> xs[i] == c
    ensures Sum(xs) == |xs| as real * c
  {
    if xs != [] {
      SumOfConstant(xs[..|xs| - 1], c);
    }
  }

  /** Bounds on a sum from bounds on its terms. */
  lemma {:induction false} SumBounds(xs: seq<real>, lo: real, hi: real)
    requires forall i :: 0 <= i < |xs| ==> lo <= xs[i] <= hi
    ensures |xs| as real * lo <= Sum(xs) <= |xs| as real * hi
  {
    if xs != [] {
      SumBounds(xs[..|xs| - 1], lo, hi);
    }
  }

  lemma {:induction false} SumIntBounds(xs: seq<int>, lo: int, hi: int)
    requires forall i :: 0 <= i < |xs| ==> lo <= xs[i] <= hi
    ensures |xs| * lo <= SumInt(xs) <= |xs| * hi
  {
    if xs != [] {
      SumIntBounds(xs[..|xs| - 1], lo, hi);
    }
  }

  lemma {:induction false} SumIntNonnegative(xs: seq<int>)
    requires forall i :: 0 <= i < |xs| ==> xs[i] >= 0
    ensures SumInt(xs) >= 0
  {
    if xs != [] {
      SumIntNonnegative(xs[..|xs| - 1]);
    }
  }

  /** A sum of non-negative terms is zero exactly when every term is. */
  lemma {:induction false} SumIntZero(xs: seq<int>)
    requires forall i :: 0 <= i < |xs| ==> xs[i] >= 0
    ensures SumInt(xs) == 0 <==> forall i :: 0 <= i < |xs| ==> xs[i] == 0
  {
    if xs != [] {
      var front := xs[..|xs| - 1];
      assert forall i :: 0 <= i < |front| ==> front[i] == xs[i];
      SumIntNonnegative(front);
      SumIntZero(front);
    }
  }

  /** The mean lies between the smallest and largest element. */
  lemma MeanBounds(xs: seq<real>, lo: real, hi: real)
    requires |xs| > 0
    requires forall i :: 0 <= i < |xs| ==> lo <= xs[i] <= hi
    ensures lo <= Mean(xs) <= hi
  {
    SumBounds(xs, lo, hi);
  }

  /** The sample variance of a constant list is zero. */
  lemma {:induction false} ConstantVarianceIsZero(xs: seq<real>, c: real)
    requires |xs| >= 2
    requires forall i :: 0 <= i < |xs| ==> xs[i] == c
    ensures SampleVariance(xs) == 0.0
  {
    SumOfConstant(xs, c);
    assert Mean(xs) == c;
    DeviationsFromConstant(xs, c);
  }

  lemma {:induction false} DeviationsFromConstant(xs: seq<real>, c: real)
    requires forall i :: 0 <= i < |xs| ==> xs[i] == c
    ensures SquaredDeviations(xs, c) == 0.0
  {
    if xs != [] {
      DeviationsFromConstant(xs[..|xs| - 1], c);
    }
  }

  /** Summing the converted list gives the converted integer sum. */
  lemma {:induction false} SumOfReals(xs: seq<int>)
    ensures Sum(Reals(xs)) == SumInt(xs) as real
  {
    if xs != [] {
      var front := xs[..|xs| - 1];
      SumOfReals(front);
      assert Reals(xs)[..|xs| - 1] == Reals(front);
    }
  }

  /** Every term is at most hi. */
  predicate AtMost(xs: seq<real>, hi: real)
  {
    forall i :: 0 <= i < |xs| ==> xs[i] <= hi
  }

  /** Every term equals c. */
  predicate AllEqual(xs: seq<real>, c: real)
  {
    forall i :: 0 <= i < |xs| ==> xs[i] == c
  }

  /** No term above hi: the sum is at most |xs| * hi, with equality exactly when every term is hi. */
  lemma {:induction false} SumAtMostTop(xs: seq<real>, hi: real)
    requires AtMost(xs, hi)
    ensures Sum(xs) <= |xs| as real * hi
    ensures Sum(xs) == |xs| as real * hi <==> AllEqual(xs, hi)
  {
    if xs != [] {
      var front := xs[..|xs| - 1];
      assert forall i :: 0 <= i < |front| ==> front[i] == xs[i];
      SumAtMostTop(front, hi);
      assert |xs| as real * hi == |front| as real * hi + hi;
    }
  }

  /** The mean of the converted list is the integer total over the length. */
  lemma MeanOfReals(xs: seq<int>)
    requires xs != []
    ensures Mean(Reals(xs)) == SumInt(xs) as real / |xs| as real
  {
    SumOfReals(xs);
  }

  /** The mean never exceeds a bound on the terms, and reaches it exactly when every term is the bound. */
  lemma MeanAtMostTop(xs: seq<real>, hi: real)
    requires xs != [] && AtMost(xs, hi)
    ensures Mean(xs) <= hi
    ensures Mean(xs) >= hi <==> AllEqual(xs, hi)
  {
    SumAtMostTop(xs, hi);
    var s, n := Sum(xs), |xs| as real;
    var q := s / n;
    assert q * n == s;
    if q >= hi {
      assert q * n >= hi * n;
    } else {
      assert q * n < hi * n;
    }
  }
}
