/** The clamp every extractor applies last: `min(max(x, 0.0), 1.0)`. */
module Normalise {
  function Min(a: real, b: real): real { if a <= b then a else b }
  function Max(a: real, b: real): real { if a >= b then a else b }

  /** Clamps a raw ratio into the unit interval; values already inside are kept. */
  function Clamp01(x: real): (r: real)
    ensures 0.0 <= r <= 1.0
    ensures 0.0 <= x <= 1.0 ==> r == x
    ensures x > 1.0 ==> r == 1.0
    ensures x < 0.0 ==> r == 0.0
  {
    Min(Max(x, 0.0), 1.0)
  }

  /** A part over a positive whole lies in the unit interval. */
  lemma RatioBounds(a: real, b: real)
    requires 0.0 <= a <= b && 0.0 < b
    ensures 0.0 <= a / b <= 1.0
  {
  }

  lemma RatioSum(a: real, c: real, b: real)
    requires b != 0.0
    ensures a / b + c / b == (a + c) / b
  {
  }

  lemma NestedRatio(a: real, n: real, c: real)
    requires n > 0.0 && c > 0.0
    ensures (a / n) / c == a / (c * n)
  {
    var q := (a / n) / c;
    assert q * c == a / n;
    assert (q * c) * n == a;
    assert q * (c * n) == a;
  }

  lemma PositiveRatio(a: real, b: real)
    requires a > 0.0 && b > 0.0
    ensures a / b > 0.0
  {
  }

  /** A mean of n terms, each at most c, scaled by 1/c needs no clamping. */
  lemma MeanWithinBound(total: real, n: real, c: real)
    requires n > 0.0 && c > 0.0 && 0.0 <= total <= c * n
    ensures Clamp01((total / n) / c) == total / (c * n)
  {
    NestedRatio(total, n, c);
    RatioBounds(total, c * n);
  }

  /** The same for an integer total over a positive integer count. */
  lemma IntMeanWithinBound(total: int, n: int, c: real)
    requires n > 0 && c > 0.0 && 0.0 <= total as real <= c * n as real
    ensures Clamp01((total as real / n as real) / c) == total as real / (c * n as real)
  {
    var t, m := total as real, n as real;
    NestedRatio(t, m, c);
    RatioBounds(t, c * m);
    var x := (t / m) / c;
    assert x == t / (c * m);
    assert Clamp01(x) == x;
  }

  /** Two counts that make up a positive whole: each share is unclamped and they add to 1. */
  lemma ComplementaryShares(a: nat, b: nat, n: nat)
    requires n > 0 && a + b == n
    ensures Clamp01(a as real / n as real) == a as real / n as real
    ensures a as real / n as real + b as real / n as real == 1.0
  {
    RatioBounds(a as real, n as real);
    RatioSum(a as real, b as real, n as real);
  }

  lemma ZeroShare(n: nat)
    requires n > 0
    ensures Clamp01(0 as real / n as real) == 0.0
  {
  }

  /** A non-negative value is only capped from above. */
  lemma ClampNonnegative(x: real)
    requires x >= 0.0
    ensures Clamp01(x) == Min(x, 1.0)
  {
  }

  /** A share of a positive whole is 0 or 1 exactly at the ends. */
  lemma ShareExtremes(a: nat, n: nat)
    requires 0 < n && a <= n
    ensures a as real / n as real == 0.0 <==> a == 0
    ensures a as real / n as real == 1.0 <==> a == n
  {
    var q := a as real / n as real;
    assert q * n as real == a as real;
  }

  /** Against a positive bound b, a / b reaches 1 exactly when a reaches b. */
  lemma RatioAtLeastOne(a: real, b: real)
    requires b > 0.0
    ensures a / b >= 1.0 <==> a >= b
  {
    var q := a / b;
    assert q * b == a;
    if q >= 1.0 {
      assert q * b >= 1.0 * b;
    } else {
      assert q * b < 1.0 * b;
    }
  }

  /** A mean s / n reaches m exactly when the total s reaches n * m. */
  lemma MeanAtLeast(s: real, n: real, m: real)
    requires n > 0.0
    ensures s / n >= m <==> s >= n * m
  {
    var q := s / n;
    assert q * n == s;
    if q >= m {
      assert q * n >= m * n;
    } else {
      assert q * n < m * n;
    }
  }

  /** A non-negative integer mean scaled by 1/c is the total over c * n, capped at 1. */
  lemma CappedScaledMean(total: int, n: int, c: real)
    requires total >= 0 && n > 0 && c > 0.0
    ensures Clamp01((total as real / n as real) / c) == Min(total as real / (c * n as real), 1.0)
  {
    NestedRatio(total as real, n as real, c);
    PositivePart(total as real, c * n as real);
    ClampNonnegative(total as real / (c * n as real));
  }

  lemma PositivePart(a: real, b: real)
    requires a >= 0.0 && b > 0.0
    ensures a / b >= 0.0
  {
  }
}
