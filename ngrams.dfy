/**
 * The n-gram repetition measure shared by the melodic and rhythmic pattern
 * extractors, with n = 3. The source joins each window into a string of
 * space-separated decimal tokens; since a token holds no space, that join is
 * injective and a window is modelled as a triple.
 */
module NGrams {
  import opened Normalise

  /** The window width the source hard-codes. */
  const N: nat := 3

  /** Every window of three consecutive items, in order. */
  function Trigrams<T>(xs: seq<T>): (g: seq<(T, T, T)>)
    ensures |g| == if |xs| < N then 0 else |xs| - N + 1
    ensures forall i {:trigger g[i]} :: 0 <= i < |g| ==> g[i] == (xs[i], xs[i + 1], xs[i + 2])
  {
    if |xs| < N then [] else seq(|xs| - N + 1, i requires 0 <= i < |xs| - N + 1 => (xs[i], xs[i + 1], xs[i + 2]))
  }

  /** `set(g)`: the distinct elements, never more than the elements. */
  function ElementSet<T(!new, ==)>(g: seq<T>): (r: set<T>)
    ensures forall i :: 0 <= i < |g| ==> g[i] in r
    ensures forall x :: x in r ==> exists i :: 0 <= i < |g| && g[i] == x
    ensures |r| <= |g|
    ensures g != [] ==> |r| >= 1
    ensures AllDistinct(g) ==> |r| == |g|
  {
    if g == [] then {}
    else
      var front := g[..|g| - 1];
      assert forall i :: 0 <= i < |front| ==> front[i] == g[i];
      var r := ElementSet(front);
      assert g == front + [g[|g| - 1]];
      r + {g[|g| - 1]}
  }

  /** No element occurs twice. */
  predicate AllDistinct<T(==)>(g: seq<T>)
  {
    forall i, j :: 0 <= i < j < |g| ==> g[i] != g[j]
  }

  /** Every item equals c. */
  predicate Constant<T(==)>(xs: seq<T>, c: T)
  {
    forall i :: 0 <= i < |xs| ==> xs[i] == c
  }

  /** `1 - len(set(ngrams)) / len(ngrams)`, or 0.0 for fewer than three items. */
  function Repetition<T(!new, ==)>(xs: seq<T>): (r: real)
    ensures 0.0 <= r < 1.0
  {
    if |xs| < N then 0.0
    else
      var g := Trigrams(xs);
      UnitRatio(|ElementSet(g)| as real, |g| as real);
      Clamp01(1.0 - |ElementSet(g)| as real / |g| as real)
  }

  lemma UnitRatio(d: real, t: real)
    requires 1.0 <= d <= t
    ensures 0.0 < 1.0 / t <= d / t <= 1.0
  {
    var q := d / t;
    assert q * t == d;
    var u := 1.0 / t;
    assert u * t == 1.0;
  }

  /** With at least three items the clamp never bites: the value is 1 - distinct / total exactly. */
  lemma RepetitionIsUnclamped<T(!new)>(xs: seq<T>)
    requires |xs| >= N
    ensures Repetition(xs) == 1.0 - |ElementSet(Trigrams(xs))| as real / (|xs| - 2) as real
  {
    RepetitionUnfolds(xs);
    UnclampedComplement(|ElementSet(Trigrams(xs))|, |Trigrams(xs)|);
  }

  lemma RepetitionUnfolds<T(!new)>(xs: seq<T>)
    requires |xs| >= N
    ensures var g := Trigrams(xs);
      Repetition(xs) == Clamp01(1.0 - |ElementSet(g)| as real / |g| as real)
  {
  }

  lemma UnclampedComplement(d: nat, t: nat)
    requires 1 <= d <= t
    ensures Clamp01(1.0 - d as real / t as real) == 1.0 - d as real / t as real
  {
    UnitRatio(d as real, t as real);
  }

  lemma ShortSequence<T(!new)>(xs: seq<T>)
    requires |xs| < N
    ensures Repetition(xs) == 0.0
  {
  }

  /** Distinct n-grams are at least one and at most all of them. */
  lemma DistinctBetweenOneAndTotal<T(!new)>(xs: seq<T>)
    requires |xs| >= N
    ensures 1 <= |ElementSet(Trigrams(xs))| <= |xs| - 2
  {
  }

  /** A constant sequence of length L >= 3 repeats as much as L allows: 1 - 1/(L - 2). */
  lemma ConstantRepetition<T(!new)>(xs: seq<T>, c: T)
    requires |xs| >= N
    requires Constant(xs, c)
    ensures Repetition(xs) == 1.0 - 1.0 / (|xs| - 2) as real
  {
    ConstantWindows(xs, c);
    RepetitionFromDistinct(xs, 1);
  }

  lemma RepetitionFromDistinct<T(!new)>(xs: seq<T>, d: nat)
    requires |xs| >= N
    requires |ElementSet(Trigrams(xs))| == d
    ensures Repetition(xs) == 1.0 - d as real / (|xs| - 2) as real
  {
    RepetitionIsUnclamped(xs);
  }

  lemma ConstantWindows<T(!new)>(xs: seq<T>, c: T)
    requires |xs| >= N
    requires Constant(xs, c)
    ensures |ElementSet(Trigrams(xs))| == 1
  {
    var g := Trigrams(xs);
    var e := ElementSet(g);
    assert (c, c, c) in e by { assert g[0] == (c, c, c); }
    forall x | x in e ensures x == (c, c, c) {
      var i :| 0 <= i < |g| && g[i] == x;
      assert g[i] == (xs[i], xs[i + 1], xs[i + 2]);
    }
    SingletonSize(e, (c, c, c));
  }

  lemma SingletonSize<U>(e: set<U>, x: U)
    requires x in e && forall y :: y in e ==> y == x
    ensures |e| == 1
  {
    assert e == {x};
  }

  /** A sequence with no repeated window scores 0. */
  lemma NoRepeatedWindow<T(!new)>(xs: seq<T>)
    requires AllDistinct(Trigrams(xs))
    ensures Repetition(xs) == 0.0
  {
    if |xs| >= N {
      assert |ElementSet(Trigrams(xs))| == |xs| - 2;
      AllWindowsDistinct(xs);
    }
  }

  lemma AllWindowsDistinct<T(!new)>(xs: seq<T>)
    requires |xs| >= N
    requires |ElementSet(Trigrams(xs))| == |xs| - 2
    ensures Repetition(xs) == 0.0
  {
    RepetitionFromDistinct(xs, |xs| - 2);
    SelfRatio((|xs| - 2) as real);
  }

  lemma SelfRatio(t: real)
    requires t > 0.0
    ensures 1.0 - t / t == 0.0
  {
  }
}
