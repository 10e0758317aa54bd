/**
 * The frequency dictionaries that the entropy features build with
 * `d[x] = d.get(x, 0) + 1`.
 */
module Frequencies {
  /** The dictionary after counting every element of `xs`, left to right. */
  function Histogram<T>(xs: seq<T>): map<T, nat>
  {
    if xs == [] then map[]
    else
      var h := Histogram(xs[..|xs| - 1]);
      var x := xs[|xs| - 1];
      h[x := (if x in h then h[x] else 0) + 1]
  }

  /** Total of the counts of a dictionary. */
  ghost function SumValues<T>(m: map<T, nat>): nat
    decreases |m|
  {
    if m == map[] then 0
    else
      var k :| k in m;
      assert |m - {k}| == |m| - 1 by { assert (m - {k}).Keys == m.Keys - {k}; }
      m[k] + SumValues(m - {k})
  }

  /** The total does not depend on which key is taken out first. */
  lemma {:induction false} SumValuesRemove<T>(m: map<T, nat>, k: T)
    requires k in m
    ensures SumValues(m) == m[k] + SumValues(m - {k})
    decreases |m|
  {
    var j :| j in m && SumValues(m) == m[j] + SumValues(m - {j});
    if j != k {
      assert |m - {j}| == |m| - 1 by { assert (m - {j}).Keys == m.Keys - {j}; }
      assert |m - {k}| == |m| - 1 by { assert (m - {k}).Keys == m.Keys - {k}; }
      SumValuesRemove(m - {j}, k);
      SumValuesRemove(m - {k}, j);
      assert m - {j} - {k} == m - {k} - {j};
    }
  }

  /** Every key is an element of the list, and its count is the element's multiplicity. */
  lemma {:induction false} HistogramCounts<T>(xs: seq<T>)
    ensures forall x :: x in Histogram(xs) <==> x in xs
    ensures forall x :: x in Histogram(xs) ==> Histogram(xs)[x] == multiset(xs)[x] && Histogram(xs)[x] > 0
    ensures |Histogram(xs)| <= |xs|
  {
    if xs != [] {
      var front := xs[..|xs| - 1];
      var x := xs[|xs| - 1];
      assert xs == front + [x];
      HistogramCounts(front);
      var h := Histogram(front);
      if x in h {
        assert Histogram(xs).Keys == h.Keys;
      } else {
        assert Histogram(xs).Keys == h.Keys + {x};
      }
    }
  }

  /** The counts add up to the number of items counted. */
  lemma {:induction false} HistogramTotal<T>(xs: seq<T>)
    ensures SumValues(Histogram(xs)) == |xs|
  {
    if xs != [] {
      var front := xs[..|xs| - 1];
      var x := xs[|xs| - 1];
      var h := Histogram(front);
      HistogramTotal(front);
      var h' := Histogram(xs);
      SumValuesRemove(h', x);
      if x in h {
        SumValuesRemove(h, x);
        assert h' - {x} == h - {x};
      } else {
        assert h' - {x} == h;
      }
    }
  }

  /** A list of one repeated symbol has a one-key histogram, and only such a list does. */
  lemma {:induction false} SingleSymbol<T>(xs: seq<T>)
    requires xs != []
    ensures (forall i :: 0 <= i < |xs| ==> xs[i] == xs[0]) <==> Histogram(xs) == map[xs[0] := |xs|]
    ensures (forall i :: 0 <= i < |xs| ==> xs[i] == xs[0]) <==> |Histogram(xs)| == 1
  {
    HistogramCounts(xs);
    HistogramTotal(xs);
    var h := Histogram(xs);
    assert xs[0] in xs;
    if forall i :: 0 <= i < |xs| ==> xs[i] == xs[0] {
      assert h.Keys == {xs[0]} by {
        forall y | y in h ensures y == xs[0] {
          var i :| 0 <= i < |xs| && xs[i] == y;
        }
      }
      SumValuesRemove(h, xs[0]);
      assert h - {xs[0]} == map[];
      assert h == map[xs[0] := |xs|];
    } else {
      var i :| 0 <= i < |xs| && xs[i] != xs[0];
      assert xs[i] in h;
      assert {xs[0], xs[i]} <= h.Keys;
      assert |h.Keys| >= 2 by {
        assert |{xs[0], xs[i]}| == 2;
        SetSizeMonotone({xs[0], xs[i]}, h.Keys);
      }
    }
  }

  lemma SetSizeMonotone<T>(a: set<T>, b: set<T>)
    requires a <= b
    ensures |a| <= |b|
  {
    assert b == a + (b - a);
  }

  /** The counting loop: a dictionary updated in place, item by item. */
  method BuildHistogram<T>(xs: seq<T>) returns (h: map<T, nat>)
    ensures h == Histogram(xs)
  {
    h := map[];
    for i := 0 to |xs|
      invariant h == Histogram(xs[..i])
    {
      assert xs[..i + 1][..i] == xs[..i];
      var c := if xs[i] in h then h[xs[i]] else 0;
      h := h[xs[i] := c + 1];
    }
    assert xs[..|xs|] == xs;
  }
}
