/**
 * The normalised Shannon entropy shared by the interval, rhythm and pitch
 * entropy extractors: 0.0 for an empty list or for a single distinct symbol
 * (where log2 of the number of symbols is 0), otherwise the entropy of the
 * frequency histogram divided by log2 of its number of keys. The model keeps
 * the histogram and does not evaluate the logarithms.
 */
module Entropy {
  import opened Music
  import opened Frequencies

  function EntropyFeature(xs: seq<real>): Feature
  {
    if xs == [] then Exact(0.0)
    else
      var h := Histogram(xs);
      if |h| < 2 then Exact(0.0) else NormalizedEntropy(h)
  }

  /** Every symbol equals the first. */
  predicate AllSame(xs: seq<real>)
  {
    forall i :: 0 <= i < |xs| ==> xs[i] == xs[0]
  }

  /**
   * The entropy feature is an exact 0.0 precisely for an empty list or a list
   * of one repeated symbol; otherwise it is the entropy of the list's own
   * histogram, which has at least two keys, exactly the list's symbols, each
   * counted as often as it occurs.
   */
  lemma EntropyFeatureCases(xs: seq<real>)
    ensures EntropyFeature(xs).Exact? ==> EntropyFeature(xs).value == 0.0
    ensures EntropyFeature(xs).Exact? <==> xs == [] || AllSame(xs)
    ensures var f := EntropyFeature(xs);
      f.NormalizedEntropy? ==>
        && f.histogram == Histogram(xs)
        && 2 <= |f.histogram| <= |xs|
        && SumValues(f.histogram) == |xs|
        && (forall x :: x in f.histogram <==> x in xs)
        && (forall x :: x in f.histogram ==> f.histogram[x] == multiset(xs)[x] > 0)
  {
    if xs != [] {
      SingleSymbol(xs);
      HistogramCounts(xs);
      HistogramTotal(xs);
    }
  }

  /** The counting loop (`unique[d] = unique.get(d, 0) + 1`) and the two guards. */
  method ExtractEntropy(xs: seq<real>) returns (f: Feature)
    ensures f == EntropyFeature(xs)
  {
    if xs == [] {
      return Exact(0.0);
    }
    var unique := BuildHistogram(xs);
    if |unique| < 2 {
      f := Exact(0.0);
    } else {
      f := NormalizedEntropy(unique);
    }
  }
}
