/**
 * The rhythm and duration extractors. Durations and onsets are read from
 * every element of `.notes` (notes and chords); the bar-based extractors
 * read the note count of each measure; the rest extractor reads notes and
 * rests.
 */
module RhythmFeatures {
  import opened Music
  import opened Normalise
  import opened Stats
  import opened Entropy
  import opened Frequencies

  // ---------------------------------------------------------------------------
  // AverageNoteDurationExtractor

  /** Mean duration over the longest duration; 0.0 without notes or when the longest is not positive. */
  function AverageNoteDuration(s: Score): (r: real)
    ensures 0.0 <= r <= 1.0
  {
    AverageDurationOf(Durations(s.events))
  }

  function AverageDurationOf(ds: seq<real>): (r: real)
    ensures 0.0 <= r <= 1.0
  {
    if ds == [] then 0.0
    else
      var top := MaxReal(ds);
      Clamp01(if top > 0.0 then Mean(ds) / top else 0.0)
  }

  /** No duration is negative. */
  predicate NonnegativeDurations(ds: seq<real>)
  {
    forall i :: 0 <= i < |ds| ==> ds[i] >= 0.0
  }

  lemma AverageDurationUnfolds(ds: seq<real>)
    requires ds != [] && MaxReal(ds) > 0.0
    ensures AverageDurationOf(ds) == Clamp01(Mean(ds) / MaxReal(ds))
  {
  }

  /**
   * For durations that are never negative, with a positive longest one, the
   * clamp never applies: the value is the mean over the maximum.
   */
  lemma AverageDurationIsMeanOverMax(ds: seq<real>)
    requires ds != [] && NonnegativeDurations(ds) && MaxReal(ds) > 0.0
    ensures AverageDurationOf(ds) == Mean(ds) / MaxReal(ds)
  {
    MeanInRange(ds);
    RatioBounds(Mean(ds), MaxReal(ds));
    AverageDurationUnfolds(ds);
  }

  lemma MeanInRange(ds: seq<real>)
    requires ds != [] && NonnegativeDurations(ds)
    ensures 0.0 <= Mean(ds) <= MaxReal(ds)
  {
    MeanBounds(ds, 0.0, MaxReal(ds));
  }

  /** With a positive longest duration, the value is 1.0 exactly when all durations are equal. */
  lemma AverageDurationOneIffUniform(ds: seq<real>)
    requires ds != [] && MaxReal(ds) > 0.0
    ensures AverageDurationOf(ds) == 1.0 <==> AllSame(ds)
  {
    AverageDurationUnfolds(ds);
    MeanReachesMaxIffUniform(ds);
    RatioAtLeastOne(Mean(ds), MaxReal(ds));
  }

  lemma MeanReachesMaxIffUniform(ds: seq<real>)
    requires ds != []
    ensures Mean(ds) >= MaxReal(ds) <==> AllSame(ds)
  {
    assert AtMost(ds, MaxReal(ds));
    MeanAtMostTop(ds, MaxReal(ds));
    AllAtTopIffSame(ds);
  }

  /** Every duration equals the longest exactly when all durations are equal. */
  lemma AllAtTopIffSame(ds: seq<real>)
    requires ds != []
    ensures AllEqual(ds, MaxReal(ds)) <==> AllSame(ds)
  {
    var top := MaxReal(ds);
    var j :| 0 <= j < |ds| && ds[j] == top;
    if AllSame(ds) {
      forall i | 0 <= i < |ds| ensures ds[i] == top {
        assert ds[i] == ds[0] == ds[j];
      }
    }
  }

  // ---------------------------------------------------------------------------
  // RhythmComplexityExtractor

  /** Normalised entropy of the durations; an exact 0.0 without notes or with one duration value. */
  function RhythmComplexity(s: Score): Feature
  {
    EntropyFeature(Durations(s.events))
  }

  /** Rhythm complexity is exact (and 0.0) precisely when the notes share one duration or there are none. */
  lemma RhythmComplexityCases(s: Score)
    ensures RhythmComplexity(s).Exact? ==> RhythmComplexity(s).value == 0.0
    ensures RhythmComplexity(s).Exact? <==> Durations(s.events) == [] || AllSame(Durations(s.events))
    ensures RhythmComplexity(s).NormalizedEntropy? ==>
      SumValues(RhythmComplexity(s).histogram) == |Durations(s.events)|
  {
    EntropyFeatureCases(Durations(s.events));
  }

  // ---------------------------------------------------------------------------
  // SyncopationExtractor

  /** An onset on an integer offset falls on the beat (`offset % 1 == 0`). */
  predicate OnBeat(o: real)
  {
    o.Floor as real == o
  }

  /** Number of onsets off the beat. */
  function OffBeats(os: seq<real>): (c: nat)
    ensures c <= |os|
  {
    if os == [] then 0
    else OffBeats(os[..|os| - 1]) + (if OnBeat(os[|os| - 1]) then 0 else 1)
  }

  /** Syncopated onsets over all onsets; 0.0 without notes. */
  function Syncopation(s: Score): (r: real)
    ensures 0.0 <= r <= 1.0
  {
    SyncopationOf(Offsets(s.events))
  }

  function SyncopationOf(os: seq<real>): (r: real)
    ensures 0.0 <= r <= 1.0
  {
    if os == [] then 0.0 else Clamp01(OffBeats(os) as real / |os| as real)
  }

  /** The counting loop over `score.recurse().notes`. */
  method ExtractSyncopation(s: Score) returns (r: real)
    ensures r == Syncopation(s)
  {
    var es := s.events;
    var noteCount, syncopated := 0, 0;
    for i := 0 to |es|
      invariant noteCount == |Offsets(es[..i])| && syncopated == OffBeats(Offsets(es[..i]))
    {
      assert es[..i + 1][..i] == es[..i];
      if IsSounding(es[i]) {
        var o := es[i].offset;
        OffBeatsSnoc(Offsets(es[..i]), o);
        noteCount := noteCount + 1;
        if !OnBeat(o) {
          syncopated := syncopated + 1;
        }
      } else {
        assert Offsets(es[..i + 1]) == Offsets(es[..i]) + [] == Offsets(es[..i]);
      }
    }
    assert es[..|es|] == es;
    if noteCount == 0 {
      return 0.0;
    }
    r := Clamp01(syncopated as real / noteCount as real);
  }

  lemma OffBeatsSnoc(os: seq<real>, o: real)
    ensures OffBeats(os + [o]) == OffBeats(os) + (if OnBeat(o) then 0 else 1)
  {
    assert (os + [o])[..|os|] == os;
  }

  /** Every onset on the beat. */
  predicate AllOnBeat(os: seq<real>)
  {
    forall i :: 0 <= i < |os| ==> OnBeat(os[i])
  }

  /** Every onset off the beat. */
  predicate AllOffBeat(os: seq<real>)
  {
    forall i :: 0 <= i < |os| ==> !OnBeat(os[i])
  }

  lemma {:induction false} OffBeatsExtremes(os: seq<real>)
    ensures OffBeats(os) == 0 <==> AllOnBeat(os)
    ensures OffBeats(os) == |os| <==> AllOffBeat(os)
  {
    if os != [] {
      var front := os[..|os| - 1];
      assert forall i :: 0 <= i < |front| ==> front[i] == os[i];
      OffBeatsExtremes(front);
    }
  }

  lemma SyncopationUnfolds(os: seq<real>)
    requires os != []
    ensures SyncopationOf(os) == Clamp01(OffBeats(os) as real / |os| as real)
  {
  }

  /**
   * Syncopation is the off-beat share of the onsets with no clamping needed;
   * it is 0.0 exactly when every onset is on the beat and 1.0 exactly when
   * none is.
   */
  lemma SyncopationIsOffBeatShare(os: seq<real>)
    requires os != []
    ensures SyncopationOf(os) == OffBeats(os) as real / |os| as real
    ensures SyncopationOf(os) == 0.0 <==> AllOnBeat(os)
    ensures SyncopationOf(os) == 1.0 <==> AllOffBeat(os)
  {
    SyncopationUnfolds(os);
    ComplementaryShares(OffBeats(os), |os| - OffBeats(os), |os|);
    ShareExtremes(OffBeats(os), |os|);
    OffBeatsExtremes(os);
  }

  // ---------------------------------------------------------------------------
  // NoteCountPerBarExtractor

  /** Mean notes per measure over 20; 0.0 without measures. */
  function NoteCountPerBar(s: Score): (r: real)
    ensures 0.0 <= r <= 1.0
  {
    NoteCountPerBarOf(BarCounts(s.measures))
  }

  function NoteCountPerBarOf(counts: seq<nat>): (r: real)
    ensures 0.0 <= r <= 1.0
  {
    if counts == [] then 0.0 else Clamp01(Mean(Reals(counts)) / 20.0)
  }

  lemma NoteCountPerBarUnfolds(counts: seq<nat>)
    requires counts != []
    ensures NoteCountPerBarOf(counts) == Clamp01(Mean(Reals(counts)) / 20.0)
  {
  }

  /**
   * Notes per bar is the note total over 20 times the number of measures,
   * capped at 1.0 (reached when bars average 20 notes or more); counts are
   * never negative, so the lower clamp never applies.
   */
  lemma NoteCountPerBarIsCappedMean(counts: seq<nat>)
    requires counts != []
    ensures NoteCountPerBarOf(counts) == Min(SumInt(counts) as real / (20.0 * |counts| as real), 1.0)
  {
    var t, n := SumInt(counts), |counts|;
    NoteCountPerBarUnfolds(counts);
    MeanOfReals(counts);
    NonnegativeTotal(counts);
    CappedScaledMean(t, n, 20.0);
    assert Mean(Reals(counts)) / 20.0 == (t as real / n as real) / 20.0;
  }

  lemma NonnegativeTotal(counts: seq<nat>)
    ensures SumInt(counts) >= 0
  {
    SumIntNonnegative(counts);
  }

  // ---------------------------------------------------------------------------
  // NoteCountPerBarVariabilityExtractor

  /** The note counts of the measures that hold at least one note, in order. */
  function NonEmptyCounts(counts: seq<nat>): (r: seq<nat>)
    ensures |r| <= |counts|
    ensures forall i :: 0 <= i < |r| ==> r[i] > 0
  {
    if counts == [] then []
    else NonEmptyCounts(counts[..|counts| - 1]) + (if counts[|counts| - 1] > 0 then [counts[|counts| - 1]] else [])
  }

  /** Sample variance of the non-empty bars' note counts over 20; 0.0 with fewer than two such bars. */
  function NoteCountPerBarVariability(s: Score): (r: real)
    ensures 0.0 <= r <= 1.0
  {
    VariabilityOf(BarCounts(s.measures))
  }

  function VariabilityOf(counts: seq<nat>): (r: real)
    ensures 0.0 <= r <= 1.0
  {
    ScaledVariance(NonEmptyCounts(counts), 20.0)
  }

  /**
   * `statistics.variance` of the counts over an assumed largest variance c,
   * clamped; 0.0 with fewer than two counts.
   */
  function ScaledVariance(counts: seq<nat>, c: real): (r: real)
    requires c > 0.0
    ensures 0.0 <= r <= 1.0
  {
    if |counts| < 2 then 0.0 else Clamp01(SampleVariance(Reals(counts)) / c)
  }

  /** Every count is positive: every measure holds a note. */
  predicate AllPositive(counts: seq<nat>)
  {
    forall i :: 0 <= i < |counts| ==> counts[i] > 0
  }

  /** Without empty measures the filter keeps every count. */
  lemma {:induction false} NonEmptyCountsOfFullBars(counts: seq<nat>)
    requires AllPositive(counts)
    ensures NonEmptyCounts(counts) == counts
  {
    if counts != [] {
      var front := counts[..|counts| - 1];
      assert forall i :: 0 <= i < |front| ==> front[i] == counts[i];
      NonEmptyCountsOfFullBars(front);
    }
  }

  /** An empty measure, wherever it stands, does not change the variability. */
  lemma EmptyBarIgnored(before: seq<nat>, after: seq<nat>)
    ensures VariabilityOf(before + [0] + after) == VariabilityOf(before + after)
  {
    NonEmptyCountsSkipEmpty(before, after);
  }

  lemma NonEmptyCountsSkipEmpty(before: seq<nat>, after: seq<nat>)
    ensures NonEmptyCounts(before + [0] + after) == NonEmptyCounts(before + after)
  {
    NonEmptyCountsConcat(before + [0], after);
    NonEmptyCountsConcat(before, [0]);
    NonEmptyCountsConcat(before, after);
    assert NonEmptyCounts([0]) == [];
    assert NonEmptyCounts(before) + [] == NonEmptyCounts(before);
  }

  /** The filter keeps order: it works measure by measure across a concatenation. */
  lemma {:induction false} NonEmptyCountsConcat(a: seq<nat>, b: seq<nat>)
    ensures NonEmptyCounts(a + b) == NonEmptyCounts(a) + NonEmptyCounts(b)
  {
    if b != [] {
      var front := b[..|b| - 1];
      NonEmptyCountsConcat(a, front);
      assert (a + b)[..|a + b| - 1] == a + front;
    } else {
      assert a + b == a;
    }
  }

  /** Every non-empty measure has the same number of notes. */
  predicate UniformCounts(nc: seq<nat>)
  {
    forall i :: 0 <= i < |nc| ==> nc[i] == nc[0]
  }

  /** Measures that all hold the same number of notes (empty ones aside) give variability 0.0. */
  lemma UniformBarsHaveNoVariability(counts: seq<nat>)
    requires UniformCounts(NonEmptyCounts(counts))
    ensures VariabilityOf(counts) == 0.0
  {
    UniformCountsHaveNoVariance(NonEmptyCounts(counts), 20.0);
  }

  /** Equal counts have sample variance 0, so any scaling of it is 0.0. */
  lemma UniformCountsHaveNoVariance(counts: seq<nat>, c: real)
    requires c > 0.0 && UniformCounts(counts)
    ensures ScaledVariance(counts, c) == 0.0
  {
    if |counts| >= 2 {
      ConstantVarianceIsZero(Reals(counts), counts[0] as real);
      ZeroScaled(c);
    }
  }

  lemma ZeroScaled(c: real)
    requires c > 0.0
    ensures Clamp01(0.0 / c) == 0.0
  {
  }

  /** The variance scaled by c needs no clamping while it stays at most c, and reads 1.0 beyond. */
  lemma ScaledVarianceCases(counts: seq<nat>, c: real)
    requires c > 0.0 && |counts| >= 2
    ensures var v := SampleVariance(Reals(counts));
      ScaledVariance(counts, c) == if v <= c then v / c else 1.0
  {
    var v := SampleVariance(Reals(counts));
    RatioAtLeastOne(v, c);
    if v <= c {
      RatioBounds(v, c);
    }
  }

  // ---------------------------------------------------------------------------
  // RestFrequencyExtractor

  /** Number of single notes (chords are not `Note` instances and are not counted). */
  function NoteEvents(es: seq<Event>): nat
  {
    if es == [] then 0 else NoteEvents(es[..|es| - 1]) + (if es[|es| - 1].Note? then 1 else 0)
  }

  function RestEvents(es: seq<Event>): nat
  {
    if es == [] then 0 else RestEvents(es[..|es| - 1]) + (if es[|es| - 1].Rest? then 1 else 0)
  }

  /** Rests over notes plus rests; 0.0 when there are neither. */
  function RestFrequency(s: Score): (r: real)
    ensures 0.0 <= r <= 1.0
  {
    RestFrequencyOf(NoteEvents(s.events), RestEvents(s.events))
  }

  function RestFrequencyOf(notes: nat, rests: nat): (r: real)
    ensures 0.0 <= r <= 1.0
  {
    if notes + rests == 0 then 0.0 else Clamp01(rests as real / (notes + rests) as real)
  }

  /** The counting loop over `score.recurse().notesAndRests`. */
  method ExtractRestFrequency(s: Score) returns (r: real)
    ensures r == RestFrequency(s)
  {
    var es := s.events;
    var noteCount, restCount := 0, 0;
    for i := 0 to |es|
      invariant noteCount == NoteEvents(es[..i]) && restCount == RestEvents(es[..i])
    {
      assert es[..i + 1][..i] == es[..i];
      if es[i].Note? {
        noteCount := noteCount + 1;
      } else if es[i].Rest? {
        restCount := restCount + 1;
      }
    }
    assert es[..|es|] == es;
    var total := noteCount + restCount;
    if total == 0 {
      return 0.0;
    }
    r := Clamp01(restCount as real / total as real);
  }

  /** The notes counted here are exactly the pitched notes the pitch extractors read. */
  lemma {:induction false} NoteEventsArePitches(es: seq<Event>)
    ensures NoteEvents(es) == |Pitches(es)|
    ensures NoteEvents(es) + RestEvents(es) <= |es|
  {
    if es != [] {
      NoteEventsArePitches(es[..|es| - 1]);
    }
  }

  /**
   * Rest frequency is the rest share with no clamping needed; together with
   * the note share it makes 1. With no rests it is 0.0, with rests but no
   * single notes it is 1.0.
   */
  lemma RestFrequencyIsRestShare(notes: nat, rests: nat)
    ensures notes + rests > 0 ==>
      && RestFrequencyOf(notes, rests) == rests as real / (notes + rests) as real
      && RestFrequencyOf(notes, rests) + notes as real / (notes + rests) as real == 1.0
    ensures rests == 0 ==> RestFrequencyOf(notes, rests) == 0.0
    ensures notes == 0 && rests > 0 ==> RestFrequencyOf(notes, rests) == 1.0
  {
    if notes + rests > 0 {
      ComplementaryShares(rests, notes, notes + rests);
      ShareExtremes(rests, notes + rests);
    }
  }

  /** A score of chords alone (no single notes, no rests) has rest frequency 0.0. */
  lemma ChordsOnly(s: Score)
    requires forall i :: 0 <= i < |s.events| ==> s.events[i].Chord?
    ensures RestFrequency(s) == 0.0
  {
    ChordsCountAsNeither(s.events);
  }

  lemma {:induction false} ChordsCountAsNeither(es: seq<Event>)
    requires forall i :: 0 <= i < |es| ==> es[i].Chord?
    ensures NoteEvents(es) == 0 && RestEvents(es) == 0
  {
    if es != [] {
      var front := es[..|es| - 1];
      assert forall i :: 0 <= i < |front| ==> front[i] == es[i];
      ChordsCountAsNeither(front);
    }
  }

  /** Both counters add up over a split of the events. */
  lemma {:induction false} CountsConcat(a: seq<Event>, b: seq<Event>)
    ensures NoteEvents(a + b) == NoteEvents(a) + NoteEvents(b)
    ensures RestEvents(a + b) == RestEvents(a) + RestEvents(b)
    decreases |b|
  {
    if b != [] {
      var front := b[..|b| - 1];
      assert (a + b)[..|a + b| - 1] == a + front;
      assert (a + b)[|a + b| - 1] == b[|b| - 1];
      CountsConcat(a, front);
    } else {
      assert a + b == a;
    }
  }

  /** A chord anywhere among the events changes neither counter, so the rest frequency stays what it was. */
  lemma ChordIgnored(before: seq<Event>, d: real, o: real, after: seq<Event>, ms: seq<seq<Event>>)
    ensures NoteEvents(before + [Chord(d, o)] + after) == NoteEvents(before + after)
    ensures RestEvents(before + [Chord(d, o)] + after) == RestEvents(before + after)
    ensures RestFrequency(Score(before + [Chord(d, o)] + after, ms)) == RestFrequency(Score(before + after, ms))
  {
    CountsConcat(before + [Chord(d, o)], after);
    CountsConcat(before, [Chord(d, o)]);
    CountsConcat(before, after);
    assert [Chord(d, o)][..0] == [];
  }

  /** Nothing to measure: each rhythm feature is exactly 0.0 instead of an error. */
  lemma NothingToMeasure(ds: seq<real>, os: seq<real>, counts: seq<nat>)
    ensures ds == [] ==> AverageDurationOf(ds) == 0.0
    ensures ds != [] && MaxReal(ds) <= 0.0 ==> AverageDurationOf(ds) == 0.0
    ensures os == [] ==> SyncopationOf(os) == 0.0
    ensures counts == [] ==> NoteCountPerBarOf(counts) == 0.0
    ensures |NonEmptyCounts(counts)| < 2 ==> VariabilityOf(counts) == 0.0
    ensures |counts| < 2 ==> ScaledVariance(counts, 10.0) == 0.0
  {
  }
}
