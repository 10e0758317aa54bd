/**
 * The structural and statistical extractors: score length in bars, n-gram
 * repetition of the melody and of the rhythm, pitch entropy, and the
 * variance of note density across all measures.
 */
module StructureFeatures {
  import opened Music
  import opened Normalise
  import opened Stats
  import opened Entropy
  import opened NGrams
  import opened RhythmFeatures

  /** ScoreLengthInBarsExtractor: the number of measures over 200. */
  function ScoreLengthInBars(s: Score): (r: real)
    ensures 0.0 <= r <= 1.0
  {
    Clamp01(|s.measures| as real / 200.0)
  }

  /** The bar count over 200, capped at 1.0 from 200 bars on; longer scores never score lower. */
  lemma ScoreLengthIsCappedBarCount(s: Score, t: Score)
    ensures ScoreLengthInBars(s) == Min(|s.measures| as real / 200.0, 1.0)
    ensures ScoreLengthInBars(s) == 1.0 <==> |s.measures| >= 200
    ensures |s.measures| <= |t.measures| ==> ScoreLengthInBars(s) <= ScoreLengthInBars(t)
  {
  }

  /** MelodicPatternRepetitionExtractor: trigram repetition of the pitch sequence. */
  function MelodicPatternRepetition(s: Score): (r: real)
    ensures 0.0 <= r < 1.0
  {
    Repetition(Pitches(s.events))
  }

  /** RhythmicPatternRepetitionExtractor: trigram repetition of the duration sequence, chords included. */
  function RhythmicPatternRepetition(s: Score): (r: real)
    ensures 0.0 <= r < 1.0
  {
    Repetition(Durations(s.events))
  }

  /**
   * A melody of L >= 3 pitched notes that repeats one pitch has a single
   * distinct trigram, so its melodic repetition is 1 - 1/(L - 2).
   */
  lemma OnePitchMelody(s: Score, p: int)
    requires |Pitches(s.events)| >= N && Constant(Pitches(s.events), p)
    ensures MelodicPatternRepetition(s) == 1.0 - 1.0 / (|Pitches(s.events)| - 2) as real
  {
    ConstantRepetition(Pitches(s.events), p);
  }

  /** Notes of one duration throughout repeat their rhythm as much as their number allows. */
  lemma OneDurationRhythm(s: Score, d: real)
    requires |Durations(s.events)| >= N && Constant(Durations(s.events), d)
    ensures RhythmicPatternRepetition(s) == 1.0 - 1.0 / (|Durations(s.events)| - 2) as real
  {
    ConstantRepetition(Durations(s.events), d);
  }

  /** EntropyOfPitchSequenceExtractor: normalised entropy of the pitch sequence. */
  function EntropyOfPitchSequence(s: Score): Feature
  {
    EntropyFeature(Reals(Pitches(s.events)))
  }

  /** Pitch entropy is an exact 0.0 precisely when the melody is empty or repeats one pitch. */
  lemma PitchEntropyCases(s: Score)
    ensures EntropyOfPitchSequence(s).Exact? ==> EntropyOfPitchSequence(s).value == 0.0
    ensures EntropyOfPitchSequence(s).Exact? <==>
      Pitches(s.events) == [] || Constant(Pitches(s.events), Pitches(s.events)[0])
  {
    var ps := Pitches(s.events);
    EntropyFeatureCases(Reals(ps));
    if ps != [] {
      OnePitchIffOneValue(ps);
    }
  }

  lemma OnePitchIffOneValue(ps: seq<int>)
    requires ps != []
    ensures AllSame(Reals(ps)) <==> Constant(ps, ps[0])
  {
    var xs := Reals(ps);
    if AllSame(xs) {
      forall i | 0 <= i < |ps| ensures ps[i] == ps[0] {
        assert xs[i] == ps[i] as real && xs[0] == ps[0] as real;
      }
    }
  }

  /** VarianceInNoteDensityExtractor: sample variance of every measure's note count over 10. */
  function VarianceInNoteDensity(s: Score): (r: real)
    ensures 0.0 <= r <= 1.0
  {
    ScaledVariance(BarCounts(s.measures), 10.0)
  }

  /**
   * When every measure holds a note, note-density variance and note-count
   * variability read the same sample variance v of the bar counts, against
   * 10 and against 20 respectively.
   */
  lemma DensityAndVariabilityShareTheVariance(counts: seq<nat>)
    requires |counts| >= 2 && AllPositive(counts)
    ensures var v := SampleVariance(Reals(counts));
      && ScaledVariance(counts, 10.0) == (if v <= 10.0 then v / 10.0 else 1.0)
      && VariabilityOf(counts) == (if v <= 20.0 then v / 20.0 else 1.0)
  {
    NonEmptyCountsOfFullBars(counts);
    ScaledVarianceCases(counts, 10.0);
    ScaledVarianceCases(counts, 20.0);
  }

  /** Measures with equal note counts give no note-density variance. */
  lemma EvenDensity(s: Score)
    requires UniformCounts(BarCounts(s.measures))
    ensures VarianceInNoteDensity(s) == 0.0
  {
    UniformCountsHaveNoVariance(BarCounts(s.measures), 10.0);
  }

  /**
   * An empty measure separates the two: bar counts 1, 1, 0 have no
   * note-count variability (the empty bar is skipped) but a note-density
   * variance of 1/3, read as 1/30.
   */
  lemma EmptyBarSeparatesTheTwo()
    ensures VariabilityOf([1, 1, 0]) == 0.0
    ensures ScaledVariance([1, 1, 0], 10.0) == 1.0 / 30.0
  {
    SkipsTheEmptyBar();
    UniformCountsHaveNoVariance([1, 1], 20.0);
    VarianceOfOneOneZero();
    ScaledThird();
  }

  lemma SkipsTheEmptyBar()
    ensures NonEmptyCounts([1, 1, 0]) == [1, 1]
  {
    var counts: seq<nat> := [1, 1, 0];
    assert counts[..2] == [1, 1] && counts[..2][..1] == [1];
  }

  lemma VarianceOfOneOneZero()
    ensures SampleVariance(Reals([1, 1, 0])) == 1.0 / 3.0
  {
    var xs := Reals([1, 1, 0]);
    assert xs == [1.0, 1.0, 0.0];
    var one, two := [1.0], [1.0, 1.0];
    assert xs[..2] == two && two[..1] == one && one[..0] == [];
    assert Sum(one) == 1.0;
    assert Sum(two) == 2.0;
    assert Sum(xs) == 2.0;
    var m := 2.0 / 3.0;
    assert Mean(xs) == m;
    assert SquaredDeviations(one, m) == 1.0 / 9.0;
    assert SquaredDeviations(two, m) == 2.0 / 9.0;
    assert SquaredDeviations(xs, m) == 2.0 / 3.0;
  }

  lemma ScaledThird()
    ensures Clamp01((1.0 / 3.0) / 10.0) == 1.0 / 30.0
  {
  }
}
