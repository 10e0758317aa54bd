/**
 * `extract_all_features`: runs a list of extractors over one score and
 * collects a dictionary from each extractor's class name to its value. A
 * later extractor of the same class overwrites an earlier one's entry.
 */
module FeatureSet {
  import opened Music
  import opened Entropy
  import opened PitchFeatures
  import opened RhythmFeatures
  import opened StructureFeatures
  import opened Stats

  /** The seventeen extractor classes. */
  datatype Extractor =
    | PitchRangeExtractor
    | AverageIntervalExtractor
    | IntervalComplexityExtractor
    | LeapFrequencyExtractor
    | ContourDirectionalityExtractor
    | MelodicContourComplexityExtractor
    | AverageNoteDurationExtractor
    | RhythmComplexityExtractor
    | SyncopationExtractor
    | NoteCountPerBarExtractor
    | NoteCountPerBarVariabilityExtractor
    | RestFrequencyExtractor
    | ScoreLengthInBarsExtractor
    | MelodicPatternRepetitionExtractor
    | RhythmicPatternRepetitionExtractor
    | EntropyOfPitchSequenceExtractor
    | VarianceInNoteDensityExtractor

  /** `extractor.__class__.__name__`. */
  function Name(e: Extractor): string
  {
    match e
    case PitchRangeExtractor => "PitchRangeExtractor"
    case AverageIntervalExtractor => "AverageIntervalExtractor"
    case IntervalComplexityExtractor => "IntervalComplexityExtractor"
    case LeapFrequencyExtractor => "LeapFrequencyExtractor"
    case ContourDirectionalityExtractor => "ContourDirectionalityExtractor"
    case MelodicContourComplexityExtractor => "MelodicContourComplexityExtractor"
    case AverageNoteDurationExtractor => "AverageNoteDurationExtractor"
    case RhythmComplexityExtractor => "RhythmComplexityExtractor"
    case SyncopationExtractor => "SyncopationExtractor"
    case NoteCountPerBarExtractor => "NoteCountPerBarExtractor"
    case NoteCountPerBarVariabilityExtractor => "NoteCountPerBarVariabilityExtractor"
    case RestFrequencyExtractor => "RestFrequencyExtractor"
    case ScoreLengthInBarsExtractor => "ScoreLengthInBarsExtractor"
    case MelodicPatternRepetitionExtractor => "MelodicPatternRepetitionExtractor"
    case RhythmicPatternRepetitionExtractor => "RhythmicPatternRepetitionExtractor"
    case EntropyOfPitchSequenceExtractor => "EntropyOfPitchSequenceExtractor"
    case VarianceInNoteDensityExtractor => "VarianceInNoteDensityExtractor"
  }

  /** `extractor.extract(score)`. */
  function FeatureOf(e: Extractor, s: Score): Feature
  {
    match e
    case PitchRangeExtractor => Exact(PitchRange(s))
    case AverageIntervalExtractor => Exact(AverageInterval(s))
    case IntervalComplexityExtractor => IntervalComplexity(s)
    case LeapFrequencyExtractor => Exact(LeapFrequency(s))
    case ContourDirectionalityExtractor => Exact(ContourDirectionality(s))
    case MelodicContourComplexityExtractor => Exact(MelodicContourComplexity(s))
    case AverageNoteDurationExtractor => Exact(AverageNoteDuration(s))
    case RhythmComplexityExtractor => RhythmComplexity(s)
    case SyncopationExtractor => Exact(Syncopation(s))
    case NoteCountPerBarExtractor => Exact(NoteCountPerBar(s))
    case NoteCountPerBarVariabilityExtractor => Exact(NoteCountPerBarVariability(s))
    case RestFrequencyExtractor => Exact(RestFrequency(s))
    case ScoreLengthInBarsExtractor => Exact(ScoreLengthInBars(s))
    case MelodicPatternRepetitionExtractor => Exact(MelodicPatternRepetition(s))
    case RhythmicPatternRepetitionExtractor => Exact(RhythmicPatternRepetition(s))
    case EntropyOfPitchSequenceExtractor => EntropyOfPitchSequence(s)
    case VarianceInNoteDensityExtractor => Exact(VarianceInNoteDensity(s))
  }

  /** Every extractor that computes its value exactly returns a value in [0, 1]. */
  lemma FeatureInUnitInterval(e: Extractor, s: Score)
    ensures FeatureOf(e, s).Exact? ==> 0.0 <= FeatureOf(e, s).value <= 1.0
  {
    match e
    case IntervalComplexityExtractor =>
      IntervalComplexityCases(Pitches(s.events));
    case RhythmComplexityExtractor =>
      RhythmComplexityCases(s);
    case EntropyOfPitchSequenceExtractor =>
      PitchEntropyCases(s);
    case _ =>
  }

  /** Running one extractor, through the counting loops where the source has them. */
  method Extract(e: Extractor, s: Score) returns (f: Feature)
    ensures f == FeatureOf(e, s)
  {
    match e {
      case ContourDirectionalityExtractor =>
        var r := ExtractContourDirectionality(s);
        f := Exact(r);
      case MelodicContourComplexityExtractor =>
        var r := ExtractMelodicContourComplexity(s);
        f := Exact(r);
      case SyncopationExtractor =>
        var r := ExtractSyncopation(s);
        f := Exact(r);
      case RestFrequencyExtractor =>
        var r := ExtractRestFrequency(s);
        f := Exact(r);
      case IntervalComplexityExtractor =>
        var ps := CollectPitches(s.events);
        if |ps| < 2 {
          f := Exact(0.0);
        } else {
          f := ExtractEntropy(Reals(AbsIntervals(ps)));
        }
      case RhythmComplexityExtractor =>
        var ds := CollectDurations(s.events);
        f := ExtractEntropy(ds);
      case EntropyOfPitchSequenceExtractor =>
        var ps := CollectPitches(s.events);
        f := ExtractEntropy(Reals(ps));
      case _ =>
        f := FeatureOf(e, s);
    }
  }

  /** The dictionary after the first |es| extractors have run. */
  function Features(s: Score, es: seq<Extractor>): map<string, Feature>
  {
    if es == [] then map[]
    else Features(s, es[..|es| - 1])[Name(es[|es| - 1]) := FeatureOf(es[|es| - 1], s)]
  }

  /** The loop of `extract_all_features`. */
  method ExtractAllFeatures(s: Score, extractors: seq<Extractor>) returns (features: map<string, Feature>)
    ensures features == Features(s, extractors)
  {
    features := map[];
    for i := 0 to |extractors|
      invariant features == Features(s, extractors[..i])
    {
      assert extractors[..i + 1][..i] == extractors[..i];
      var value := Extract(extractors[i], s);
      features := features[Name(extractors[i]) := value];
    }
    assert extractors[..|extractors|] == extractors;
  }

  /** Distinct classes have distinct names. */
  lemma NamesDistinct(a: Extractor, b: Extractor)
    ensures Name(a) == Name(b) <==> a == b
  {
    NameDecodes(a);
    NameDecodes(b);
  }

  /**
   * The inverse of Name, used to show that no two classes share a name:
   * the length alone tells most names apart, and the first or the eighth
   * letter settles the few lengths that two names share. Decoding from
   * these three keys keeps the proof to one small case split, where
   * comparing the seventeen names pairwise would not.
   */
  function ClassOfName(n: string): Extractor
  {
    if |n| < 8 then PitchRangeExtractor
    else ClassOfKey(|n|, n[0], n[7])
  }

  function ClassOfKey(len: nat, first: char, eighth: char): Extractor
  {
    if len == 19 then PitchRangeExtractor
    else if len == 20 then SyncopationExtractor
    else if len == 22 then (if first == 'L' then LeapFrequencyExtractor else RestFrequencyExtractor)
    else if len == 24 then (if first == 'A' then AverageIntervalExtractor else NoteCountPerBarExtractor)
    else if len == 25 then RhythmComplexityExtractor
    else if len == 26 then ScoreLengthInBarsExtractor
    else if len == 27 then IntervalComplexityExtractor
    else if len == 28 then AverageNoteDurationExtractor
    else if len == 30 then (if first == 'C' then ContourDirectionalityExtractor else VarianceInNoteDensityExtractor)
    else if len == 31 then EntropyOfPitchSequenceExtractor
    else if len == 33 then (if eighth == 'C' then MelodicContourComplexityExtractor else MelodicPatternRepetitionExtractor)
    else if len == 34 then RhythmicPatternRepetitionExtractor
    else NoteCountPerBarVariabilityExtractor
  }

  lemma NameDecodes(e: Extractor)
    ensures ClassOfName(Name(e)) == e
  {
    NameKey(e);
  }

  lemma NameKey(e: Extractor)
    ensures |Name(e)| >= 8
    ensures ClassOfKey(|Name(e)|, Name(e)[0], Name(e)[7]) == e
  {
    match e
    case PitchRangeExtractor | AverageIntervalExtractor | IntervalComplexityExtractor
      | LeapFrequencyExtractor | ContourDirectionalityExtractor | MelodicContourComplexityExtractor =>
      PitchNameKey(e);
    case AverageNoteDurationExtractor | RhythmComplexityExtractor | SyncopationExtractor
      | NoteCountPerBarExtractor | NoteCountPerBarVariabilityExtractor | RestFrequencyExtractor =>
      RhythmNameKey(e);
    case _ =>
      StructureNameKey(e);
  }

  lemma PitchNameKey(e: Extractor)
    requires e.PitchRangeExtractor? || e.AverageIntervalExtractor? || e.IntervalComplexityExtractor?
      || e.LeapFrequencyExtractor? || e.ContourDirectionalityExtractor? || e.MelodicContourComplexityExtractor?
    ensures |Name(e)| >= 8
    ensures ClassOfKey(|Name(e)|, Name(e)[0], Name(e)[7]) == e
  {
  }

  lemma RhythmNameKey(e: Extractor)
    requires e.AverageNoteDurationExtractor? || e.RhythmComplexityExtractor? || e.SyncopationExtractor?
      || e.NoteCountPerBarExtractor? || e.NoteCountPerBarVariabilityExtractor? || e.RestFrequencyExtractor?
    ensures |Name(e)| >= 8
    ensures ClassOfKey(|Name(e)|, Name(e)[0], Name(e)[7]) == e
  {
  }

  lemma StructureNameKey(e: Extractor)
    requires e.ScoreLengthInBarsExtractor? || e.MelodicPatternRepetitionExtractor? || e.RhythmicPatternRepetitionExtractor?
      || e.EntropyOfPitchSequenceExtractor? || e.VarianceInNoteDensityExtractor?
    ensures |Name(e)| >= 8
    ensures ClassOfKey(|Name(e)|, Name(e)[0], Name(e)[7]) == e
  {
  }

  /** The dictionary's keys are exactly the names of the extractors run. */
  lemma {:induction false} FeatureKeys(s: Score, es: seq<Extractor>)
    ensures Features(s, es).Keys == set e | e in es :: Name(e)
  {
    if es != [] {
      var front, last := es[..|es| - 1], es[|es| - 1];
      FeatureKeys(s, front);
      assert es == front + [last];
      assert (set e | e in es :: Name(e)) == (set e | e in front :: Name(e)) + {Name(last)};
    }
  }

  /** Each key holds the value of the last extractor of that class in the list. */
  lemma {:induction false} LaterExtractorWins(s: Score, es: seq<Extractor>, i: nat)
    requires i < |es|
    requires forall j :: i < j < |es| ==> es[j] != es[i]
    ensures Name(es[i]) in Features(s, es)
    ensures Features(s, es)[Name(es[i])] == FeatureOf(es[i], s)
  {
    var front, last := es[..|es| - 1], es[|es| - 1];
    assert Features(s, es) == Features(s, front)[Name(last) := FeatureOf(last, s)];
    if i < |front| {
      assert front[i] == es[i] && last != es[i];
      NamesDistinct(es[i], last);
      forall j | i < j < |front| ensures front[j] != front[i] {
        assert front[j] == es[j];
      }
      LaterExtractorWins(s, front, i);
    }
  }

  /** Every exactly computed feature in the dictionary lies in [0, 1]. */
  lemma {:induction false} FeaturesInUnitInterval(s: Score, es: seq<Extractor>)
    ensures forall k :: k in Features(s, es) && Features(s, es)[k].Exact? ==> 0.0 <= Features(s, es)[k].value <= 1.0
  {
    if es != [] {
      FeaturesInUnitInterval(s, es[..|es| - 1]);
      FeatureInUnitInterval(es[|es| - 1], s);
    }
  }
}
