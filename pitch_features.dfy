/**
 * The pitch and interval extractors. Each reads the MIDI numbers of the
 * pitched notes of the score (chords are skipped, having no single pitch)
 * and reduces them to one number in [0, 1].
 */
module PitchFeatures {
  import opened Music
  import opened Normalise
  import opened Stats
  import opened Frequencies
  import opened Entropy

  function Abs(x: int): nat { if x < 0 then -x else x }

  /** The direction of one step: +1 up, -1 down, 0 for a repeated pitch. */
  function Sign(x: int): int { if x > 0 then 1 else if x < 0 then -1 else 0 }

  /** `[abs(b - a) for a, b in zip(ps[:-1], ps[1:])]`. */
  function AbsIntervals(ps: seq<int>): (iv: seq<int>)
    ensures |iv| == if |ps| < 2 then 0 else |ps| - 1
    ensures forall k {:trigger iv[k]} :: 0 <= k < |iv| ==> iv[k] == Abs(ps[k + 1] - ps[k])
  {
    if |ps| < 2 then []
    else
      var front := ps[..|ps| - 1];
      assert forall k :: 0 <= k < |front| ==> front[k] == ps[k];
      AbsIntervals(front) + [Abs(ps[|ps| - 1] - ps[|ps| - 2])]
  }

  /** Number of consecutive pairs whose distance exceeds two semitones. */
  function Leaps(ps: seq<int>): nat
  {
    if |ps| < 2 then 0
    else Leaps(ps[..|ps| - 1]) + (if Abs(ps[|ps| - 1] - ps[|ps| - 2]) > 2 then 1 else 0)
  }

  /** Number of consecutive pairs at most two semitones apart, repeats included. */
  function Steps(ps: seq<int>): nat
  {
    if |ps| < 2 then 0
    else Steps(ps[..|ps| - 1]) + (if Abs(ps[|ps| - 1] - ps[|ps| - 2]) <= 2 then 1 else 0)
  }

  /** Number of consecutive pairs that go up. */
  function Ups(ps: seq<int>): nat
  {
    if |ps| < 2 then 0
    else Ups(ps[..|ps| - 1]) + (if ps[|ps| - 1] > ps[|ps| - 2] then 1 else 0)
  }

  /** Number of consecutive pairs that change pitch. */
  function Moves(ps: seq<int>): nat
  {
    if |ps| < 2 then 0
    else Moves(ps[..|ps| - 1]) + (if ps[|ps| - 1] != ps[|ps| - 2] then 1 else 0)
  }

  /** The `directions` list: the sign of every consecutive step. */
  function Directions(ps: seq<int>): (ds: seq<int>)
    ensures |ds| == if |ps| < 2 then 0 else |ps| - 1
    ensures forall k {:trigger ds[k]} :: 0 <= k < |ds| ==> ds[k] == Sign(ps[k + 1] - ps[k])
  {
    if |ps| < 2 then []
    else
      var front := ps[..|ps| - 1];
      assert forall k :: 0 <= k < |front| ==> front[k] == ps[k];
      Directions(front) + [Sign(ps[|ps| - 1] - ps[|ps| - 2])]
  }

  /** `[d for d in ds if d != 0]`. */
  function NonzeroOnly(ds: seq<int>): (f: seq<int>)
    ensures |f| <= |ds|
    ensures forall i :: 0 <= i < |f| ==> f[i] != 0 && f[i] in ds
  {
    if ds == [] then []
    else
      var front := ds[..|ds| - 1];
      assert forall i :: 0 <= i < |front| ==> front[i] in ds;
      NonzeroOnly(front) + (if ds[|ds| - 1] != 0 then [ds[|ds| - 1]] else [])
  }

  /** Number of adjacent unequal pairs: the direction changes. */
  function Changes(f: seq<int>): nat
  {
    if |f| < 2 then 0
    else Changes(f[..|f| - 1]) + (if f[|f| - 1] != f[|f| - 2] then 1 else 0)
  }

  // ---------------------------------------------------------------------------
  // The extractors, each on the score and on its pitch list

  /** PitchRangeExtractor: (max - min) / 24, or 0.0 without pitched notes. */
  function PitchRange(s: Score): (r: real)
    ensures 0.0 <= r <= 1.0
  {
    PitchRangeOf(Pitches(s.events))
  }

  function PitchRangeOf(ps: seq<int>): (r: real)
    ensures 0.0 <= r <= 1.0
  {
    if ps == [] then 0.0 else Clamp01((MaxInt(ps) - MinInt(ps)) as real / 24.0)
  }

  /** AverageIntervalExtractor: mean absolute interval / 127. */
  function AverageInterval(s: Score): (r: real)
    ensures 0.0 <= r <= 1.0
  {
    AverageIntervalOf(Pitches(s.events))
  }

  function AverageIntervalOf(ps: seq<int>): (r: real)
    ensures 0.0 <= r <= 1.0
  {
    if |ps| < 2 then 0.0
    else
      var iv := AbsIntervals(ps);
      Clamp01((SumInt(iv) as real / |iv| as real) / 127.0)
  }

  /**
   * IntervalComplexityExtractor, up to the entropy: 0.0 with fewer than two
   * pitches or a single distinct interval size, otherwise the normalised
   * entropy of the histogram of absolute interval sizes.
   */
  function IntervalComplexity(s: Score): Feature
  {
    IntervalComplexityOf(Pitches(s.events))
  }

  function IntervalComplexityOf(ps: seq<int>): Feature
  {
    if |ps| < 2 then Exact(0.0) else EntropyFeature(Reals(AbsIntervals(ps)))
  }

  /** LeapFrequencyExtractor: leaps over all consecutive pairs. */
  function LeapFrequency(s: Score): (r: real)
    ensures 0.0 <= r <= 1.0
  {
    LeapFrequencyOf(Pitches(s.events))
  }

  function LeapFrequencyOf(ps: seq<int>): (r: real)
    ensures 0.0 <= r <= 1.0
  {
    if |ps| < 2 then 0.0 else Clamp01(Leaps(ps) as real / (|ps| - 1) as real)
  }

  /** ContourDirectionalityExtractor: upward steps over pitch-changing steps. */
  function ContourDirectionality(s: Score): (r: real)
    ensures 0.0 <= r <= 1.0
  {
    DirectionalityOf(Pitches(s.events))
  }

  function DirectionalityOf(ps: seq<int>): (r: real)
    ensures 0.0 <= r <= 1.0
  {
    if |ps| < 2 then 0.0
    else Clamp01(if Moves(ps) > 0 then Ups(ps) as real / Moves(ps) as real else 0.0)
  }

  /** MelodicContourComplexityExtractor: direction changes among nonzero steps. */
  function MelodicContourComplexity(s: Score): (r: real)
    ensures 0.0 <= r <= 1.0
  {
    ContourComplexityOf(Pitches(s.events))
  }

  function ContourComplexityOf(ps: seq<int>): (r: real)
    ensures 0.0 <= r <= 1.0
  {
    if |ps| < 3 then 0.0
    else
      var f := NonzeroOnly(Directions(ps));
      var maxPossible := if |f| > 1 then |f| - 1 else 1;
      Clamp01(Changes(f) as real / maxPossible as real)
  }

  // ---------------------------------------------------------------------------
  // The counter loops of the source

  /** The `upward` / `total` loop of ContourDirectionalityExtractor. */
  method ExtractContourDirectionality(s: Score) returns (r: real)
    ensures r == ContourDirectionality(s)
  {
    var ps := CollectPitches(s.events);
    if |ps| < 2 {
      return 0.0;
    }
    var upward, total := 0, 0;
    for k := 0 to |ps| - 1
      invariant upward == Ups(ps[..k + 1]) && total == Moves(ps[..k + 1])
    {
      assert ps[..k + 2][..k + 1] == ps[..k + 1];
      var a, b := ps[k], ps[k + 1];
      if b != a {
        total := total + 1;
        if b > a {
          upward := upward + 1;
        }
      }
    }
    assert ps[..|ps|] == ps;
    var ratio := if total > 0 then upward as real / total as real else 0.0;
    r := Clamp01(ratio);
  }

  /** The `directions` and `changes` loops of MelodicContourComplexityExtractor. */
  method ExtractMelodicContourComplexity(s: Score) returns (r: real)
    ensures r == MelodicContourComplexity(s)
  {
    var ps := CollectPitches(s.events);
    if |ps| < 3 {
      return 0.0;
    }
    var directions := CollectDirections(ps);
    var filtered := NonzeroOnly(directions);
    var changes := CountChanges(filtered);
    var maxPossible := if |filtered| > 1 then |filtered| - 1 else 1;
    r := Clamp01(changes as real / maxPossible as real);
  }

  /** The `directions` loop: the sign of every step, in order. */
  method CollectDirections(ps: seq<int>) returns (directions: seq<int>)
    requires |ps| >= 2
    ensures directions == Directions(ps)
  {
    directions := [];
    for k := 0 to |ps| - 1
      invariant directions == Directions(ps[..k + 1])
    {
      assert ps[..k + 2][..k + 1] == ps[..k + 1];
      var a, b := ps[k], ps[k + 1];
      if b > a {
        directions := directions + [1];
      } else if b < a {
        directions := directions + [-1];
      } else {
        directions := directions + [0];
      }
    }
    assert ps[..|ps|] == ps;
  }

  /** The `changes` loop over the nonzero directions. */
  method CountChanges(filtered: seq<int>) returns (changes: nat)
    ensures changes == Changes(filtered)
  {
    changes := 0;
    if |filtered| > 1 {
      for k := 0 to |filtered| - 1
        invariant changes == Changes(filtered[..k + 1])
      {
        assert filtered[..k + 2][..k + 1] == filtered[..k + 1];
        if filtered[k] != filtered[k + 1] {
          changes := changes + 1;
        }
      }
      assert filtered[..|filtered|] == filtered;
    }
  }

  // ---------------------------------------------------------------------------
  // Properties

  /**
   * Pitch range: 0.0 without pitched notes; 1.0 exactly when two pitches lie
   * 24 or more semitones apart; otherwise 24 * r is the largest distance
   * between two pitches of the melody.
   */
  lemma PitchRangeIsSpread(ps: seq<int>)
    ensures ps == [] ==> PitchRangeOf(ps) == 0.0
    ensures ps != [] ==>
      (PitchRangeOf(ps) == 1.0 <==> exists i, j :: 0 <= i < |ps| && 0 <= j < |ps| && ps[i] - ps[j] >= 24)
    ensures PitchRangeOf(ps) < 1.0 ==>
      && (forall i, j :: 0 <= i < |ps| && 0 <= j < |ps| ==> (ps[i] - ps[j]) as real <= 24.0 * PitchRangeOf(ps))
      && (ps != [] ==> exists i, j :: 0 <= i < |ps| && 0 <= j < |ps| && (ps[i] - ps[j]) as real == 24.0 * PitchRangeOf(ps))
  {
    if ps != [] {
      var hi, lo := MaxInt(ps), MinInt(ps);
      var i :| 0 <= i < |ps| && ps[i] == hi;
      var j :| 0 <= j < |ps| && ps[j] == lo;
      var spread := (hi - lo) as real;
      if hi - lo >= 24 {
        assert ps[i] - ps[j] >= 24;
      } else {
        RatioBounds(spread, 24.0);
        assert PitchRangeOf(ps) * 24.0 == spread;
        assert (ps[i] - ps[j]) as real == 24.0 * PitchRangeOf(ps);
      }
    }
  }

  /** Every pitch is a MIDI note number. */
  predicate MidiPitches(ps: seq<int>)
  {
    forall i :: 0 <= i < |ps| ==> 0 <= ps[i] <= 127
  }

  predicate WithinZeroTo(iv: seq<int>, c: int)
  {
    forall k :: 0 <= k < |iv| ==> 0 <= iv[k] <= c
  }

  /**
   * On MIDI pitches (0..127) no interval exceeds 127, so the clamp of the
   * average interval never applies: the value is the interval total over
   * 127 times the number of intervals (one fewer than the pitches).
   */
  lemma AverageIntervalOfMidiPitches(ps: seq<int>)
    requires |ps| >= 2 && MidiPitches(ps)
    ensures var iv := AbsIntervals(ps);
      AverageIntervalOf(ps) == SumInt(iv) as real / (127.0 * |iv| as real)
  {
    MidiIntervals(ps);
    MidiMean(AbsIntervals(ps));
    AverageIntervalUnfolds(ps);
  }

  lemma AverageIntervalUnfolds(ps: seq<int>)
    requires |ps| >= 2
    ensures var iv := AbsIntervals(ps);
      AverageIntervalOf(ps) == Clamp01((SumInt(iv) as real / |iv| as real) / 127.0)
  {
  }

  /** Between two MIDI pitches lie at most 127 semitones. */
  lemma MidiIntervals(ps: seq<int>)
    requires MidiPitches(ps)
    ensures WithinZeroTo(AbsIntervals(ps), 127)
  {
    var iv := AbsIntervals(ps);
    forall k | 0 <= k < |iv| ensures 0 <= iv[k] <= 127 {
      assert iv[k] == Abs(ps[k + 1] - ps[k]);
    }
  }

  /** A mean of intervals of at most 127 semitones, over 127, is not clamped. */
  lemma MidiMean(iv: seq<int>)
    requires |iv| > 0 && WithinZeroTo(iv, 127)
    ensures Clamp01((SumInt(iv) as real / |iv| as real) / 127.0) == SumInt(iv) as real / (127.0 * |iv| as real)
  {
    SumIntBounds(iv, 0, 127);
    var t, n := SumInt(iv), |iv|;
    assert t as real <= 127.0 * n as real;
    IntMeanWithinBound(t, n, 127.0);
  }

  /** The melody repeats one pitch throughout. */
  predicate Repeated(ps: seq<int>)
  {
    forall k :: 0 <= k < |ps| - 1 ==> ps[k] == ps[k + 1]
  }

  predicate AllZero(iv: seq<int>)
  {
    forall k :: 0 <= k < |iv| ==> iv[k] == 0
  }

  /** The average interval is 0 exactly when the melody never changes pitch. */
  lemma AverageIntervalZeroIffRepeated(ps: seq<int>)
    requires |ps| >= 2
    ensures AverageIntervalOf(ps) == 0.0 <==> Repeated(ps)
  {
    AverageIntervalZeroIffNoInterval(ps);
    NoIntervalIffRepeated(ps);
  }

  lemma NoIntervalIffRepeated(ps: seq<int>)
    ensures AllZero(AbsIntervals(ps)) <==> Repeated(ps)
  {
    var iv := AbsIntervals(ps);
    if AllZero(iv) {
      forall k | 0 <= k < |ps| - 1 ensures ps[k] == ps[k + 1] {
        assert iv[k] == Abs(ps[k + 1] - ps[k]);
      }
    } else {
      var k :| 0 <= k < |iv| && iv[k] != 0;
      assert ps[k] != ps[k + 1];
    }
  }

  lemma AverageIntervalZeroIffNoInterval(ps: seq<int>)
    requires |ps| >= 2
    ensures AverageIntervalOf(ps) == 0.0 <==> AllZero(AbsIntervals(ps))
  {
    NonnegativeIntervals(ps);
    MeanZeroIff(AbsIntervals(ps));
    AverageIntervalUnfolds(ps);
  }

  lemma NonnegativeIntervals(ps: seq<int>)
    ensures NonnegativeAll(AbsIntervals(ps))
  {
    var iv := AbsIntervals(ps);
    forall k | 0 <= k < |iv| ensures iv[k] >= 0 {
      assert iv[k] == Abs(ps[k + 1] - ps[k]);
    }
  }

  predicate NonnegativeAll(iv: seq<int>)
  {
    forall k :: 0 <= k < |iv| ==> iv[k] >= 0
  }

  /** A scaled mean of nonnegative terms is 0 exactly when every term is. */
  lemma MeanZeroIff(iv: seq<int>)
    requires |iv| > 0 && NonnegativeAll(iv)
    ensures Clamp01((SumInt(iv) as real / |iv| as real) / 127.0) == 0.0 <==> AllZero(iv)
  {
    SumIntNonnegative(iv);
    SumIntZero(iv);
    var total, n := SumInt(iv) as real, |iv| as real;
    NestedRatio(total, n, 127.0);
    if total > 0.0 {
      PositiveRatio(total, 127.0 * n);
    }
  }

  /**
   * Interval complexity is exactly 0.0 when there are fewer than two pitches
   * or every interval has the same size; otherwise its histogram has at least
   * two sizes, positive counts, and counts adding up to the number of intervals.
   */
  lemma IntervalComplexityCases(ps: seq<int>)
    ensures IntervalComplexityOf(ps).Exact? ==> IntervalComplexityOf(ps).value == 0.0
    ensures |ps| >= 2 ==> (IntervalComplexityOf(ps).Exact? <==> SameSize(ps))
    ensures var f := IntervalComplexityOf(ps);
      f.NormalizedEntropy? ==>
        && 2 <= |f.histogram| <= |ps| - 1
        && SumValues(f.histogram) == |ps| - 1
        && forall x :: x in f.histogram ==> f.histogram[x] > 0
  {
    if |ps| >= 2 {
      EntropyFeatureCases(Reals(AbsIntervals(ps)));
      SameSizeIntervals(ps);
    }
  }

  /** Every consecutive pair of pitches is the same distance apart. */
  predicate SameSize(ps: seq<int>)
    requires |ps| >= 2
  {
    forall k :: 0 <= k < |ps| - 1 ==> Abs(ps[k + 1] - ps[k]) == Abs(ps[1] - ps[0])
  }

  lemma SameSizeIntervals(ps: seq<int>)
    requires |ps| >= 2
    ensures AllSame(Reals(AbsIntervals(ps))) <==> SameSize(ps)
  {
    var iv := AbsIntervals(ps);
    var xs := Reals(iv);
    forall k | 0 <= k < |xs| ensures xs[k] == Abs(ps[k + 1] - ps[k]) as real {
      assert xs[k] == iv[k] as real;
    }
    if AllSame(xs) {
      forall k | 0 <= k < |ps| - 1 ensures Abs(ps[k + 1] - ps[k]) == Abs(ps[1] - ps[0]) {
        assert xs[k] == xs[0];
      }
    }
    if SameSize(ps) {
      forall k | 0 <= k < |xs| ensures xs[k] == xs[0] {
        assert Abs(ps[k + 1] - ps[k]) == Abs(ps[1] - ps[0]);
      }
    }
  }

  lemma {:induction false} LeapsAndSteps(ps: seq<int>)
    ensures Leaps(ps) + Steps(ps) == if |ps| < 2 then 0 else |ps| - 1
  {
    if |ps| >= 2 {
      LeapsAndSteps(ps[..|ps| - 1]);
    }
  }

  /**
   * Leap frequency counts every consecutive pair, repeated pitches included:
   * the value is leaps / (len - 1) with no clamping needed, and it adds up to 1
   * with the share of pairs at most two semitones apart.
   */
  lemma LeapFrequencyIsShareOfPairs(ps: seq<int>)
    requires |ps| >= 2
    ensures LeapFrequencyOf(ps) == Leaps(ps) as real / (|ps| - 1) as real
    ensures LeapFrequencyOf(ps) + Steps(ps) as real / (|ps| - 1) as real == 1.0
  {
    LeapsAndSteps(ps);
    ComplementaryShares(Leaps(ps), Steps(ps), |ps| - 1);
  }

  lemma {:induction false} UpsAtMostMoves(ps: seq<int>)
    ensures Ups(ps) <= Moves(ps) <= if |ps| < 2 then 0 else |ps| - 1
  {
    if |ps| >= 2 {
      UpsAtMostMoves(ps[..|ps| - 1]);
    }
  }

  /**
   * Contour directionality is upward steps over pitch-changing steps, with no
   * clamping needed; it is 0.0 with fewer than two pitches or only repeats.
   */
  lemma DirectionalityIsUpShare(ps: seq<int>)
    ensures |ps| < 2 || Moves(ps) == 0 ==> DirectionalityOf(ps) == 0.0
    ensures Moves(ps) > 0 ==> DirectionalityOf(ps) == Ups(ps) as real / Moves(ps) as real
  {
    UpsAtMostMoves(ps);
    if Moves(ps) > 0 {
      RatioBounds(Ups(ps) as real, Moves(ps) as real);
    }
  }

  /** The positions k at which the pair (ps[k], ps[k + 1]) is a leap, as the source's comprehension picks them. */
  function LeapPositions(ps: seq<int>): set<int>
  {
    set k {:trigger ps[k]} | 0 <= k < |ps| - 1 && Abs(ps[k + 1] - ps[k]) > 2
  }

  /** The positions k at which the melody goes up from ps[k] to ps[k + 1]. */
  function UpPositions(ps: seq<int>): set<int>
  {
    set k {:trigger ps[k]} | 0 <= k < |ps| - 1 && ps[k + 1] > ps[k]
  }

  /** The positions k at which the pitch changes from ps[k] to ps[k + 1]. */
  function MovePositions(ps: seq<int>): set<int>
  {
    set k {:trigger ps[k]} | 0 <= k < |ps| - 1 && ps[k + 1] != ps[k]
  }

  /** Leaps counts exactly the leaping positions. */
  lemma {:induction false} LeapsCountPositions(ps: seq<int>)
    ensures Leaps(ps) == |LeapPositions(ps)|
  {
    if |ps| < 2 {
      assert LeapPositions(ps) == {};
    } else {
      var front := ps[..|ps| - 1];
      var last := |ps| - 2;
      var here: set<int> := if Abs(ps[last + 1] - ps[last]) > 2 then {last} else {};
      assert LeapPositions(ps) == LeapPositions(front) + here;
      assert last !in LeapPositions(front);
      LeapsCountPositions(front);
    }
  }

  /** Ups counts exactly the upward positions. */
  lemma {:induction false} UpsCountPositions(ps: seq<int>)
    ensures Ups(ps) == |UpPositions(ps)|
  {
    if |ps| < 2 {
      assert UpPositions(ps) == {};
    } else {
      var front := ps[..|ps| - 1];
      var last := |ps| - 2;
      var here: set<int> := if ps[last + 1] > ps[last] then {last} else {};
      assert UpPositions(ps) == UpPositions(front) + here;
      assert last !in UpPositions(front);
      UpsCountPositions(front);
    }
  }

  /** Moves counts exactly the positions where the pitch changes. */
  lemma {:induction false} MovesCountPositions(ps: seq<int>)
    ensures Moves(ps) == |MovePositions(ps)|
  {
    if |ps| < 2 {
      assert MovePositions(ps) == {};
    } else {
      var front := ps[..|ps| - 1];
      var last := |ps| - 2;
      var here: set<int> := if ps[last + 1] != ps[last] then {last} else {};
      assert MovePositions(ps) == MovePositions(front) + here;
      assert last !in MovePositions(front);
      MovesCountPositions(front);
    }
  }

  /** Both ratios, stated over the positions the source's comprehensions select. */
  lemma RatiosOfPositions(ps: seq<int>)
    ensures |ps| >= 2 ==> LeapFrequencyOf(ps) == |LeapPositions(ps)| as real / (|ps| - 1) as real
    ensures |MovePositions(ps)| > 0 ==> DirectionalityOf(ps) == |UpPositions(ps)| as real / |MovePositions(ps)| as real
    ensures |MovePositions(ps)| == 0 ==> DirectionalityOf(ps) == 0.0
  {
    LeapsCountPositions(ps);
    UpsCountPositions(ps);
    MovesCountPositions(ps);
    if |ps| >= 2 {
      LeapFrequencyIsShareOfPairs(ps);
    }
    DirectionalityIsUpShare(ps);
  }

  predicate StrictlyAscending(ps: seq<int>)
  {
    forall k :: 0 <= k < |ps| - 1 ==> ps[k] < ps[k + 1]
  }

  predicate NonDecreasing(ps: seq<int>)
  {
    forall k :: 0 <= k < |ps| - 1 ==> ps[k] <= ps[k + 1]
  }

  predicate NonIncreasing(ps: seq<int>)
  {
    forall k :: 0 <= k < |ps| - 1 ==> ps[k] >= ps[k + 1]
  }

  lemma {:induction false} AscendingCounts(ps: seq<int>)
    requires |ps| >= 2 && StrictlyAscending(ps)
    ensures Ups(ps) == Moves(ps) == |ps| - 1
  {
    if |ps| > 2 {
      var front := ps[..|ps| - 1];
      assert forall k :: 0 <= k < |front| ==> front[k] == ps[k];
      AscendingCounts(front);
    }
  }

  lemma {:induction false} ChangesOfConstant(f: seq<int>, d: int)
    requires forall i :: 0 <= i < |f| ==> f[i] == d
    ensures Changes(f) == 0
  {
    if |f| >= 2 {
      ChangesOfConstant(f[..|f| - 1], d);
    }
  }

  lemma {:induction false} ChangesBound(f: seq<int>)
    ensures Changes(f) <= if |f| < 2 then 0 else |f| - 1
  {
    if |f| >= 2 {
      ChangesBound(f[..|f| - 1]);
    }
  }

  /**
   * Melodic contour complexity: 0.0 with fewer than three pitches or at most
   * one nonzero step; otherwise changes / (nonzero steps - 1), which never
   * exceeds 1, so the clamp never applies.
   */
  lemma ContourComplexityIsChangeShare(ps: seq<int>)
    ensures |ps| < 3 ==> ContourComplexityOf(ps) == 0.0
    ensures Changes(NonzeroOnly(Directions(ps))) <= if |NonzeroOnly(Directions(ps))| < 2 then 0 else |NonzeroOnly(Directions(ps))| - 1
    ensures var f := NonzeroOnly(Directions(ps));
      |ps| >= 3 ==>
        ContourComplexityOf(ps) == if |f| < 2 then 0.0 else Changes(f) as real / (|f| - 1) as real
  {
    var f := NonzeroOnly(Directions(ps));
    ChangesBound(f);
    if |ps| >= 3 {
      ChangeShare(Changes(f), |f|);
      ContourComplexityUnfolds(ps);
    }
  }

  lemma ContourComplexityUnfolds(ps: seq<int>)
    requires |ps| >= 3
    ensures var f := NonzeroOnly(Directions(ps));
      ContourComplexityOf(ps) == Clamp01(Changes(f) as real / (if |f| > 1 then |f| - 1 else 1) as real)
  {
  }

  /** c changes among m directions, over the m - 1 possible ones, need no clamping. */
  lemma ChangeShare(c: nat, m: nat)
    requires c <= if m < 2 then 0 else m - 1
    ensures Clamp01(c as real / (if m > 1 then m - 1 else 1) as real) == if m < 2 then 0.0 else c as real / (m - 1) as real
  {
    if m >= 2 {
      RatioBounds(c as real, (m - 1) as real);
    }
  }

  /** A melody that only rises (or only falls), repeats allowed, never changes direction. */
  lemma MonotoneMelodyHasNoChanges(ps: seq<int>)
    requires NonDecreasing(ps) || NonIncreasing(ps)
    ensures ContourComplexityOf(ps) == 0.0
  {
    if |ps| >= 3 {
      var d := if NonDecreasing(ps) then 1 else -1;
      NoStepAgainst(ps, d);
      OneWayDirections(ps, d);
      var f := NonzeroOnly(Directions(ps));
      ChangesOfConstant(f, d);
      ContourComplexityUnfolds(ps);
      ZeroShare(if |f| > 1 then |f| - 1 else 1);
    }
  }

  lemma NoStepAgainst(ps: seq<int>, d: int)
    requires (d == 1 && NonDecreasing(ps)) || (d == -1 && NonIncreasing(ps))
    ensures forall k :: 0 <= k < |ps| - 1 ==> Sign(ps[k + 1] - ps[k]) != -d
  {
    forall k | 0 <= k < |ps| - 1 ensures Sign(ps[k + 1] - ps[k]) != -d {
      if d == 1 {
        assert ps[k] <= ps[k + 1];
      } else {
        assert ps[k] >= ps[k + 1];
      }
    }
  }

  /** Without a step against direction d, every nonzero step has direction d. */
  lemma OneWayDirections(ps: seq<int>, d: int)
    requires d == 1 || d == -1
    requires forall k :: 0 <= k < |ps| - 1 ==> Sign(ps[k + 1] - ps[k]) != -d
    ensures var f := NonzeroOnly(Directions(ps)); forall i :: 0 <= i < |f| ==> f[i] == d
  {
    var ds := Directions(ps);
    var f := NonzeroOnly(ds);
    forall i | 0 <= i < |f| ensures f[i] == d {
      var k :| 0 <= k < |ds| && ds[k] == f[i];
      assert ds[k] == Sign(ps[k + 1] - ps[k]);
    }
  }

  /** A strictly ascending melody is all upward motion and has no direction change. */
  lemma StrictlyAscendingMelody(ps: seq<int>)
    requires |ps| >= 2 && StrictlyAscending(ps)
    ensures DirectionalityOf(ps) == 1.0
    ensures ContourComplexityOf(ps) == 0.0
  {
    AscendingCounts(ps);
    var m := Moves(ps) as real;
    assert m / m == 1.0;
    MonotoneMelodyHasNoChanges(ps);
  }

  /** Too few pitches: each pitch feature is exactly 0.0 instead of an error. */
  lemma TooFewPitches(ps: seq<int>)
    ensures ps == [] ==> PitchRangeOf(ps) == 0.0
    ensures |ps| < 2 ==>
      && AverageIntervalOf(ps) == 0.0 && LeapFrequencyOf(ps) == 0.0
      && DirectionalityOf(ps) == 0.0 && IntervalComplexityOf(ps) == Exact(0.0)
    ensures |ps| < 3 ==> ContourComplexityOf(ps) == 0.0
  {
  }
}
