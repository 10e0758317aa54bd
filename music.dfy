/**
 * The abstraction of a music21 score that every extractor reads.
 *
 * `events` stands for `score.recurse()` in document order; `measures` for
 * `score.getElementsByClass(Measure)`, each measure holding its own flattened
 * events. Notes and chords are the elements music21 reports as `.notes`; only
 * a `Note` has a single `.pitch`.
 */
module Music {
  datatype Event =
    | Note(pitch: int, dur: real, offset: real)
    | Chord(dur: real, offset: real)
    | Rest(dur: real)

  datatype Score = Score(events: seq<Event>, measures: seq<seq<Event>>)

  /**
   * What one extractor contributes to the feature dictionary. `Exact` is a
   * number the model computes exactly; `NormalizedEntropy` stands for the
   * floating-point normalised Shannon entropy of the given frequency
   * histogram, which the model does not evaluate.
   */
  datatype Feature = Exact(value: real) | NormalizedEntropy(histogram: map<real, nat>)

  /** An element of `.notes`: a note or a chord, never a rest. */
  predicate IsSounding(e: Event) { e.Note? || e.Chord? }

  /** `n.pitch.midi` for every element of `.notes` that has a `pitch`, in order. */
  function Pitches(es: seq<Event>): seq<int>
  {
    if es == [] then []
    else Pitches(es[..|es| - 1]) + (if es[|es| - 1].Note? then [es[|es| - 1].pitch] else [])
  }

  /** `n.quarterLength` for every element of `.notes`, chords included. */
  function Durations(es: seq<Event>): seq<real>
  {
    if es == [] then []
    else Durations(es[..|es| - 1]) + (if IsSounding(es[|es| - 1]) then [es[|es| - 1].dur] else [])
  }

  /** `n.offset` for every element of `.notes`, chords included. */
  function Offsets(es: seq<Event>): seq<real>
  {
    if es == [] then []
    else Offsets(es[..|es| - 1]) + (if IsSounding(es[|es| - 1]) then [es[|es| - 1].offset] else [])
  }

  /** `len(list(m.flat.notes))` for every measure, in order. */
  function BarCounts(ms: seq<seq<Event>>): (counts: seq<nat>)
    ensures |counts| == |ms|
  {
    if ms == [] then [] else BarCounts(ms[..|ms| - 1]) + [|Durations(ms[|ms| - 1])|]
  }

  lemma {:induction false} PitchesAreTheNotes(es: seq<Event>)
    ensures |Pitches(es)| <= |es|
    ensures forall p :: p in Pitches(es) <==> exists i :: 0 <= i < |es| && es[i].Note? && es[i].pitch == p
  {
    if es != [] {
      var front := es[..|es| - 1];
      PitchesAreTheNotes(front);
      forall p | p in Pitches(es)
        ensures exists i :: 0 <= i < |es| && es[i].Note? && es[i].pitch == p
      {
        if p in Pitches(front) {
          var i :| 0 <= i < |front| && front[i].Note? && front[i].pitch == p;
          assert es[i] == front[i];
        } else {
          assert es[|es| - 1].Note? && es[|es| - 1].pitch == p;
        }
      }
      forall p | exists i :: 0 <= i < |es| && es[i].Note? && es[i].pitch == p
        ensures p in Pitches(es)
      {
        var i :| 0 <= i < |es| && es[i].Note? && es[i].pitch == p;
        if i < |es| - 1 {
          assert front[i] == es[i];
        }
      }
    }
  }

  lemma {:induction false} DurationsAreTheSoundingEvents(es: seq<Event>)
    ensures |Durations(es)| == |Offsets(es)| <= |es|
    ensures |Pitches(es)| <= |Durations(es)|
    ensures |Durations(es)| == 0 <==> forall i :: 0 <= i < |es| ==> !IsSounding(es[i])
  {
    if es != [] {
      var front := es[..|es| - 1];
      DurationsAreTheSoundingEvents(front);
      if |Durations(es)| == 0 {
        forall i | 0 <= i < |es| ensures !IsSounding(es[i]) {
          if i < |es| - 1 { assert front[i] == es[i]; }
        }
      }
    }
  }

  /** The append loop that builds the pitch list. */
  method CollectPitches(es: seq<Event>) returns (ps: seq<int>)
    ensures ps == Pitches(es)
  {
    ps := [];
    for i := 0 to |es|
      invariant ps == Pitches(es[..i])
    {
      assert es[..i + 1][..i] == es[..i];
      if es[i].Note? {
        ps := ps + [es[i].pitch];
      }
    }
    assert es[..|es|] == es;
  }

  /** The append loop that builds the duration list. */
  method CollectDurations(es: seq<Event>) returns (ds: seq<real>)
    ensures ds == Durations(es)
  {
    ds := [];
    for i := 0 to |es|
      invariant ds == Durations(es[..i])
    {
      assert es[..i + 1][..i] == es[..i];
      if es[i].Note? || es[i].Chord? {
        ds := ds + [es[i].dur];
      }
    }
    assert es[..|es|] == es;
  }

  /** The append loop that counts the notes of each measure. */
  method CollectBarCounts(ms: seq<seq<Event>>) returns (counts: seq<nat>)
    ensures counts == BarCounts(ms)
  {
    counts := [];
    for i := 0 to |ms|
      invariant counts == BarCounts(ms[..i])
    {
      assert ms[..i + 1][..i] == ms[..i];
      var notes := CollectDurations(ms[i]);
      counts := counts + [|notes|];
    }
    assert ms[..|ms|] == ms;
  }
}
