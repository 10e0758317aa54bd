# Sea shanty features and shanty types, in Dafny

This project models the analysis core of the sea-shanties toolkit, in two
parts.

**Feature extraction** (`src/feature_extractors.py`). It covers the
seventeen feature extractors and `extract_all_features`. Each extractor
reads a score and returns a number that is clamped to [0, 1]. The score is
abstracted to two sequences:

- `Music.Score.events` stands for `score.recurse()`, in document order. Each
  event is a `Note` (a pitch, a duration in quarter lengths and an offset), a
  `Chord` (a duration and an offset, but no single pitch) or a `Rest`.
- `Music.Score.measures` holds the flattened events of each measure.

Modules:

- `Music`: the lists the extractors build from a score (pitches, durations,
  offsets, note counts per bar). Each list is an append loop proved against
  its specification function.
- `PitchFeatures`: pitch range, average interval, interval complexity, leap
  frequency, contour directionality and melodic contour complexity.
- `RhythmFeatures`: average note duration, rhythm complexity, syncopation,
  note count per bar, its variability and rest frequency.
- `StructureFeatures`: score length in bars, melodic and rhythmic pattern
  repetition, entropy of the pitch sequence, and variance in note density.
- `NGrams`: the n-gram repetition measure with n = 3.
- `Frequencies`: the `dict.get(x, 0) + 1` histogram.
- `Entropy`: the degenerate cases of normalised entropy.
- `Normalise`: the `min(max(x, 0.0), 1.0)` clamp.
- `Stats`: mean and `statistics.variance`.
- `FeatureSet`: the extractor classes, their class names, and the feature
  dictionary.

The counting loops of the source are methods proved equal to those
functions. Each extractor's numeric meaning is stated as lemmas: a share of
intervals, a mean over a maximum, a capped mean, and so on.

**Shanty type classification** (`src/shanty_type_classifier.py`). This part
covers how shanty names are turned into type and number entries from the
index page's headings and tables (`ShantyIndex`). It also covers how MIDI
file names are matched to those entries (`ShantyMatching`). The supporting
modules are:

- `Text`: Python's character classes, `lower`, `strip` and the substring
  test.
- `ShantyNames`: the title simplification `re.sub(r'[^\w\s]', '', …)` and
  `re.sub(r'\s+', ' ', …).strip()`, the file-name cleanup, the heading test
  and the number token.
- `OrderedDicts`: a Python dict as its pairs in insertion order, because
  which title matches first depends on that order.

The fuzzy map is built by a loop parameterised by its key function. The
classifier's key is `Simplify`.

A few facts about the code that shape the model:

- Both variability features use `statistics.variance`, the sample variance
  (divisor n − 1).
- Variance in note density counts onsets per measure, as note count per bar
  variability does. Unlike variability, it keeps empty measures.
  `StructureFeatures.EmptyBarSeparatesTheTwo` shows the two values differing.
- Chords are a third kind of event besides notes and rests. They sound but
  have no pitch, and rest frequency counts them as neither a note nor a rest.

## Model

| member | source | states |
|---|---|---|
| Music.PitchesAreTheNotes | src/feature_extractors.py:50-53 | the pitch list holds exactly the pitches of the `Note` events (chords have no `pitch`) and is never longer than the event list |
| Music.DurationsAreTheSoundingEvents | src/feature_extractors.py:212-214 | there is one duration and one offset per note or chord, at least as many as pitches, and there are none exactly when no event sounds |
| Music.CollectPitches | src/feature_extractors.py:50-53 | the append loop over `score.recurse().notes` yields the pitch list |
| Music.CollectDurations | src/feature_extractors.py:212-214 | the append loop yields the duration list |
| Music.CollectBarCounts | src/feature_extractors.py:277-280 | the append loop over the measures yields one onset count per measure |
| Normalise.Clamp01 | src/feature_extractors.py:60 | `min(max(x, 0.0), 1.0)` lies in [0, 1], keeps values inside it, and maps values above to 1 and below to 0 |
| PitchFeatures.PitchRange | src/feature_extractors.py:60 | after the final clamp, the pitch range feature lies in [0, 1] |
| PitchFeatures.PitchRangeIsSpread | src/feature_extractors.py:55-60 | no pitches gives 0; the value is 1 exactly when two pitches are at least 24 semitones apart; below 1 it is the largest pitch difference divided by 24, which bounds every difference and is reached by one |
| PitchFeatures.AverageInterval | src/feature_extractors.py:81 | after the final clamp, the average interval feature lies in [0, 1] |
| PitchFeatures.AverageIntervalOfMidiPitches | src/feature_extractors.py:75-81 | for MIDI pitches (0 to 127) the clamp never acts: the value is the sum of absolute intervals over 127 times the number of intervals |
| PitchFeatures.AverageIntervalZeroIffRepeated | src/feature_extractors.py:78-81 | with two or more pitches the value is 0 exactly when every pitch repeats the one before |
| PitchFeatures.IntervalComplexityCases | src/feature_extractors.py:97-118 | the result is an exact 0 exactly when there are fewer than two pitches or all intervals have one size; otherwise the entropy is taken over a histogram with between 2 and len−1 sizes, positive counts that sum to the number of intervals |
| PitchFeatures.LeapFrequency | src/feature_extractors.py:137 | after the final clamp, the leap frequency feature lies in [0, 1] |
| PitchFeatures.LeapFrequencyIsShareOfPairs | src/feature_extractors.py:132-137 | the value is the number of intervals larger than 2 semitones divided by len−1, and it plus the share of steps is 1 |
| PitchFeatures.ContourDirectionality | src/feature_extractors.py:163 | after the final clamp, the directionality feature lies in [0, 1] |
| PitchFeatures.DirectionalityIsUpShare | src/feature_extractors.py:151-163 | with no pitch change the value is 0; otherwise it is the number of upward moves over the number of moves |
| PitchFeatures.LeapsCountPositions | src/feature_extractors.py:135-136 | the leap count equals the number of positions k whose pair (k, k+1) is more than 2 semitones apart |
| PitchFeatures.UpsCountPositions | src/feature_extractors.py:156-160 | the upward count equals the number of positions k with a higher pitch at k+1 |
| PitchFeatures.MovesCountPositions | src/feature_extractors.py:156-160 | the move count equals the number of positions k where the pitch changes at k+1 |
| PitchFeatures.RatiosOfPositions | src/feature_extractors.py:132-163 | leap frequency is the share of leaping positions among the len−1 pairs; directionality is upward positions over changing positions, and 0 when nothing changes |
| PitchFeatures.ExtractContourDirectionality | src/feature_extractors.py:154-163 | the `upward`/`total` counter loop computes the directionality function |
| PitchFeatures.MelodicContourComplexity | src/feature_extractors.py:199 | after the final clamp, the contour complexity feature lies in [0, 1] |
| PitchFeatures.ContourComplexityIsChangeShare | src/feature_extractors.py:177-199 | fewer than 3 pitches gives 0; the changes between the non-zero directions never exceed their number minus one, so the clamp never acts and the value is changes over that maximum (0 with fewer than two directions) |
| PitchFeatures.ExtractMelodicContourComplexity | src/feature_extractors.py:171-199 | the directions loop, the filter and the change counter compute the contour complexity function |
| PitchFeatures.CollectDirections | src/feature_extractors.py:181-188 | the loop appends the sign of each consecutive pitch difference |
| PitchFeatures.CountChanges | src/feature_extractors.py:191-195 | the loop counts the adjacent pairs of filtered directions that differ |
| PitchFeatures.MonotoneMelodyHasNoChanges | src/feature_extractors.py:180-199 | a melody that never goes down, or never goes up, has contour complexity 0 |
| PitchFeatures.StrictlyAscendingMelody | src/feature_extractors.py:151-199 | a strictly rising melody has directionality 1 and contour complexity 0 |
| PitchFeatures.TooFewPitches | src/feature_extractors.py:55-178 | the early returns: no pitch gives range 0; fewer than two gives average interval, leap frequency, directionality and interval complexity 0; fewer than three gives contour complexity 0 |
| RhythmFeatures.AverageNoteDuration | src/feature_extractors.py:221 | after the final clamp, the average duration feature lies in [0, 1] |
| RhythmFeatures.AverageDurationIsMeanOverMax | src/feature_extractors.py:216-221 | for non-negative durations with a positive maximum the clamp never acts: the value is the mean over the maximum |
| RhythmFeatures.AverageDurationOneIffUniform | src/feature_extractors.py:218-221 | with a positive maximum the value is 1 exactly when all durations are equal |
| RhythmFeatures.RhythmComplexityCases | src/feature_extractors.py:230-246 | the result is an exact 0 exactly when there are no durations or all are equal; otherwise the entropy is taken over a histogram whose counts sum to the number of durations |
| RhythmFeatures.Syncopation | src/feature_extractors.py:267 | after the final clamp, the syncopation feature lies in [0, 1] |
| RhythmFeatures.SyncopationIsOffBeatShare | src/feature_extractors.py:258-267 | for a non-empty list of onsets the value is the share of onsets off an integer beat; it is 0 exactly when all are on the beat and 1 exactly when none is |
| RhythmFeatures.ExtractSyncopation | src/feature_extractors.py:255-267 | the `note_count`/`syncopated` counter loop computes the syncopation function |
| RhythmFeatures.NoteCountPerBar | src/feature_extractors.py:286 | after the final clamp, the note count per bar feature lies in [0, 1] |
| RhythmFeatures.NoteCountPerBarIsCappedMean | src/feature_extractors.py:281-286 | with at least one measure the value is the total onset count over 20 times the number of measures, capped at 1 |
| RhythmFeatures.NoteCountPerBarVariability | src/feature_extractors.py:302 | after the final clamp, the variability feature lies in [0, 1] |
| RhythmFeatures.EmptyBarIgnored | src/feature_extractors.py:296 | inserting an empty measure anywhere leaves the variability unchanged |
| RhythmFeatures.UniformBarsHaveNoVariability | src/feature_extractors.py:296-302 | when all non-empty measures have the same count the variability is 0 |
| RhythmFeatures.ScaledVarianceCases | src/feature_extractors.py:297-302 | with two or more counts the value is the sample variance over the cap (20 here, 10 for density), or 1 when the variance exceeds the cap |
| RhythmFeatures.RestFrequency | src/feature_extractors.py:322 | after the final clamp, the rest frequency feature lies in [0, 1] |
| RhythmFeatures.NoteEventsArePitches | src/feature_extractors.py:313-317 | the notes counted are exactly the pitched events, and notes plus rests never exceed the events |
| RhythmFeatures.RestFrequencyIsRestShare | src/feature_extractors.py:318-322 | with something counted the value is rests over notes plus rests and complements the note share to 1; no rests gives 0; only rests gives 1 |
| RhythmFeatures.ChordsOnly | src/feature_extractors.py:313-320 | a score made only of chords counts neither notes nor rests and has rest frequency 0 |
| RhythmFeatures.CountsConcat | src/feature_extractors.py:313-317 | the note and rest counters add up over any split of the events |
| RhythmFeatures.ChordIgnored | src/feature_extractors.py:313-322 | inserting a chord anywhere changes neither counter, so rest frequency is unchanged |
| RhythmFeatures.ExtractRestFrequency | src/feature_extractors.py:310-322 | the `isinstance` counter loop computes the rest frequency function |
| RhythmFeatures.NothingToMeasure | src/feature_extractors.py:216-298 | the early returns: no durations, or a non-positive maximum, gives average duration 0; no onsets gives syncopation 0; no measures gives note count 0; fewer than two non-empty measures gives variability 0 |
| StructureFeatures.ScoreLengthInBars | src/feature_extractors.py:338 | after the final clamp, the score length feature lies in [0, 1] |
| StructureFeatures.ScoreLengthIsCappedBarCount | src/feature_extractors.py:335-338 | the value is the number of measures over 200, capped at 1; it is 1 exactly from 200 measures on, and it grows with the number of measures |
| StructureFeatures.MelodicPatternRepetition | src/feature_extractors.py:361 | after the final clamp, the melodic repetition feature lies in [0, 1) |
| StructureFeatures.RhythmicPatternRepetition | src/feature_extractors.py:379 | after the final clamp, the rhythmic repetition feature lies in [0, 1) |
| StructureFeatures.OnePitchMelody | src/feature_extractors.py:352-361 | a melody of three or more repeated pitches has one distinct trigram, so its repetition is 1 − 1/(len−2) |
| StructureFeatures.OneDurationRhythm | src/feature_extractors.py:371-379 | the same for a rhythm of one repeated duration |
| StructureFeatures.PitchEntropyCases | src/feature_extractors.py:388-403 | the result is an exact 0 exactly when there are no pitches or a single pitch repeated |
| StructureFeatures.VarianceInNoteDensity | src/feature_extractors.py:422 | after the final clamp, the density feature lies in [0, 1] |
| StructureFeatures.DensityAndVariabilityShareTheVariance | src/feature_extractors.py:294-422 | when no measure is empty, both features are the same sample variance, capped at 10 for density and at 20 for variability |
| StructureFeatures.EvenDensity | src/feature_extractors.py:412-422 | equal counts in every measure give density variance 0 |
| StructureFeatures.EmptyBarSeparatesTheTwo | src/feature_extractors.py:294-422 | for measure counts 1, 1, 0 the variability is 0 (the empty measure is dropped) while the density variance is 1/30 |
| NGrams.Trigrams | src/feature_extractors.py:356 | there are len−2 windows (none below 3); window i is elements i, i+1 and i+2 |
| NGrams.ElementSet | src/feature_extractors.py:357 | `set(ngrams)` holds exactly the windows; its size is between 1 and the number of windows, and equals that number when all windows are distinct |
| NGrams.Repetition | src/feature_extractors.py:358-361 | after the final clamp, the repetition value lies in [0, 1) |
| NGrams.RepetitionIsUnclamped | src/feature_extractors.py:358-361 | from 3 elements on the clamp never acts: the value is 1 − distinct windows / windows |
| NGrams.ShortSequence | src/feature_extractors.py:354-355 | fewer than 3 elements gives 0 |
| NGrams.DistinctBetweenOneAndTotal | src/feature_extractors.py:356-358 | from 3 elements on there are between 1 and len−2 distinct windows |
| NGrams.ConstantRepetition | src/feature_extractors.py:356-361 | a constant sequence of 3 or more has repetition 1 − 1/(len−2) |
| NGrams.NoRepeatedWindow | src/feature_extractors.py:356-361 | when no window repeats, the repetition is 0 |
| Frequencies.HistogramCounts | src/feature_extractors.py:105-107 | the histogram's keys are exactly the symbols seen; each count is that symbol's multiplicity and positive; there are at most len keys |
| Frequencies.HistogramTotal | src/feature_extractors.py:105-108 | the counts sum to the number of symbols (`total`) |
| Frequencies.SingleSymbol | src/feature_extractors.py:116-117 | a non-empty sequence repeats one symbol exactly when its histogram is that symbol with count len, and exactly when it has one key (the case where `log2` of the key count is 0) |
| Frequencies.BuildHistogram | src/feature_extractors.py:105-107 | the `get(x, 0) + 1` loop computes the histogram |
| Entropy.EntropyFeatureCases | src/feature_extractors.py:110-118 | the normalised entropy is an exact 0 exactly when there are no symbols or only one distinct symbol; otherwise it is taken over the histogram, which has between 2 and len keys, counts equal to the multiplicities, and counts that sum to len |
| Entropy.ExtractEntropy | src/feature_extractors.py:392-394 | the histogram loop followed by the degenerate-case test computes the entropy feature |
| FeatureSet.FeatureInUnitInterval | src/feature_extractors.py:5-7 | every extractor's exact value lies in [0, 1] |
| FeatureSet.Extract | src/feature_extractors.py:445 | `extractor.extract(score)` dispatches to the extractor's own function |
| FeatureSet.ExtractAllFeatures | src/feature_extractors.py:442-447 | the loop over the extractor list computes the feature dictionary |
| FeatureSet.NamesDistinct | src/feature_extractors.py:446 | two extractors have the same class name exactly when they are the same class |
| FeatureSet.NameDecodes | src/feature_extractors.py:446 | the class is recovered from its name, so no two classes share a key |
| FeatureSet.FeatureKeys | src/feature_extractors.py:442-447 | the dictionary's keys are exactly the class names of the extractors in the list |
| FeatureSet.LaterExtractorWins | src/feature_extractors.py:443-446 | an extractor that no later extractor repeats has its own value under its class name |
| FeatureSet.FeaturesInUnitInterval | src/feature_extractors.py:442-447 | every exact value in the dictionary lies in [0, 1] |
| Text.ToLower | src/shanty_type_classifier.py:49 | lower-casing a character yields no capital letter, maps A–Z to a–z, leaves every other character alone, and keeps the word and space classes |
| Text.Lower | src/shanty_type_classifier.py:49 | `str.lower` keeps the length and leaves no capital letter |
| Text.LowerOfLowercase | src/shanty_type_classifier.py:94 | lower-casing a string without capitals changes nothing |
| Text.LowerConcat | src/shanty_type_classifier.py:94 | lower-casing distributes over concatenation |
| Text.LStripCutsLeadingSpace | src/shanty_type_classifier.py:46 | `lstrip` leaves the longest suffix that does not start with whitespace, and everything it cuts is whitespace |
| Text.RStripCutsTrailingSpace | src/shanty_type_classifier.py:46 | `rstrip` leaves the longest prefix that does not end with whitespace, and everything it cuts is whitespace |
| Text.StripIsCore | src/shanty_type_classifier.py:46 | `strip` leaves the slice between leading and trailing whitespace, and that slice neither starts nor ends with whitespace |
| Text.StripOfStripped | src/shanty_type_classifier.py:65 | a string without whitespace at either end is its own strip |
| Text.StripIdempotent | src/shanty_type_classifier.py:95 | stripping twice equals stripping once |
| Text.Contains | src/shanty_type_classifier.py:118 | `t in s` holds exactly when t occurs at some position of s |
| Text.ContainsExtend | src/shanty_type_classifier.py:49 | whatever occurs in s occurs in any text that includes s |
| ShantyNames.KeptCharacters | src/shanty_type_classifier.py:94 | `re.sub(r'[^\w\s]', '', …)` leaves only word characters and whitespace, adds no capitals, and changes nothing in a string made only of them |
| ShantyNames.KeepOne | src/shanty_type_classifier.py:94 | one character survives exactly when it is a word character or whitespace |
| ShantyNames.KeepConcat | src/shanty_type_classifier.py:94 | the punctuation filter distributes over concatenation, so the surviving characters keep their order |
| ShantyNames.CollapsedShape | src/shanty_type_classifier.py:95 | `re.sub(r'\s+', ' ', …)` leaves plain single spaces as its only whitespace; it is empty exactly when its input is, and starts with a space exactly when its input starts with whitespace |
| ShantyNames.CollapseAround | src/shanty_type_classifier.py:95 | a character that is not whitespace is kept and the text on each side of it collapses independently |
| ShantyNames.CollapseBlank | src/shanty_type_classifier.py:95 | a non-empty run of whitespace alone becomes one space |
| ShantyNames.CollapseBetween | src/shanty_type_classifier.py:95 | a run of whitespace between two parts that do not touch it with whitespace becomes one space between their collapsed forms |
| ShantyNames.CollapseKeepsClasses | src/shanty_type_classifier.py:95 | collapsing spaces keeps a string made of word characters and whitespace that way, and adds no capitals |
| ShantyNames.CollapseKeepsSingleSpaces | src/shanty_type_classifier.py:95 | collapsing changes nothing in a string whose only whitespace is single plain spaces |
| ShantyNames.SimplifyIsSimple | src/shanty_type_classifier.py:94-95 | a simplified title holds only lower-case word characters and single spaces, with no space at either end |
| ShantyNames.SimplifyKeepsSimpleNames | src/shanty_type_classifier.py:94-95 | simplifying a title that is already of that form changes nothing |
| ShantyNames.SimplifyIdempotent | src/shanty_type_classifier.py:94-95 | simplifying twice equals simplifying once |
| ShantyNames.SimplifyWord | src/shanty_type_classifier.py:94-95 | a title without whitespace simplifies to its lower-case word characters, in order |
| ShantyNames.SimplifyDropsPunctuation | src/shanty_type_classifier.py:94-95 | "Billy-Boy!" simplifies to "billyboy" |
| ShantyNames.SimplifyThreeWords | src/shanty_type_classifier.py:94-95 | three words separated by runs of whitespace simplify to the lower-case words joined by single spaces |
| ShantyNames.SimplifyCollapsesSpaces | src/shanty_type_classifier.py:94-95 | `"Roll  the\tMan"` (two spaces, then a tab) simplifies to `"roll the man"` |
| ShantyNames.NumberedMusicTestInRange | src/shanty_type_classifier.py:105 | a MIDI file name that starts with `music` has a sixth character, so `midi_file[5]` never raises |
| ShantyNames.LastDot | src/shanty_type_classifier.py:109 | the last dot's position, or −1: the character there is a dot and no later character is |
| ShantyNames.Root | src/shanty_type_classifier.py:109 | `os.path.splitext(…)[0]` is a prefix of the file name |
| ShantyNames.RootOfMidiFile | src/shanty_type_classifier.py:109 | the root of `stem.mid` or `stem.midi` is the stem, unless the stem is only dots |
| ShantyNames.LeadingDigitsDropped | src/shanty_type_classifier.py:112 | `re.sub(r'^[0-9]+', '', …)` leaves the longest suffix that does not start with a digit, and everything it drops is a digit |
| ShantyNames.StripLeadingDigitsIdempotent | src/shanty_type_classifier.py:112 | dropping leading digits twice equals doing it once |
| ShantyNames.CleanBaseOfNumberedName | src/shanty_type_classifier.py:109-112 | `01billy.mid` is matched by `billy`: a track number and name followed by the extension give back the name |
| ShantyNames.TypeHeadingRobust | src/shanty_type_classifier.py:49 | the heading test ignores case, and text around a type heading keeps it a type heading |
| ShantyNames.ColonsRemoved | src/shanty_type_classifier.py:51 | `replace(':', '')` leaves no colon and changes nothing in a string without colons |
| ShantyNames.RemoveColonsOne | src/shanty_type_classifier.py:51 | one character survives exactly when it is not a colon |
| ShantyNames.RemoveColonsConcat | src/shanty_type_classifier.py:51 | colon removal distributes over concatenation, so every other character is kept in order |
| ShantyNames.CleanTypeNameIsClean | src/shanty_type_classifier.py:51 | a type name has no colon and no whitespace at either end, and cleaning it again changes nothing |
| ShantyNames.WordIsFirstRun | src/shanty_type_classifier.py:64 | the first word is a prefix without whitespace, followed by whitespace or the end, and is non-empty when the text starts with a non-space |
| ShantyNames.FirstTokenIsFirstField | src/shanty_type_classifier.py:64 | `split()[0]` fails exactly when the text is all whitespace; otherwise it is the first non-empty whitespace-free field, preceded only by whitespace and followed by whitespace or the end; stripping first changes nothing |
| OrderedDicts.Find | src/shanty_type_classifier.py:96 | a key's position: absent keys give −1, and otherwise it is the first position holding the key |
| OrderedDicts.Get | src/shanty_type_classifier.py:96 | a lookup succeeds exactly for the keys present |
| OrderedDicts.PutSemantics | src/shanty_type_classifier.py:96-100 | after `d[k] = v`, k maps to v and other keys keep their values; keys stay distinct; an existing key keeps its place and a new one is appended |
| ShantyMatching.BuildFuzzyMapBy | src/shanty_type_classifier.py:91-100 | the loop over `shanty_types.items()` computes the fuzzy map |
| ShantyMatching.FuzzyMapKeysBy | src/shanty_type_classifier.py:91-100 | for any key function, the fuzzy map's keys are distinct and are exactly the keys of the titles |
| ShantyMatching.FuzzyMapKeys | src/shanty_type_classifier.py:91-100 | the fuzzy map's keys are distinct and are exactly the simplified titles |
| ShantyMatching.LaterTitleWinsBy | src/shanty_type_classifier.py:96-100 | a title whose key no later title shares maps to its own entry (original name, type and number) |
| ShantyMatching.LaterTitleWins | src/shanty_type_classifier.py:94-100 | the same for simplified titles: when two titles simplify alike, the later one's entry is kept |
| ShantyMatching.FirstMatch | src/shanty_type_classifier.py:115-126 | the first entry in insertion order whose simplified title contains the base name or is contained in it; no earlier entry matches; and None only when no entry matches |
| ShantyMatching.FirstMatchIsUnique | src/shanty_type_classifier.py:115-126 | any answer with the first-match properties is the first match |
| ShantyMatching.EmptyBaseMatchesFirst | src/shanty_type_classifier.py:118 | an empty base name matches the first entry of a non-empty fuzzy map |
| ShantyMatching.MatchFile | src/shanty_type_classifier.py:115-126 | the loop with `break` finds the first match |
| ShantyMatching.MidiFiles | src/shanty_type_classifier.py:88 | the listing filter keeps exactly the `.mid` and `.midi` names |
| ShantyMatching.AssignFile | src/shanty_type_classifier.py:104-126 | one file's step: skip numbered `music` files; otherwise clean the name and take the first match's entry, if any |
| ShantyMatching.MapShantiesToMidiFiles | src/shanty_type_classifier.py:85-131 | the whole procedure computes `midi_to_type` from the MIDI files of the listing and the fuzzy map of the index |
| ShantyMatching.MidiToTypeEntries | src/shanty_type_classifier.py:103-131 | a file is in the result exactly when it was considered and has an assignment, and it maps to that assignment |
| ShantyMatching.MatchingRules | src/shanty_type_classifier.py:88-131 | a name is in the result exactly when it is a listed MIDI file, not a numbered `music` file, and its cleaned base name matches some entry; it maps to the first such entry's name, type and number |
| ShantyMatching.NumberedMusicFilesSkipped | src/shanty_type_classifier.py:105-106 | `music` followed by a digit is never in the result |
| ShantyMatching.NumberOnlyFileTakesFirstTitle | src/shanty_type_classifier.py:109-126 | a file whose name is only a track number (`07.mid`) matches the first title of a non-empty index |
| ShantyIndex.AddRowKeepsValid | src/shanty_type_classifier.py:59-69 | one row keeps the index valid: names are trimmed and distinct, type names have no colon or outer whitespace, and numbers are one non-empty token |
| ShantyIndex.AddRowsKeepsValid | src/shanty_type_classifier.py:58-69 | all rows of a table keep the index valid |
| ShantyIndex.AddHeadingsKeepsValid | src/shanty_type_classifier.py:45-69 | all headings keep the index valid |
| ShantyIndex.ParsedEntriesAreValid | src/shanty_type_classifier.py:45-72 | every entry of a parsed index is valid in the sense above |
| ShantyIndex.RowFails | src/shanty_type_classifier.py:60-64 | a row fails exactly when it has a linked first cell whose text is all whitespace |
| ShantyIndex.RowsFail | src/shanty_type_classifier.py:58-69 | a table fails exactly when one of its rows does |
| ShantyIndex.HeadingFails | src/shanty_type_classifier.py:45-69 | a heading fails exactly when it is a type heading with a table containing such a row |
| ShantyIndex.HeadingsFail | src/shanty_type_classifier.py:45-69 | the headings fail exactly when one of them does |
| ShantyIndex.ParseFailsIffBlankNumber | src/shanty_type_classifier.py:45-72 | the parse raises exactly when some type heading's table has a linked row with a blank first cell; rows under other headings are never read |

## Left out

- Parsing MIDI into a music21 score is left out. The model starts from the event and measure sequences a score yields, and it does not model music21's quarter-length fractions.
- Floating-point arithmetic is left out. Durations, offsets, means and ratios are exact reals, so rounding is not modelled.
- Entropy.EntropyFeatureCases: this lemma and the three entropy features it serves do not compute `math.log2` or the entropy value. `NormalizedEntropy(histogram)` stands for that number. The model states the degenerate cases, where the result is exactly 0, and the histogram.
- RhythmFeatures.SyncopationIsOffBeatShare: this lemma treats an onset as on the beat when the offset is an integer. `math.isclose(offset % 1, 0.0, abs_tol=1e-5)` also accepts offsets within 1e-5 above an integer, and that tolerance is not modelled.
- The n-grams are tuples of pitches or durations, not the strings made by `" ".join(str(...))`. Joining three tokens that contain no space is injective, so the set sizes agree.
- The BeautifulSoup tree is not modelled. Each heading carries the rows of the table `find_next('table')` returns, and the cells carry their text and their link's text. A table is taken as it is found, so where that table sits in the document is not modelled.
- File reading, `os.listdir`, JSON and CSV output, argument parsing, logging and the `__main__` entry points are left out. The directory listing is a parameter of `MapShantiesToMidiFiles`.
- ShantyIndex.ParseShantyTypes: the IndexError raised by `split()[0]` on a blank number cell is `None`, and no partial dictionary is returned.
- Text.IsSpace: the character classes `\w` and `\s`, `str.lower`, `str.isdigit` and `str.isspace` are modelled on ASCII only. Unicode letters, digits and spaces are not modelled.
- ShantyNames.Root: `os.path.splitext` is modelled for a bare file name without directory separators, because `os.listdir` yields none.
- ShantyMatching.MidiToType: `midi_to_type` is a map, so its insertion order, which only affects how it is written out, is not kept.
- FeatureSet.Features: the feature dictionary is a map, so the order in which `extract_all_features` inserts its keys, which is the order a caller prints them in, is not kept.
- `src/main.py` is not part of this model.
