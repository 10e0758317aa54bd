/**
 * `map_shanties_to_midi_files`: the fuzzy map from simplified titles to
 * index entries, and the assignment of each listed MIDI file to the first
 * entry whose simplified title contains its cleaned base name or is
 * contained in it. The directory listing is a parameter.
 */
module ShantyMatching {
  import opened Wrappers
  import opened Text
  import opened ShantyNames
  import opened OrderedDicts

  /** An index entry: `{'type': ..., 'number': ...}`. */
  datatype ShantyInfo = ShantyInfo(shantyType: string, number: string)

  /** A fuzzy-map entry: `{'original_name': ..., 'type': ..., 'number': ...}`. */
  datatype FuzzyEntry = FuzzyEntry(originalName: string, shantyType: string, number: string)

  /** A result entry: `{'shanty_name': ..., 'shanty_type': ..., 'shanty_number': ...}`. */
  datatype MidiInfo = MidiInfo(shantyName: string, shantyType: string, shantyNumber: string)

  // ---------------------------------------------------------------------
  // The fuzzy map
  // ---------------------------------------------------------------------

  function EntryOf(title: string, info: ShantyInfo): FuzzyEntry
  {
    FuzzyEntry(title, info.shantyType, info.number)
  }

  /**
   * The fuzzy map after the first |types| index entries have been inserted
   * under `key` of their titles; the classifier's key is `Simplify`.
   */
  function FuzzyMapBy(types: Dict<ShantyInfo>, key: string -> string): Dict<FuzzyEntry>
  {
    if types == [] then []
    else
      var (title, info) := types[|types| - 1];
      Put(FuzzyMapBy(types[..|types| - 1], key), key(title), EntryOf(title, info))
  }

  function FuzzyMap(types: Dict<ShantyInfo>): Dict<FuzzyEntry>
  {
    FuzzyMapBy(types, Simplify)
  }

  /** The loop that fills `fuzzy_map`, inserting each title under `key` of it. */
  method BuildFuzzyMapBy(types: Dict<ShantyInfo>, key: string -> string) returns (fuzzy: Dict<FuzzyEntry>)
    ensures fuzzy == FuzzyMapBy(types, key)
  {
    fuzzy := [];
    for i := 0 to |types|
      invariant fuzzy == FuzzyMapBy(types[..i], key)
    {
      assert types[..i + 1][..i] == types[..i];
      var (title, info) := types[i];
      var simple := key(title);
      fuzzy := Put(fuzzy, simple, EntryOf(title, info));
    }
    assert types[..|types|] == types;
  }

  /** The fuzzy map's keys are distinct and are exactly the keys of the index titles. */
  lemma {:induction false} FuzzyMapKeysBy(types: Dict<ShantyInfo>, key: string -> string)
    ensures DistinctKeys(FuzzyMapBy(types, key))
    ensures Keys(FuzzyMapBy(types, key)) == set i | 0 <= i < |types| :: key(types[i].0)
  {
    if types != [] {
      var front := types[..|types| - 1];
      var (title, info) := types[|types| - 1];
      FuzzyMapKeysBy(front, key);
      PutSemantics(FuzzyMapBy(front, key), key(title), EntryOf(title, info), key(title));
      TitleKeysOfFront(types, front, key);
    }
  }

  lemma TitleKeysOfFront(types: Dict<ShantyInfo>, front: Dict<ShantyInfo>, key: string -> string)
    requires types != [] && front == types[..|types| - 1]
    ensures (set i | 0 <= i < |types| :: key(types[i].0))
      == (set i | 0 <= i < |front| :: key(front[i].0)) + {key(types[|types| - 1].0)}
  {
    forall i | 0 <= i < |front| ensures types[i] == front[i] {
    }
  }

  /**
   * The fuzzy map's keys are distinct and are exactly the simplified index
   * titles.
   */
  lemma FuzzyMapKeys(types: Dict<ShantyInfo>)
    ensures DistinctKeys(FuzzyMap(types))
    ensures Keys(FuzzyMap(types)) == set i | 0 <= i < |types| :: Simplify(types[i].0)
  {
    FuzzyMapKeysBy(types, Simplify);
  }

  /**
   * When two titles have the same key the later one's entry wins: a title
   * no later title collides with is found under its key with its own name,
   * type and number.
   */
  lemma {:induction false} LaterTitleWinsBy(types: Dict<ShantyInfo>, key: string -> string, i: nat)
    requires i < |types|
    requires forall j :: i < j < |types| ==> key(types[j].0) != key(types[i].0)
    ensures Get(FuzzyMapBy(types, key), key(types[i].0)) == Some(EntryOf(types[i].0, types[i].1))
  {
    var front := types[..|types| - 1];
    var (title, info) := types[|types| - 1];
    FuzzyMapKeysBy(front, key);
    PutSemantics(FuzzyMapBy(front, key), key(title), EntryOf(title, info), key(types[i].0));
    if i < |front| {
      assert front[i] == types[i];
      forall j | i < j < |front| ensures key(front[j].0) != key(front[i].0) {
        assert front[j] == types[j];
      }
      LaterTitleWinsBy(front, key, i);
    }
  }

  /** Of two titles that simplify to the same key, the later title's entry wins. */
  lemma LaterTitleWins(types: Dict<ShantyInfo>, i: nat)
    requires i < |types|
    requires forall j :: i < j < |types| ==> Simplify(types[j].0) != Simplify(types[i].0)
    ensures Get(FuzzyMap(types), Simplify(types[i].0)) == Some(EntryOf(types[i].0, types[i].1))
  {
    LaterTitleWinsBy(types, Simplify, i);
  }

  // ---------------------------------------------------------------------
  // Matching
  // ---------------------------------------------------------------------

  /** `base in simple or simple in base`. */
  predicate Matches(base: string, simple: string)
  {
    Contains(simple, base) || Contains(base, simple)
  }

  /** The position of the first fuzzy-map entry the base name matches, in insertion order. */
  function FirstMatch(base: string, fuzzy: Dict<FuzzyEntry>): (r: Option<nat>)
    ensures r.Some? ==> r.value < |fuzzy| && Matches(base, fuzzy[r.value].0)
    ensures r.Some? ==> forall j :: 0 <= j < r.value ==> !Matches(base, fuzzy[j].0)
    ensures r.None? ==> forall j :: 0 <= j < |fuzzy| ==> !Matches(base, fuzzy[j].0)
  {
    if fuzzy == [] then None
    else if Matches(base, fuzzy[0].0) then Some(0)
    else
      match FirstMatch(base, fuzzy[1..])
      case None => None
      case Some(i) => Some(i + 1)
  }

  /** The empty base name is contained in every title, so it takes the first entry. */
  lemma EmptyBaseMatchesFirst(fuzzy: Dict<FuzzyEntry>)
    requires fuzzy != []
    ensures FirstMatch("", fuzzy) == Some(0)
  {
    assert OccursAt("", fuzzy[0].0, 0);
  }

  /** The inner loop with its `matched` flag and `break`. */
  method MatchFile(base: string, fuzzy: Dict<FuzzyEntry>) returns (found: Option<nat>)
    ensures found == FirstMatch(base, fuzzy)
  {
    found := None;
    var k := 0;
    while k < |fuzzy|
      invariant 0 <= k <= |fuzzy|
      invariant forall j :: 0 <= j < k ==> !Matches(base, fuzzy[j].0)
    {
      if Contains(fuzzy[k].0, base) || Contains(base, fuzzy[k].0) {
        found := Some(k);
        break;
      }
      k := k + 1;
    }
    FirstMatchIsUnique(base, fuzzy, found);
  }

  lemma FirstMatchIsUnique(base: string, fuzzy: Dict<FuzzyEntry>, r: Option<nat>)
    requires r.Some? ==> r.value < |fuzzy| && Matches(base, fuzzy[r.value].0)
    requires r.Some? ==> forall j :: 0 <= j < r.value ==> !Matches(base, fuzzy[j].0)
    requires r.None? ==> forall j :: 0 <= j < |fuzzy| ==> !Matches(base, fuzzy[j].0)
    ensures r == FirstMatch(base, fuzzy)
  {
  }

  /** `[f for f in os.listdir(music_dir) if f.endswith(('.midi', '.mid'))]`. */
  function MidiFiles(listing: seq<string>): (r: seq<string>)
    ensures forall f :: f in r <==> f in listing && IsMidiFile(f)
  {
    if listing == [] then []
    else
      var rest := MidiFiles(listing[1..]);
      assert forall f :: f in listing <==> f == listing[0] || f in listing[1..];
      if IsMidiFile(listing[0]) then [listing[0]] + rest else rest
  }

  function InfoOf(e: FuzzyEntry): MidiInfo
  {
    MidiInfo(e.originalName, e.shantyType, e.number)
  }

  /** What one file contributes: nothing when skipped or unmatched, else its first match's entry. */
  function Assignment(f: string, fuzzy: Dict<FuzzyEntry>): Option<MidiInfo>
  {
    if IsNumberedMusicFile(f) then None
    else
      match FirstMatch(CleanBase(f), fuzzy)
      case None => None
      case Some(i) => Some(InfoOf(fuzzy[i].1))
  }

  /** `midi_to_type[f] = ...` when f has an assignment; m unchanged otherwise. */
  function Record(m: map<string, MidiInfo>, f: string, a: Option<MidiInfo>): map<string, MidiInfo>
  {
    match a
    case None => m
    case Some(info) => m[f := info]
  }

  /** `midi_to_type` after the first |files| files have been considered. */
  function MidiToType(files: seq<string>, fuzzy: Dict<FuzzyEntry>): map<string, MidiInfo>
  {
    if files == [] then map[]
    else
      var f := files[|files| - 1];
      Record(MidiToType(files[..|files| - 1], fuzzy), f, Assignment(f, fuzzy))
  }

  lemma MidiToTypeStep(files: seq<string>, fuzzy: Dict<FuzzyEntry>, i: nat)
    requires i < |files|
    ensures MidiToType(files[..i + 1], fuzzy) == Record(MidiToType(files[..i], fuzzy), files[i], Assignment(files[i], fuzzy))
  {
    assert files[..i + 1][..i] == files[..i];
  }

  /** The function body of `map_shanties_to_midi_files`, with the listing passed in. */
  method MapShantiesToMidiFiles(types: Dict<ShantyInfo>, listing: seq<string>)
    returns (midiToType: map<string, MidiInfo>)
    ensures midiToType == MidiToType(MidiFiles(listing), FuzzyMap(types))
  {
    var midiFiles := MidiFiles(listing);
    var fuzzy := BuildFuzzyMapBy(types, Simplify);
    midiToType := map[];
    for i := 0 to |midiFiles|
      invariant midiToType == MidiToType(midiFiles[..i], fuzzy)
    {
      MidiToTypeStep(midiFiles, fuzzy, i);
      assert midiFiles[i] in midiFiles;
      var entry := AssignFile(midiFiles[i], fuzzy);
      if entry.Some? {
        midiToType := midiToType[midiFiles[i] := entry.value];
      }
    }
    assert midiFiles[..|midiFiles|] == midiFiles;
  }

  /** One pass of the outer loop: the `music<digit>` skip, the base-name cleaning and the first-match search. */
  method AssignFile(f: string, fuzzy: Dict<FuzzyEntry>) returns (entry: Option<MidiInfo>)
    requires IsMidiFile(f)
    ensures entry == Assignment(f, fuzzy)
  {
    // `midi_file[5]` is in range: the name ends in `.mid` or `.midi`.
    if IsPrefix("music", f) {
      NumberedMusicTestInRange(f);
      if IsDigit(f[5]) {
        return None;
      }
    }
    var base := StripLeadingDigits(Root(f));
    var found := MatchFile(base, fuzzy);
    if found.Some? {
      var e := fuzzy[found.value].1;
      entry := Some(MidiInfo(e.originalName, e.shantyType, e.number));
    } else {
      entry := None;
    }
  }

  /** A file is a key exactly when it is listed and gets an assignment, and then it holds that assignment. */
  lemma {:induction false} MidiToTypeEntries(files: seq<string>, fuzzy: Dict<FuzzyEntry>, f: string)
    ensures f in MidiToType(files, fuzzy) <==> f in files && Assignment(f, fuzzy).Some?
    ensures f in MidiToType(files, fuzzy) ==> MidiToType(files, fuzzy)[f] == Assignment(f, fuzzy).value
  {
    if files != [] {
      var front := files[..|files| - 1];
      MidiToTypeEntries(front, fuzzy, f);
      assert f in files <==> f in front || f == files[|files| - 1] by {
        assert files == front + [files[|files| - 1]];
      }
    }
  }

  /**
   * The matching rules: a key of the result is a listed `.mid`/`.midi`
   * file that is not a `music<digit>` file and whose cleaned base name
   * matches some fuzzy-map entry; its value carries the title, type and
   * number of the first such entry in insertion order. A file with no
   * match gets no entry.
   */
  lemma MatchingRules(types: Dict<ShantyInfo>, listing: seq<string>, f: string)
    ensures var result, fuzzy := MidiToType(MidiFiles(listing), FuzzyMap(types)), FuzzyMap(types);
      && (f in result <==>
            f in listing && IsMidiFile(f) && !IsNumberedMusicFile(f)
            && FirstMatch(CleanBase(f), fuzzy).Some?)
      && (f in result ==> result[f] == InfoOf(fuzzy[FirstMatch(CleanBase(f), fuzzy).value].1))
  {
    MidiToTypeEntries(MidiFiles(listing), FuzzyMap(types), f);
  }

  /** A `music<digit>` file never appears in the result. */
  lemma NumberedMusicFilesSkipped(types: Dict<ShantyInfo>, listing: seq<string>, f: string)
    requires IsPrefix("music", f) && |f| > 5 && IsDigit(f[5])
    ensures f !in MidiToType(MidiFiles(listing), FuzzyMap(types))
  {
    MatchingRules(types, listing, f);
  }

  /**
   * A file whose name is a track number and an extension has an empty base
   * name, which matches the first index title whenever the index is not
   * empty.
   */
  lemma NumberOnlyFileTakesFirstTitle(types: Dict<ShantyInfo>, listing: seq<string>, f: string)
    requires f in listing && IsMidiFile(f) && !IsNumberedMusicFile(f)
    requires CleanBase(f) == "" && types != []
    ensures var fuzzy := FuzzyMap(types);
      f in MidiToType(MidiFiles(listing), fuzzy) && MidiToType(MidiFiles(listing), fuzzy)[f] == InfoOf(fuzzy[0].1)
  {
    FuzzyMapKeysBy(types, Simplify);
    assert Simplify(types[0].0) in Keys(FuzzyMap(types));
    EmptyBaseMatchesFirst(FuzzyMap(types));
    MatchingRules(types, listing, f);
  }
}
