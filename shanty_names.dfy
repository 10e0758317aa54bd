/**
 * The string steps of the shanty classifier: simplification of index
 * titles for matching, cleaning of MIDI file names, the `music<digit>`
 * skip, and the heading test, type-name cleanup and number token used when
 * reading the index.
 */
module ShantyNames {
  import opened Wrappers
  import opened Text

  // ---------------------------------------------------------------------
  // Title simplification
  // ---------------------------------------------------------------------

  /** Every character is a word character or whitespace. */
  predicate WordOrSpace(s: string)
  {
    forall i :: 0 <= i < |s| ==> IsWord(s[i]) || IsSpace(s[i])
  }

  /** The only whitespace character is the plain space. */
  predicate SpacesAreBlanks(s: string)
  {
    forall i :: 0 <= i < |s| ==> IsSpace(s[i]) ==> s[i] == ' '
  }

  /** No two spaces are adjacent. */
  predicate NoDoubleBlank(s: string)
  {
    forall i :: 0 < i < |s| ==> !(s[i - 1] == ' ' && s[i] == ' ')
  }

  /** Neither the first nor the last character is whitespace. */
  predicate Trimmed(s: string)
  {
    s == [] || (!IsSpace(s[0]) && !IsSpace(s[|s| - 1]))
  }

  /**
   * A simplified title: lower-case word characters and single spaces, with
   * no space at either end.
   */
  predicate SimpleName(s: string)
  {
    && (forall i :: 0 <= i < |s| ==> (IsWord(s[i]) && !IsUpper(s[i])) || s[i] == ' ')
    && NoDoubleBlank(s)
    && Trimmed(s)
  }

  /** `re.sub(r'[^\w\s]', '', s)`: drops every character that is neither a word character nor whitespace. */
  function KeepWordAndSpace(s: string): string
  {
    if s == [] then []
    else
      var rest := KeepWordAndSpace(s[1..]);
      if IsWord(s[0]) || IsSpace(s[0]) then [s[0]] + rest else rest
  }

  /**
   * What is left holds only word characters and whitespace, lowering is not
   * undone, and a string with nothing to drop is left as it is.
   */
  lemma {:induction false} KeptCharacters(s: string)
    ensures var r := KeepWordAndSpace(s);
      && WordOrSpace(r)
      && (NoUpper(s) ==> NoUpper(r))
      && (WordOrSpace(s) ==> r == s)
    decreases |s|
  {
    if s != [] {
      KeptCharacters(s[1..]);
      SuffixKeeps(s, s[1..]);
      ConsKeeps(s[0], KeepWordAndSpace(s[1..]));
      assert s == [s[0]] + s[1..];
    }
  }

  /** A character in front of a string keeps the string's character classes when it has them itself. */
  lemma ConsKeeps(c: char, t: string)
    ensures (IsWord(c) || IsSpace(c)) && WordOrSpace(t) ==> WordOrSpace([c] + t)
    ensures !IsUpper(c) && NoUpper(t) ==> NoUpper([c] + t)
  {
    forall i | 0 < i <= |t| ensures ([c] + t)[i] == t[i - 1] {
    }
  }

  lemma SuffixKeeps(s: string, t: string)
    requires |t| <= |s| && t == s[|s| - |t|..]
    ensures WordOrSpace(s) ==> WordOrSpace(t)
    ensures NoUpper(s) ==> NoUpper(t)
  {
    forall i | 0 <= i < |t| ensures t[i] == s[|s| - |t| + i] {
    }
  }

  /** One character survives exactly when it is a word character or whitespace. */
  lemma KeepOne(c: char)
    ensures KeepWordAndSpace([c]) == if IsWord(c) || IsSpace(c) then [c] else []
  {
    assert [c][1..] == [];
  }

  /**
   * The filter works character by character: it distributes over
   * concatenation, so the characters that survive keep their order.
   */
  lemma {:induction false} KeepConcat(a: string, b: string)
    ensures KeepWordAndSpace(a + b) == KeepWordAndSpace(a) + KeepWordAndSpace(b)
    decreases |a|
  {
    if a != [] {
      var s := a + b;
      assert s[0] == a[0] && s[1..] == a[1..] + b;
      KeepConcat(a[1..], b);
      var head := if IsWord(a[0]) || IsSpace(a[0]) then [a[0]] else [];
      assert KeepWordAndSpace(s) == head + KeepWordAndSpace(a[1..] + b);
      assert KeepWordAndSpace(a) == head + KeepWordAndSpace(a[1..]);
    } else {
      assert a + b == b;
    }
  }

  /** Dropping characters never introduces whitespace. */
  lemma {:induction false} KeepNoSpace(s: string)
    requires NoSpace(s)
    ensures NoSpace(KeepWordAndSpace(s))
    decreases |s|
  {
    if s != [] {
      assert NoSpace(s[1..]) by {
        forall i | 0 <= i < |s| - 1 ensures s[1..][i] == s[i + 1] {
        }
      }
      KeepNoSpace(s[1..]);
      var rest := KeepWordAndSpace(s[1..]);
      forall i | 0 < i <= |rest| ensures ([s[0]] + rest)[i] == rest[i - 1] {
      }
    }
  }

  /** `re.sub(r'\s+', ' ', s)`: every maximal run of whitespace becomes one space. */
  function CollapseSpaces(s: string): string
    decreases |s|
  {
    if s == [] then []
    else if IsSpace(s[0]) then [' '] + CollapseSpaces(TrimLeft(s))
    else [s[0]] + CollapseSpaces(s[1..])
  }

  /**
   * After collapsing, the only whitespace is the plain space, no two spaces
   * are adjacent, nothing becomes empty, and the result starts with a space
   * exactly when s starts with whitespace.
   */
  lemma {:induction false} CollapsedShape(s: string)
    ensures var r := CollapseSpaces(s);
      && SpacesAreBlanks(r) && NoDoubleBlank(r)
      && (r == [] <==> s == [])
      && (r != [] ==> (r[0] == ' ' <==> IsSpace(s[0])))
    decreases |s|
  {
    if s != [] {
      var t := if IsSpace(s[0]) then TrimLeft(s) else s[1..];
      if IsSpace(s[0]) {
        LStripCutsLeadingSpace(s);
      }
      CollapsedShape(t);
      ConsShape(if IsSpace(s[0]) then ' ' else s[0], CollapseSpaces(t));
    }
  }

  lemma ConsShape(c: char, t: string)
    requires SpacesAreBlanks(t) && NoDoubleBlank(t)
    requires IsSpace(c) ==> c == ' '
    requires c == ' ' && t != [] ==> t[0] != ' '
    ensures SpacesAreBlanks([c] + t) && NoDoubleBlank([c] + t)
  {
    forall i | 0 < i <= |t| ensures ([c] + t)[i] == t[i - 1] {
    }
  }

  /** Collapsing whitespace keeps a string of word characters and whitespace one, and adds no capital. */
  lemma {:induction false} CollapseKeepsClasses(s: string)
    ensures WordOrSpace(s) ==> WordOrSpace(CollapseSpaces(s))
    ensures NoUpper(s) ==> NoUpper(CollapseSpaces(s))
    decreases |s|
  {
    if s != [] {
      var t := if IsSpace(s[0]) then TrimLeft(s) else s[1..];
      if IsSpace(s[0]) {
        LStripCutsLeadingSpace(s);
      }
      SuffixKeeps(s, t);
      CollapseKeepsClasses(t);
      ConsKeeps(if IsSpace(s[0]) then ' ' else s[0], CollapseSpaces(t));
    }
  }

  /** `lstrip` stops at the first character that is not whitespace, wherever it lies. */
  lemma {:induction false} TrimLeftConcat(a: string, t: string)
    requires t != [] && !IsSpace(t[0])
    ensures TrimLeft(a + t) == TrimLeft(a) + t
    decreases |a|
  {
    if a != [] && IsSpace(a[0]) {
      assert (a + t)[1..] == a[1..] + t;
      TrimLeftConcat(a[1..], t);
    }
  }

  /**
   * A character that is not whitespace separates two parts that collapse
   * independently: it is kept, in its place, and nothing else changes around it.
   */
  lemma {:induction false} CollapseAround(a: string, c: char, b: string)
    requires !IsSpace(c)
    ensures CollapseSpaces(a + [c] + b) == CollapseSpaces(a) + [c] + CollapseSpaces(b)
    decreases |a|
  {
    var t := [c] + b;
    assert a + [c] + b == a + t;
    if a == [] {
      assert t[1..] == b;
    } else if IsSpace(a[0]) {
      TrimLeftConcat(a, t);
      assert TrimLeft(a) == TrimLeft(a[1..]);
      assert TrimLeft(a) + [c] + b == TrimLeft(a) + t;
      CollapseAround(TrimLeft(a), c, b);
    } else {
      assert (a + t)[1..] == a[1..] + t;
      assert a[1..] + [c] + b == a[1..] + t;
      CollapseAround(a[1..], c, b);
    }
  }

  /** A run of whitespace on its own becomes one space. */
  lemma CollapseBlank(s: string)
    requires s != [] && AllSpace(s)
    ensures CollapseSpaces(s) == " "
  {
    LStripCutsLeadingSpace(s);
  }

  /** The `shanty_name.lower()`, the two substitutions and the final `strip()`. */
  function Simplify(title: string): string
  {
    Strip(CollapseSpaces(KeepWordAndSpace(Lower(title))))
  }

  /** Every simplified title is a simple name. */
  lemma SimplifyIsSimple(title: string)
    ensures SimpleName(Simplify(title))
  {
    var k := KeepWordAndSpace(Lower(title));
    KeptCharacters(Lower(title));
    var c := CollapseSpaces(k);
    CollapsedShape(k);
    CollapseKeepsClasses(k);
    StripIsCore(c);
    SliceIsSimple(c, |c| - |TrimLeft(c)|, Strip(c));
  }

  lemma SliceIsSimple(c: string, a: nat, r: string)
    requires WordOrSpace(c) && NoUpper(c) && SpacesAreBlanks(c) && NoDoubleBlank(c)
    requires a + |r| <= |c| && r == c[a..a + |r|]
    requires Trimmed(r)
    ensures SimpleName(r)
  {
    forall i | 0 <= i < |r| ensures (IsWord(r[i]) && !IsUpper(r[i])) || r[i] == ' ' {
      assert r[i] == c[a + i];
    }
    forall i | 0 < i < |r| ensures !(r[i - 1] == ' ' && r[i] == ' ') {
      assert r[i - 1] == c[a + i - 1] && r[i] == c[a + i];
    }
  }

  /** A title that is already simplified is left as it is. */
  lemma SimplifyKeepsSimpleNames(s: string)
    requires SimpleName(s)
    ensures Simplify(s) == s
  {
    assert NoUpper(s);
    LowerOfLowercase(s);
    assert WordOrSpace(s);
    KeptCharacters(s);
    assert SpacesAreBlanks(s);
    CollapseKeepsSingleSpaces(s);
    StripOfStripped(s);
  }

  lemma {:induction false} CollapseKeepsSingleSpaces(s: string)
    requires SpacesAreBlanks(s) && NoDoubleBlank(s)
    ensures CollapseSpaces(s) == s
    decreases |s|
  {
    if s != [] {
      var tail := s[1..];
      TailKeepsBlanks(s);
      CollapseKeepsSingleSpaces(tail);
      if IsSpace(s[0]) {
        NoSpaceAfterBlank(s);
        assert TrimLeft(tail) == tail;
      }
      assert s == [s[0]] + tail;
    }
  }

  lemma TailKeepsBlanks(s: string)
    requires s != [] && SpacesAreBlanks(s) && NoDoubleBlank(s)
    ensures SpacesAreBlanks(s[1..]) && NoDoubleBlank(s[1..])
  {
    forall i | 0 <= i < |s| - 1 ensures s[1..][i] == s[i + 1] {
    }
  }

  lemma NoSpaceAfterBlank(s: string)
    requires s != [] && SpacesAreBlanks(s) && NoDoubleBlank(s) && IsSpace(s[0])
    ensures s[0] == ' '
    ensures s[1..] == [] || !IsSpace(s[1..][0])
  {
    if |s| > 1 {
      assert s[1..][0] == s[1];
      assert !(s[0] == ' ' && s[1] == ' ');
    }
  }

  /** Simplifying twice gives the same key as simplifying once. */
  lemma SimplifyIdempotent(title: string)
    ensures Simplify(Simplify(title)) == Simplify(title)
  {
    SimplifyIsSimple(title);
    SimplifyKeepsSimpleNames(Simplify(title));
  }

  /**
   * A title without whitespace simplifies to its lower-cased characters with
   * everything but word characters dropped, in their original order.
   */
  lemma SimplifyWord(title: string)
    requires NoSpace(title)
    ensures Simplify(title) == KeepWordAndSpace(Lower(title))
  {
    var l := Lower(title);
    assert NoSpace(l) by {
      forall i | 0 <= i < |l| ensures !IsSpace(l[i]) {
        assert l[i] == ToLower(title[i]);
      }
    }
    var k := KeepWordAndSpace(l);
    KeepNoSpace(l);
    CollapseKeepsSingleSpaces(k);
    StripOfStripped(k);
  }

  /** Two punctuation marks after two runs of kept characters are dropped, and nothing else is. */
  lemma DropTwo(a: string, p: char, b: string, q: char)
    requires WordOrSpace(a) && WordOrSpace(b)
    requires !IsWord(p) && !IsSpace(p) && !IsWord(q) && !IsSpace(q)
    ensures KeepWordAndSpace(a + [p] + b + [q]) == a + b
  {
    KeptCharacters(a);
    KeptCharacters(b);
    KeepOne(p);
    KeepOne(q);
    KeepConcat(a + [p] + b, [q]);
    KeepConcat(a + [p], b);
    KeepConcat(a, [p]);
  }

  /** A run of whitespace after a part that does not end in whitespace becomes one space. */
  lemma CollapseTrailingRun(a: string, s: string)
    requires s != [] && AllSpace(s)
    requires a == [] || !IsSpace(a[|a| - 1])
    ensures CollapseSpaces(a + s) == CollapseSpaces(a) + " "
  {
    CollapseBlank(s);
    if a == [] {
      assert a + s == s;
    } else {
      var front, c := a[..|a| - 1], a[|a| - 1];
      assert a + s == front + [c] + s;
      CollapseAround(front, c, s);
      CollapseAround(front, c, []);
      assert front + [c] + [] == a;
    }
  }

  /** A part that starts with a character that is not whitespace collapses on its own. */
  lemma CollapseLeadingWord(x: string, b: string)
    requires b != [] && !IsSpace(b[0])
    ensures CollapseSpaces(x + b) == CollapseSpaces(x) + CollapseSpaces(b)
  {
    var c, rest := b[0], b[1..];
    assert x + b == x + [c] + rest;
    assert b == [] + [c] + rest;
    CollapseAround(x, c, rest);
    CollapseAround([], c, rest);
  }

  /**
   * A run of whitespace between a part that does not end in whitespace and
   * one that does not start with it becomes one space.
   */
  lemma CollapseBetween(a: string, s: string, b: string)
    requires s != [] && AllSpace(s)
    requires a == [] || !IsSpace(a[|a| - 1])
    requires b != [] && !IsSpace(b[0])
    ensures CollapseSpaces(a + s + b) == CollapseSpaces(a) + " " + CollapseSpaces(b)
  {
    CollapseLeadingWord(a + s, b);
    CollapseTrailingRun(a, s);
  }

  /** A one-word title with two punctuation marks, as in "Billy-Boy!": only the marks go. */
  lemma SimplifyDropsTwoMarks(title: string, a: string, p: char, b: string, q: char)
    requires NoSpace(title) && Lower(title) == a + [p] + b + [q]
    requires WordOrSpace(a) && WordOrSpace(b)
    requires !IsWord(p) && !IsSpace(p) && !IsWord(q) && !IsSpace(q)
    ensures Simplify(title) == a + b
  {
    SimplifyWord(title);
    DropTwo(a, p, b, q);
  }

  /** Punctuation inside a title disappears and capitals are lowered: "Billy-Boy!" is matched as "billyboy". */
  lemma SimplifyDropsPunctuation()
    ensures Simplify("Billy-Boy!") == "billyboy"
  {
    assert NoSpace("Billy-Boy!");
    assert Lower("Billy-Boy!") == "billy" + ['-'] + "boy" + ['!'];
    assert WordOrSpace("billy") && WordOrSpace("boy");
    SimplifyDropsTwoMarks("Billy-Boy!", "billy", '-', "boy", '!');
  }

  /** Three words separated by runs of whitespace collapse to the words separated by single spaces. */
  lemma CollapseThreeWords(a: string, s: string, b: string, u: string, c: string)
    requires a != [] && b != [] && c != [] && s != [] && u != []
    requires NoSpace(a) && NoSpace(b) && NoSpace(c) && AllSpace(s) && AllSpace(u)
    ensures CollapseSpaces(a + s + b + u + c) == a + " " + b + " " + c
  {
    CollapseKeepsSingleSpaces(a);
    CollapseKeepsSingleSpaces(b);
    CollapseKeepsSingleSpaces(c);
    CollapseBetween(b, u, c);
    assert a + s + b + u + c == a + s + (b + u + c);
    CollapseBetween(a, s, b + u + c);
  }

  /** Three words separated by runs of whitespace, as in "Roll  the\tMan": each run becomes one space. */
  lemma SimplifyThreeWords(title: string, a: string, s: string, b: string, u: string, c: string)
    requires Lower(title) == a + s + b + u + c && WordOrSpace(Lower(title))
    requires a != [] && b != [] && c != [] && s != [] && u != []
    requires NoSpace(a) && NoSpace(b) && NoSpace(c) && AllSpace(s) && AllSpace(u)
    ensures Simplify(title) == a + " " + b + " " + c
  {
    KeptCharacters(Lower(title));
    CollapseThreeWords(a, s, b, u, c);
    var r := a + " " + b + " " + c;
    assert r[0] == a[0] && r[|r| - 1] == c[|c| - 1];
    StripOfStripped(r);
  }

  /** Runs of whitespace inside a title become single spaces: "Roll  the\tMan" is matched as "roll the man". */
  lemma SimplifyCollapsesSpaces(title: string)
    requires title == "Roll  the\tMan"
    ensures Simplify(title) == "roll the man"
  {
    var a, s, b, u, c := RollTheManParts(title);
    SimplifyThreeWords(title, a, s, b, u, c);
  }

  lemma RollTheManParts(title: string) returns (a: string, s: string, b: string, u: string, c: string)
    requires title == "Roll  the\tMan"
    ensures Lower(title) == a + s + b + u + c && WordOrSpace(Lower(title))
    ensures a != [] && b != [] && c != [] && s != [] && u != []
    ensures NoSpace(a) && NoSpace(b) && NoSpace(c) && AllSpace(s) && AllSpace(u)
    ensures a + " " + b + " " + c == "roll the man"
  {
    LowerRollTheMan(title);
    a, s, b, u, c := "roll", "  ", "the", "\t", "man";
    assert "roll  the\tman" == a + s + b + u + c;
  }

  lemma LowerRollTheMan(title: string)
    requires title == "Roll  the\tMan"
    ensures Lower(title) == "roll  the\tman" && WordOrSpace("roll  the\tman")
  {
  }

  // ---------------------------------------------------------------------
  // MIDI file names
  // ---------------------------------------------------------------------

  /** `s.endswith(t)`. */
  predicate EndsWith(s: string, t: string)
  {
    |t| <= |s| && s[|s| - |t|..] == t
  }

  /** `f.endswith(('.midi', '.mid'))`: the file listing filter. */
  predicate IsMidiFile(f: string)
  {
    EndsWith(f, ".midi") || EndsWith(f, ".mid")
  }

  /**
   * `f.startswith('music') and f[5].isdigit()`. The index test is guarded by
   * `|f| > 5`; `NumberedMusicTestInRange` shows that the guard never decides
   * the outcome for a listed MIDI file, so the source never indexes past the end.
   */
  predicate IsNumberedMusicFile(f: string)
  {
    IsPrefix("music", f) && |f| > 5 && IsDigit(f[5])
  }

  /** A MIDI file name that starts with `music` has a sixth character. */
  lemma NumberedMusicTestInRange(f: string)
    requires IsMidiFile(f) && IsPrefix("music", f)
    ensures |f| > 5
  {
    assert f[..5] == "music";
    var d := if EndsWith(f, ".mid") then |f| - 4 else |f| - 5;
    assert f[d] == '.' by {
      if EndsWith(f, ".mid") {
        assert f[|f| - 4..][0] == '.';
      } else {
        assert f[|f| - 5..][0] == '.';
      }
    }
    forall i | 0 <= i < 5 ensures f[i] != '.' {
      assert f[i] == "music"[i];
    }
  }

  /** All characters are dots. */
  predicate AllDots(s: string)
  {
    forall i :: 0 <= i < |s| ==> s[i] == '.'
  }

  /** `p.rfind('.')`: the index of the last dot, or -1. */
  function LastDot(p: string): (d: int)
    ensures -1 <= d < |p|
    ensures d >= 0 ==> p[d] == '.'
    ensures forall i :: d < i < |p| ==> p[i] != '.'
  {
    if p == [] then -1
    else if p[|p| - 1] == '.' then |p| - 1
    else LastDot(p[..|p| - 1])
  }

  /**
   * `os.path.splitext(p)[0]` for a name without a directory part: the text
   * before the last dot, unless nothing but dots precedes that dot (a
   * leading-dot name has no extension).
   */
  function Root(p: string): (r: string)
    ensures IsPrefix(r, p)
  {
    var d := LastDot(p);
    if d >= 0 && !AllDots(p[..d]) then p[..d] else p
  }

  /**
   * A MIDI file name whose stem holds something other than dots loses
   * exactly its `.mid` or `.midi` extension.
   */
  lemma RootOfMidiFile(stem: string, ext: string)
    requires ext == ".mid" || ext == ".midi"
    requires !AllDots(stem)
    ensures Root(stem + ext) == stem
  {
    var p := stem + ext;
    assert p[|stem|] == '.';
    forall i | |stem| < i < |p| ensures p[i] != '.' {
      assert p[i] == ext[i - |stem|];
    }
    LastDotIs(p, |stem|);
    assert p[..|stem|] == stem;
  }

  lemma LastDotIs(p: string, d: nat)
    requires d < |p| && p[d] == '.'
    requires forall i :: d < i < |p| ==> p[i] != '.'
    ensures LastDot(p) == d
  {
  }

  /** `re.sub(r'^[0-9]+', '', s)`: drops the run of digits at the start. */
  function StripLeadingDigits(s: string): (r: string)
    ensures |r| <= |s|
  {
    if s != [] && IsDigit(s[0]) then StripLeadingDigits(s[1..]) else s
  }

  /**
   * What remains is the longest suffix of s that does not start with a
   * digit; everything dropped is a digit.
   */
  lemma {:induction false} LeadingDigitsDropped(s: string)
    ensures var r := StripLeadingDigits(s);
      && r == s[|s| - |r|..]
      && (r == [] || !IsDigit(r[0]))
      && (forall i :: 0 <= i < |s| - |r| ==> IsDigit(s[i]))
    decreases |s|
  {
    if s != [] && IsDigit(s[0]) {
      LeadingDigitsDropped(s[1..]);
      var r := StripLeadingDigits(s);
      assert s[1..][|s| - 1 - |r|..] == s[|s| - |r|..];
      forall i | 0 <= i < |s| - |r| ensures IsDigit(s[i]) {
        if i > 0 {
          assert s[i] == s[1..][i - 1];
        }
      }
    }
  }

  /** Stripping the leading digits twice is the same as once. */
  lemma StripLeadingDigitsIdempotent(s: string)
    ensures StripLeadingDigits(StripLeadingDigits(s)) == StripLeadingDigits(s)
  {
    LeadingDigitsDropped(s);
  }

  /** The base name a MIDI file is matched by: extension and leading track number removed. */
  function CleanBase(f: string): string
  {
    StripLeadingDigits(Root(f))
  }

  /** `01billy.mid` is matched as `billy`. */
  lemma CleanBaseOfNumberedName(number: string, name: string, ext: string)
    requires number != [] && forall i :: 0 <= i < |number| ==> IsDigit(number[i])
    requires name != [] && !IsDigit(name[0]) && !AllDots(number + name)
    requires ext == ".mid" || ext == ".midi"
    ensures CleanBase(number + name + ext) == name
  {
    assert number + name + ext == (number + name) + ext;
    RootOfMidiFile(number + name, ext);
    DigitsThenName(number, name);
  }

  lemma {:induction false} DigitsThenName(number: string, name: string)
    requires forall i :: 0 <= i < |number| ==> IsDigit(number[i])
    requires name != [] && !IsDigit(name[0])
    ensures StripLeadingDigits(number + name) == name
  {
    if number != [] {
      assert (number + name)[1..] == number[1..] + name;
      DigitsThenName(number[1..], name);
    } else {
      assert number + name == name;
    }
  }

  // ---------------------------------------------------------------------
  // The index headings and rows
  // ---------------------------------------------------------------------

  /** `any(k in text.lower() for k in ['shanties', 'shanty'])`. */
  predicate IsTypeHeading(text: string)
  {
    var t := Lower(text);
    Contains(t, "shanties") || Contains(t, "shanty")
  }

  /**
   * The test ignores case, and text around a type heading keeps it one:
   * whatever surrounds a heading that names shanties still names them.
   */
  lemma TypeHeadingRobust(a: string, text: string, b: string)
    ensures IsTypeHeading(Lower(text)) == IsTypeHeading(text)
    ensures IsTypeHeading(text) ==> IsTypeHeading(a + text + b)
  {
    LowerOfLowercase(Lower(text));
    LowerConcat(a, text);
    LowerConcat(a + text, b);
    var t := Lower(text);
    if Contains(t, "shanties") {
      ContainsExtend(Lower(a), t, Lower(b), "shanties");
    }
    if Contains(t, "shanty") {
      ContainsExtend(Lower(a), t, Lower(b), "shanty");
    }
  }

  /** No character is a colon. */
  predicate NoColon(s: string)
  {
    forall i :: 0 <= i < |s| ==> s[i] != ':'
  }

  /** `s.replace(':', '')`. */
  function RemoveColons(s: string): string
  {
    if s == [] then []
    else
      var rest := RemoveColons(s[1..]);
      if s[0] == ':' then rest else [s[0]] + rest
  }

  /** No colon is left, and a string without colons is unchanged. */
  lemma {:induction false} ColonsRemoved(s: string)
    ensures NoColon(RemoveColons(s))
    ensures NoColon(s) ==> RemoveColons(s) == s
    decreases |s|
  {
    if s != [] {
      ColonsRemoved(s[1..]);
      var rest := RemoveColons(s[1..]);
      forall i | 0 < i <= |rest| ensures ([s[0]] + rest)[i] == rest[i - 1] {
      }
      if NoColon(s) {
        assert s[0] != ':' && NoColon(s[1..]) by {
          forall i | 0 <= i < |s| - 1 ensures s[1..][i] == s[i + 1] {
          }
        }
        assert s == [s[0]] + s[1..];
      }
    }
  }

  /** One character survives exactly when it is not a colon. */
  lemma RemoveColonsOne(c: char)
    ensures RemoveColons([c]) == if c == ':' then [] else [c]
  {
    assert [c][1..] == [];
  }

  /** `replace` works character by character: every other character is kept, in order. */
  lemma {:induction false} RemoveColonsConcat(a: string, b: string)
    ensures RemoveColons(a + b) == RemoveColons(a) + RemoveColons(b)
    decreases |a|
  {
    if a != [] {
      var s := a + b;
      assert s[0] == a[0] && s[1..] == a[1..] + b;
      RemoveColonsConcat(a[1..], b);
      var head := if a[0] == ':' then [] else [a[0]];
      assert RemoveColons(s) == head + RemoveColons(a[1..] + b);
      assert RemoveColons(a) == head + RemoveColons(a[1..]);
    } else {
      assert a + b == b;
    }
  }

  /** `text.replace(':', '').strip()`: the type name of a heading. */
  function CleanTypeName(text: string): string
  {
    Strip(RemoveColons(text))
  }

  /**
   * The type name holds no colon and no whitespace at either end, and
   * cleaning it again changes nothing.
   */
  lemma CleanTypeNameIsClean(text: string)
    ensures var r := CleanTypeName(text);
      NoColon(r) && Trimmed(r) && CleanTypeName(r) == r
  {
    CleanTypeNameTrimmed(text);
    CleanTypeNameHasNoColon(text);
    CleanNameFixed(CleanTypeName(text));
  }

  lemma CleanTypeNameTrimmed(text: string)
    ensures Trimmed(CleanTypeName(text))
  {
    StripIsCore(RemoveColons(text));
  }

  lemma CleanTypeNameHasNoColon(text: string)
    ensures NoColon(CleanTypeName(text))
  {
    var c := RemoveColons(text);
    ColonsRemoved(text);
    StripIsCore(c);
    NoColonSlice(c, |c| - |TrimLeft(c)|, Strip(c));
  }

  lemma CleanNameFixed(r: string)
    requires NoColon(r) && Trimmed(r)
    ensures CleanTypeName(r) == r
  {
    ColonsRemoved(r);
    StripOfStripped(r);
  }

  lemma NoColonSlice(c: string, a: nat, r: string)
    requires NoColon(c)
    requires a + |r| <= |c| && r == c[a..a + |r|]
    ensures NoColon(r)
  {
    forall i | 0 <= i < |r| ensures r[i] != ':' {
      assert r[i] == c[a + i];
    }
  }

  /** All characters are whitespace. */
  predicate AllSpace(s: string)
  {
    forall i :: 0 <= i < |s| ==> IsSpace(s[i])
  }

  /** No character is whitespace. */
  predicate NoSpace(s: string)
  {
    forall i :: 0 <= i < |s| ==> !IsSpace(s[i])
  }

  /** The longest prefix of s without whitespace. */
  function Word(s: string): (w: string)
    ensures |w| <= |s|
  {
    if s == [] || IsSpace(s[0]) then [] else [s[0]] + Word(s[1..])
  }

  /** The word is a prefix without whitespace, followed by whitespace or the end, and empty only before whitespace. */
  lemma {:induction false} WordIsFirstRun(s: string)
    ensures var w := Word(s);
      && IsPrefix(w, s) && NoSpace(w)
      && (|w| == |s| || IsSpace(s[|w|]))
      && (s != [] && !IsSpace(s[0]) ==> w != [])
    decreases |s|
  {
    if s != [] && !IsSpace(s[0]) {
      WordIsFirstRun(s[1..]);
      var w := Word(s[1..]);
      assert s == [s[0]] + s[1..];
      assert ([s[0]] + w) == s[..|w| + 1];
      forall i | 0 < i <= |w| ensures ([s[0]] + w)[i] == w[i - 1] {
      }
      if |w| + 1 < |s| {
        assert s[|w| + 1] == s[1..][|w|];
      }
    }
  }

  /**
   * `s.split()[0]`: the first run of non-whitespace characters, or None
   * when there is none (where the source raises IndexError).
   */
  function FirstToken(s: string): Option<string>
  {
    var t := TrimLeft(s);
    if t == [] then None else Some(Word(t))
  }

  /**
   * There is no token exactly when the text is all whitespace. Otherwise
   * the token is non-empty, holds no whitespace, is preceded only by
   * whitespace and is followed by whitespace or the end: the first
   * whitespace-separated field. Stripping the text first changes nothing.
   */
  lemma FirstTokenIsFirstField(s: string)
    ensures FirstToken(s).None? <==> AllSpace(s)
    ensures FirstToken(s).Some? ==>
      var w, a := FirstToken(s).value, |s| - |TrimLeft(s)|;
      && w != [] && NoSpace(w)
      && a + |w| <= |s| && s[a..a + |w|] == w
      && AllSpace(s[..a])
      && (a + |w| == |s| || IsSpace(s[a + |w|]))
    ensures FirstToken(Strip(s)) == FirstToken(s)
  {
    NoTokenIffBlank(s);
    if FirstToken(s).Some? {
      TokenIsField(s);
    }
    StripThenToken(s);
  }

  lemma NoTokenIffBlank(s: string)
    ensures FirstToken(s).None? <==> AllSpace(s)
  {
    var t := TrimLeft(s);
    LStripCutsLeadingSpace(s);
    if t != [] {
      assert t[0] == s[|s| - |t|];
    }
  }

  lemma TokenIsField(s: string)
    requires FirstToken(s).Some?
    ensures var w, a := FirstToken(s).value, |s| - |TrimLeft(s)|;
      && w != [] && NoSpace(w)
      && a + |w| <= |s| && s[a..a + |w|] == w
      && AllSpace(s[..a])
      && (a + |w| == |s| || IsSpace(s[a + |w|]))
  {
    var t := TrimLeft(s);
    var a := |s| - |t|;
    var w := Word(t);
    LStripCutsLeadingSpace(s);
    WordIsFirstRun(t);
    assert t == s[a..];
    assert s[a..a + |w|] == t[..|w|];
    if a + |w| < |s| {
      assert s[a + |w|] == t[|w|];
    }
  }

  lemma StripThenToken(s: string)
    ensures FirstToken(Strip(s)) == FirstToken(s)
  {
    var t := TrimLeft(s);
    var r := TrimRight(t);
    LStripCutsLeadingSpace(s);
    RStripCutsTrailingSpace(t);
    if t != [] {
      assert r != [] && r[0] == t[0];
      assert TrimLeft(r) == r;
      WordOfPrefix(t, r);
    } else {
      assert r == [];
    }
  }

  /** Cutting trailing whitespace off does not change the first word. */
  lemma {:induction false} WordOfPrefix(t: string, r: string)
    requires IsPrefix(r, t) && r != []
    requires forall i :: |r| <= i < |t| ==> IsSpace(t[i])
    requires !IsSpace(r[|r| - 1])
    ensures Word(r) == Word(t)
    decreases |r|
  {
    if !IsSpace(t[0]) {
      assert r[0] == t[0];
      if |r| > 1 {
        assert r[1..] == t[1..][..|r| - 1];
        WordOfPrefix(t[1..], r[1..]);
      } else {
        assert t[1..] == [] || IsSpace(t[1..][0]);
      }
    }
  }
}
