/**
 * The string primitives the classifier relies on, over ASCII: Python's
 * `str.isspace`, `str.isdigit`, the `\w` class, `str.lower`, `str.strip`
 * and the substring test `t in s`.
 */
module Text {

  /** `str.isspace` on one character: space, tab to carriage return, and the four separators 28-31. */
  predicate IsSpace(c: char)
  {
    c == ' ' || 9 <= c as int <= 13 || 28 <= c as int <= 31
  }

  /** `str.isdigit` and the regex class `[0-9]`. */
  predicate IsDigit(c: char)
  {
    '0' <= c <= '9'
  }

  predicate IsUpper(c: char)
  {
    'A' <= c <= 'Z'
  }

  predicate IsLowerLetter(c: char)
  {
    'a' <= c <= 'z'
  }

  /** The regex class `\w`: letters, digits and the underscore. */
  predicate IsWord(c: char)
  {
    IsUpper(c) || IsLowerLetter(c) || IsDigit(c) || c == '_'
  }

  /** No character of s is an upper-case letter. */
  predicate NoUpper(s: string)
  {
    forall i :: 0 <= i < |s| ==> !IsUpper(s[i])
  }

  /** `str.lower` on one character: only A-Z change, each to its lower-case letter. */
  function ToLower(c: char): (d: char)
    ensures !IsUpper(d)
    ensures IsUpper(c) ==> IsLowerLetter(d) && d as int - c as int == 'a' as int - 'A' as int
    ensures !IsUpper(c) ==> d == c
    ensures IsWord(d) == IsWord(c) && IsSpace(d) == IsSpace(c)
  {
    if IsUpper(c) then (c as int + 32) as char else c
  }

  /** `str.lower`. */
  function Lower(s: string): (r: string)
    ensures |r| == |s| && NoUpper(r)
  {
    seq(|s|, i requires 0 <= i < |s| => ToLower(s[i]))
  }

  /** Lowering a string with no upper-case letter changes nothing, so lowering is idempotent. */
  lemma LowerOfLowercase(s: string)
    requires NoUpper(s)
    ensures Lower(s) == s
  {
  }

  /** Lowering works character by character, so it distributes over concatenation. */
  lemma LowerConcat(a: string, b: string)
    ensures Lower(a + b) == Lower(a) + Lower(b)
  {
  }

  /** `s.lstrip()`: drops the whitespace at the start of s (`LStripCutsLeadingSpace` says what remains). */
  function TrimLeft(s: string): (r: string)
    ensures |r| <= |s|
  {
    if s != [] && IsSpace(s[0]) then TrimLeft(s[1..]) else s
  }

  /**
   * The result of `lstrip` is the longest suffix of s that does not start
   * with whitespace: everything cut off is whitespace.
   */
  lemma {:induction false} LStripCutsLeadingSpace(s: string)
    ensures var r := TrimLeft(s);
      && r == s[|s| - |r|..]
      && (r == [] || !IsSpace(r[0]))
      && (forall i :: 0 <= i < |s| - |r| ==> IsSpace(s[i]))
    decreases |s|
  {
    if s != [] && IsSpace(s[0]) {
      LStripCutsLeadingSpace(s[1..]);
      var r := TrimLeft(s);
      assert s[1..][|s| - 1 - |r|..] == s[|s| - |r|..];
      forall i | 0 <= i < |s| - |r| ensures IsSpace(s[i]) {
        if i > 0 {
          assert s[i] == s[1..][i - 1];
        }
      }
    }
  }

  /** `s.rstrip()`: drops the whitespace at the end of s (`RStripCutsTrailingSpace` says what remains). */
  function TrimRight(s: string): (r: string)
    ensures |r| <= |s|
  {
    if s != [] && IsSpace(s[|s| - 1]) then TrimRight(s[..|s| - 1]) else s
  }

  /**
   * The result of `rstrip` is the longest prefix of s that does not end
   * with whitespace: everything cut off is whitespace.
   */
  lemma {:induction false} RStripCutsTrailingSpace(s: string)
    ensures var r := TrimRight(s);
      && r == s[..|r|]
      && (r == [] || !IsSpace(r[|r| - 1]))
      && (forall i :: |r| <= i < |s| ==> IsSpace(s[i]))
    decreases |s|
  {
    if s != [] && IsSpace(s[|s| - 1]) {
      var t := s[..|s| - 1];
      RStripCutsTrailingSpace(t);
      var r := TrimRight(s);
      assert t[..|r|] == s[..|r|];
      forall i | |r| <= i < |s| ensures IsSpace(s[i]) {
        if i < |s| - 1 {
          assert s[i] == t[i];
        }
      }
    }
  }

  /** `s.strip()`. */
  function Strip(s: string): string
  {
    TrimRight(TrimLeft(s))
  }

  /**
   * The stripped string is the slice of s between its leading and its
   * trailing whitespace: everything cut off is whitespace and the result
   * neither starts nor ends with it.
   */
  lemma StripIsCore(s: string)
    ensures var r, a := Strip(s), |s| - |TrimLeft(s)|;
      && (r == [] || (!IsSpace(r[0]) && !IsSpace(r[|r| - 1])))
      && 0 <= a <= a + |r| <= |s| && r == s[a..a + |r|]
      && (forall i :: 0 <= i < a ==> IsSpace(s[i]))
      && (forall i :: a + |r| <= i < |s| ==> IsSpace(s[i]))
  {
    var l := TrimLeft(s);
    var r := TrimRight(l);
    var a := |s| - |l|;
    assert Strip(s) == r;
    LStripCutsLeadingSpace(s);
    RStripCutsTrailingSpace(l);
    SliceOfSuffix(s, l, r, a);
    TrailingSpaces(s, l, r, a);
  }

  lemma SliceOfSuffix(s: string, l: string, r: string, a: nat)
    requires a + |l| == |s| && l == s[a..]
    requires |r| <= |l| && r == l[..|r|]
    requires l == [] || !IsSpace(l[0])
    ensures r == s[a..a + |r|]
    ensures r != [] ==> !IsSpace(r[0])
  {
    if r != [] {
      assert r[0] == l[0];
    }
  }

  lemma TrailingSpaces(s: string, l: string, r: string, a: nat)
    requires a + |l| == |s| && l == s[a..]
    requires |r| <= |l| && forall i :: |r| <= i < |l| ==> IsSpace(l[i])
    ensures forall i :: a + |r| <= i < |s| ==> IsSpace(s[i])
  {
    forall i | a + |r| <= i < |s| ensures IsSpace(s[i]) {
      assert s[i] == l[i - a];
    }
  }

  /** A string that neither starts nor ends with whitespace is its own strip. */
  lemma StripOfStripped(s: string)
    requires s == [] || (!IsSpace(s[0]) && !IsSpace(s[|s| - 1]))
    ensures Strip(s) == s
  {
  }

  /** `str.strip` is idempotent. */
  lemma StripIdempotent(s: string)
    ensures Strip(Strip(s)) == Strip(s)
  {
    StripIsCore(s);
    StripOfStripped(Strip(s));
  }

  /** `t` is a prefix of `s`. */
  predicate IsPrefix(t: string, s: string)
  {
    |t| <= |s| && s[..|t|] == t
  }

  /** `t` occurs in `s` at position i. */
  predicate OccursAt(t: string, s: string, i: int)
  {
    0 <= i && i + |t| <= |s| && s[i..i + |t|] == t
  }

  /** Python's `t in s` on strings: t occurs somewhere in s (the empty string occurs everywhere). */
  function Contains(s: string, t: string): (r: bool)
    ensures r <==> exists i :: OccursAt(t, s, i)
    decreases |s|
  {
    if IsPrefix(t, s) then
      assert OccursAt(t, s, 0);
      true
    else if s == [] then
      false
    else
      var r := Contains(s[1..], t);
      ContainsShift(s, t, r);
      r
  }

  lemma ContainsShift(s: string, t: string, r: bool)
    requires s != [] && !IsPrefix(t, s)
    requires r <==> exists i :: OccursAt(t, s[1..], i)
    ensures r <==> exists i :: OccursAt(t, s, i)
  {
    if r {
      var i :| OccursAt(t, s[1..], i);
      assert s[i + 1..i + 1 + |t|] == s[1..][i..i + |t|];
      assert OccursAt(t, s, i + 1);
    }
    if i :| OccursAt(t, s, i) {
      assert i != 0;
      assert s[1..][i - 1..i - 1 + |t|] == s[i..i + |t|];
      assert OccursAt(t, s[1..], i - 1);
    }
  }

  /** Whatever occurs in s occurs in any string that has s inside it. */
  lemma ContainsExtend(a: string, s: string, b: string, t: string)
    requires Contains(s, t)
    ensures Contains(a + s + b, t)
  {
    var i :| OccursAt(t, s, i);
    var w := a + s + b;
    assert w[|a| + i..|a| + i + |t|] == s[i..i + |t|];
    assert OccursAt(t, w, |a| + i);
  }
}
