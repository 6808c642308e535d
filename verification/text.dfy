/** Strings as the gate sees them: ASCII lower-casing and substring search
    with the semantics of JavaScript's `String.prototype.indexOf`. */
module AsciiText {

  predicate IsAsciiUpper(c: char) {
    'A' <= c <= 'Z'
  }

  /** Lower-cases one character; only the ASCII letters A-Z change. */
  function LowerChar(c: char): (d: char)
    ensures !IsAsciiUpper(d)
    ensures IsAsciiUpper(c) ==> d as int == c as int + 32
    ensures !IsAsciiUpper(c) ==> d == c
  {
    if IsAsciiUpper(c) then (c as int + 32) as char else c
  }

  /** `s.toLowerCase()`, restricted to ASCII letters. */
  function Lower(s: string): (r: string)
    ensures |r| == |s|
    ensures forall i :: 0 <= i < |r| ==> !IsAsciiUpper(r[i])
  {
    seq(|s|, i requires 0 <= i < |s| => LowerChar(s[i]))
  }

  /** Two characters are the same letter, possibly in different ASCII case.
      Stated without `LowerChar`, so it serves as an independent reference. */
  predicate CharsEqualIgnoringCase(c: char, d: char) {
    || c == d
    || (IsAsciiUpper(c) && d as int == c as int + 32)
    || (IsAsciiUpper(d) && c as int == d as int + 32)
  }

  predicate EqualIgnoringCase(a: string, b: string) {
    |a| == |b| && forall i :: 0 <= i < |a| ==> CharsEqualIgnoringCase(a[i], b[i])
  }

  /** `needle` occurs in `haystack` starting at position `i`. */
  predicate OccursAt(haystack: string, needle: string, i: int) {
    0 <= i && i + |needle| <= |haystack| && haystack[i..i + |needle|] == needle
  }

  /** Substring containment: the reference meaning of a pattern match. */
  ghost predicate Contains(haystack: string, needle: string) {
    exists i :: OccursAt(haystack, needle, i)
  }

  /** `haystack.indexOf(needle)`: the first position where `needle` occurs,
      or -1 when it occurs nowhere. An empty needle is found at position 0. */
  function IndexOf(haystack: string, needle: string): (r: int)
    ensures r == -1 <==> !Contains(haystack, needle)
    ensures r != -1 ==> OccursAt(haystack, needle, r)
    ensures r != -1 ==> forall j :: 0 <= j < r ==> !OccursAt(haystack, needle, j)
  {
    IndexFrom(haystack, needle, 0)
  }

  /** The search of `IndexOf`, resumed at position `from`. */
  function IndexFrom(haystack: string, needle: string, from: nat): (r: int)
    ensures r == -1 <==> forall j :: from <= j ==> !OccursAt(haystack, needle, j)
    ensures r != -1 ==> from <= r && OccursAt(haystack, needle, r)
    ensures r != -1 ==> forall j :: from <= j < r ==> !OccursAt(haystack, needle, j)
    decreases |haystack| - from
  {
    if from + |needle| > |haystack| then -1
    else if OccursAt(haystack, needle, from) then from
    else IndexFrom(haystack, needle, from + 1)
  }

  /** Lower-casing changes a character only into the same letter in the
      other case, and leaves everything but ASCII capitals alone. */
  lemma LowerKeepsLetters(s: string)
    ensures forall i :: 0 <= i < |s| ==> CharsEqualIgnoringCase(Lower(s)[i], s[i])
    ensures forall i :: 0 <= i < |s| && !IsAsciiUpper(s[i]) ==> Lower(s)[i] == s[i]
  {
  }

  /** Lower-casing twice is lower-casing once. */
  lemma LowerIdempotent(s: string)
    ensures Lower(Lower(s)) == Lower(s)
  {
  }

  /** Two strings lower-case to the same string exactly when they differ only
      in the case of ASCII letters. */
  lemma LowerEqualIffEqualIgnoringCase(a: string, b: string)
    ensures Lower(a) == Lower(b) <==> EqualIgnoringCase(a, b)
  {
    if EqualIgnoringCase(a, b) {
      forall i | 0 <= i < |a|
        ensures Lower(a)[i] == Lower(b)[i]
      {
        assert CharsEqualIgnoringCase(a[i], b[i]);
      }
    }
    if Lower(a) == Lower(b) {
      forall i | 0 <= i < |a|
        ensures CharsEqualIgnoringCase(a[i], b[i])
      {
        assert Lower(a)[i] == LowerChar(a[i]) && Lower(b)[i] == LowerChar(b[i]);
      }
    }
  }

  /** The empty string occurs in every string, at position 0. */
  lemma ContainsEmpty(haystack: string)
    ensures Contains(haystack, "")
    ensures IndexOf(haystack, "") == 0
  {
    assert OccursAt(haystack, "", 0);
  }

  /** A string without ASCII capitals is its own lower-case form. */
  lemma LowerOfLowerCase(s: string)
    requires forall i :: 0 <= i < |s| ==> !IsAsciiUpper(s[i])
    ensures Lower(s) == s
  {
  }
}
