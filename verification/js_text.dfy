/**
 * The pieces of JavaScript string semantics the application relies on:
 * the `\s` and `\w` character classes of a regular expression (and the
 * white-space set of `String.prototype.trim`), `toLowerCase`, `trim`,
 * `includes`, `endsWith`, and a search for any of several alternatives
 * between `\b` word boundaries.
 */
module JsText {

  /** JavaScript white space and line terminators: the set matched by `\s`
      and removed by `trim`. */
  predicate IsSpace(c: char) {
    || c == '\t' || c == '\n' || c == '\U{000B}' || c == '\U{000C}' || c == '\r'
    || c == ' ' || c == '\U{00A0}' || c == '\U{1680}'
    || ('\U{2000}' <= c <= '\U{200A}')
    || c == '\U{2028}' || c == '\U{2029}' || c == '\U{202F}' || c == '\U{205F}'
    || c == '\U{3000}' || c == '\U{FEFF}'
  }

  /** The ASCII-only word class `\w` of a JavaScript regular expression
      without the `u` flag. */
  predicate IsWordChar(c: char) {
    ('a' <= c <= 'z') || ('A' <= c <= 'Z') || ('0' <= c <= '9') || c == '_'
  }

  predicate IsAsciiLetter(c: char) {
    ('a' <= c <= 'z') || ('A' <= c <= 'Z')
  }

  predicate AllSpace(s: string) {
    forall i :: 0 <= i < |s| ==> IsSpace(s[i])
  }

  predicate HasSpace(s: string) {
    exists i :: 0 <= i < |s| && IsSpace(s[i])
  }

  /** Capital letters whose lower-case form is the code point 32 above:
      ASCII A-Z and the Latin-1 capitals U+00C0..U+00DE except U+00D7. */
  predicate IsShiftedCapital(c: char) {
    ('A' <= c <= 'Z') || ('\U{00C0}' <= c <= '\U{00DE}' && c != '\U{00D7}')
  }

  function LowerChar(c: char): (r: char)
    ensures IsShiftedCapital(c) ==> r as int == c as int + 32
    ensures !IsShiftedCapital(c) ==> r == c
  {
    if IsShiftedCapital(c) then (c as int + 32) as char else c
  }

  /** `toLowerCase`, exact on ASCII and Latin-1. */
  function Lower(s: string): string {
    seq(|s|, i requires 0 <= i < |s| => LowerChar(s[i]))
  }

  /** The case-insensitive comparison a regular expression with the `i` flag
      performs: only ASCII letters fold. */
  function AsciiLowerChar(c: char): char {
    if 'A' <= c <= 'Z' then (c as int + 32) as char else c
  }

  function AsciiLower(s: string): string {
    seq(|s|, i requires 0 <= i < |s| => AsciiLowerChar(s[i]))
  }

  lemma LowerIdempotent(s: string)
    ensures Lower(Lower(s)) == Lower(s)
    ensures |Lower(s)| == |s|
  {
    var l := Lower(s);
    forall i | 0 <= i < |s|
      ensures Lower(l)[i] == l[i]
    {
      assert !IsShiftedCapital(l[i]);
    }
  }

  lemma LowerNonEmpty(s: string)
    ensures Lower(s) != [] <==> s != []
  {
    assert |Lower(s)| == |s|;
  }

  // ---------------------------------------------------------------------
  // trim

  /** The first index at or after `i` that does not hold white space. */
  function SpaceEnd(s: string, i: nat): (n: nat)
    requires i <= |s|
    ensures i <= n <= |s| && AllSpace(s[i..n])
    ensures n == |s| || !IsSpace(s[n])
    decreases |s| - i
  {
    if i < |s| && IsSpace(s[i]) then
      var n := SpaceEnd(s, i + 1);
      assert forall k :: 0 < k < n - i ==> s[i..n][k] == s[i + 1..n][k - 1];
      n
    else i
  }

  /** The last index at or before `j` that follows a character other than
      white space. */
  function SpaceStart(s: string, j: nat): (n: nat)
    requires j <= |s|
    ensures n <= j && AllSpace(s[n..j])
    ensures n == 0 || !IsSpace(s[n - 1])
  {
    if j > 0 && IsSpace(s[j - 1]) then
      var n := SpaceStart(s, j - 1);
      assert forall k :: 0 <= k < j - 1 - n ==> s[n..j][k] == s[n..j - 1][k];
      n
    else j
  }

  function TrimStart(s: string): (r: string)
    ensures |r| <= |s| && r == s[|s| - |r|..]
    ensures AllSpace(s[..|s| - |r|])
    ensures r == [] || !IsSpace(r[0])
  {
    s[SpaceEnd(s, 0)..]
  }

  function TrimEnd(s: string): (r: string)
    ensures |r| <= |s| && r == s[..|r|]
    ensures AllSpace(s[|r|..])
    ensures r == [] || !IsSpace(r[|r| - 1])
  {
    s[..SpaceStart(s, |s|)]
  }

  /** `String.prototype.trim`: white space removed from both ends. */
  function Trim(s: string): (r: string)
    ensures |r| <= |s|
    ensures r == [] || (!IsSpace(r[0]) && !IsSpace(r[|r| - 1]))
  {
    TrimEnd(TrimStart(s))
  }

  /** The trimmed text is the infix of `s` that starts after the leading
      white space and is followed only by white space. */
  lemma {:induction false} TrimInfix(s: string)
    ensures var lo := |s| - |TrimStart(s)|;
            && lo + |Trim(s)| <= |s|
            && Trim(s) == s[lo..lo + |Trim(s)|]
            && AllSpace(s[..lo]) && AllSpace(s[lo + |Trim(s)|..])
  {
    var t := TrimStart(s);
    InfixBetweenSpace(s, t, TrimEnd(t));
  }

  /** A suffix `t` of `s` after white space, and a prefix `r` of `t` before
      white space, make `r` an infix of `s` with white space on both sides. */
  lemma InfixBetweenSpace(s: string, t: string, r: string)
    requires |t| <= |s| && t == s[|s| - |t|..] && AllSpace(s[..|s| - |t|])
    requires |r| <= |t| && r == t[..|r|] && AllSpace(t[|r|..])
    ensures var lo := |s| - |t|;
            && r == s[lo..lo + |r|]
            && AllSpace(s[lo + |r|..])
  {
    var lo := |s| - |t|;
    assert s[lo..lo + |r|] == t[..|r|];
    assert s[lo + |r|..] == t[|r|..];
  }

  /** Trimming twice is trimming once. */
  lemma TrimIdempotent(s: string)
    ensures Trim(Trim(s)) == Trim(s)
  {
    var r := Trim(s);
    assert SpaceEnd(r, 0) == 0;
    assert TrimStart(r) == r;
    assert SpaceStart(r, |r|) == |r|;
    assert TrimEnd(r) == r;
  }

  /** Trimming leaves nothing exactly when the text is all white space. */
  lemma TrimEmptyIff(s: string)
    ensures Trim(s) == [] <==> AllSpace(s)
  {
    var t := TrimStart(s);
    assert s[..|s| - |t|] + t == s;
    if t != [] {
      assert !AllSpace(t) && !AllSpace(s) by {
        assert s[|s| - |t|] == t[0];
      }
    }
  }

  // ---------------------------------------------------------------------
  // includes, endsWith

  predicate StartsWith(s: string, w: string) {
    |w| <= |s| && s[..|w|] == w
  }

  /** `s.includes(w)`. */
  predicate Includes(s: string, w: string)
    decreases |s|
  {
    StartsWith(s, w) || (|s| > 0 && Includes(s[1..], w))
  }

  predicate OccursAt(s: string, w: string, i: int) {
    0 <= i && i + |w| <= |s| && s[i..i + |w|] == w
  }

  lemma {:induction false} IncludesIff(s: string, w: string)
    ensures Includes(s, w) <==> exists i :: OccursAt(s, w, i)
    decreases |s|
  {
    if StartsWith(s, w) {
      assert OccursAt(s, w, 0);
    } else if |s| > 0 {
      IncludesIff(s[1..], w);
      if Includes(s[1..], w) {
        var i :| OccursAt(s[1..], w, i);
        assert s[i + 1..i + 1 + |w|] == s[1..][i..i + |w|];
        assert OccursAt(s, w, i + 1);
      } else {
        forall i | 0 < i ensures !OccursAt(s, w, i) {
          if i + |w| <= |s| {
            assert s[1..][i - 1..i - 1 + |w|] == s[i..i + |w|];
            assert !OccursAt(s[1..], w, i - 1);
          }
        }
      }
    }
  }

  /** `w` is not found in `s` when it is longer than `s`, or when one of
      its characters does not occur in `s`. */
  lemma NotIncludes(s: string, w: string, j: int)
    requires |w| > |s| || (0 <= j < |w| && w[j] !in s)
    ensures !Includes(s, w)
  {
    IncludesIff(s, w);
    if |w| <= |s| {
      forall i | 0 <= i && i + |w| <= |s| ensures !OccursAt(s, w, i) {
        assert s[i..i + |w|][j] == s[i + j];
      }
    }
  }

  /** `s.endsWith(w)`. */
  predicate EndsWith(s: string, w: string) {
    |w| <= |s| && s[|s| - |w|..] == w
  }

  // ---------------------------------------------------------------------
  // /\b(w1|w2|...)\b/ without flags

  /** Whether position `i` holds a `\w` character (positions outside the
      text never do). */
  predicate WordAt(s: string, i: int) {
    0 <= i < |s| && IsWordChar(s[i])
  }

  /** `\b` at position `p`: exactly one of the neighbours is a word character. */
  predicate BoundaryAt(s: string, p: int) {
    WordAt(s, p - 1) != WordAt(s, p)
  }

  /** Alternative `w` matches at `i`, with a word boundary on both sides. */
  predicate WordMatchAt(s: string, w: string, i: int) {
    OccursAt(s, w, i) && BoundaryAt(s, i) && BoundaryAt(s, i + |w|)
  }

  /** What `/\b(alts[0]|alts[1]|...)\b/.test(s)` decides. */
  ghost predicate MatchesWordRegex(s: string, alts: seq<string>) {
    exists i, k :: 0 <= k < |alts| && WordMatchAt(s, alts[k], i)
  }

  predicate AnyAltAt(s: string, alts: seq<string>, i: int)
    decreases |alts|
  {
    |alts| > 0 && (WordMatchAt(s, alts[0], i) || AnyAltAt(s, alts[1..], i))
  }

  /** A left-to-right scan over start positions, as the regular expression
      engine performs it. */
  predicate SearchWords(s: string, alts: seq<string>, i: nat)
    decreases |s| + 1 - i
  {
    i <= |s| && (AnyAltAt(s, alts, i) || SearchWords(s, alts, i + 1))
  }

  lemma {:induction false} AnyAltAtIff(s: string, alts: seq<string>, i: int)
    ensures AnyAltAt(s, alts, i) <==> exists k :: 0 <= k < |alts| && WordMatchAt(s, alts[k], i)
    decreases |alts|
  {
    if |alts| > 0 {
      AnyAltAtIff(s, alts[1..], i);
      if AnyAltAt(s, alts[1..], i) {
        var k :| 0 <= k < |alts[1..]| && WordMatchAt(s, alts[1..][k], i);
        assert WordMatchAt(s, alts[k + 1], i);
      }
      forall k | 0 < k < |alts| && WordMatchAt(s, alts[k], i)
        ensures AnyAltAt(s, alts[1..], i)
      {
        assert alts[1..][k - 1] == alts[k];
      }
    }
  }

  lemma {:induction false} SearchWordsIff(s: string, alts: seq<string>, i: nat)
    requires i <= |s| + 1
    ensures SearchWords(s, alts, i) <==>
            exists p, k :: i <= p <= |s| && 0 <= k < |alts| && WordMatchAt(s, alts[k], p)
    decreases |s| + 1 - i
  {
    if i <= |s| {
      AnyAltAtIff(s, alts, i);
      SearchWordsIff(s, alts, i + 1);
    }
  }

  /** A match can only start within the text, so the scan from 0 decides
      the regular expression exactly. */
  lemma SearchWordsDecides(s: string, alts: seq<string>)
    ensures SearchWords(s, alts, 0) <==> MatchesWordRegex(s, alts)
  {
    SearchWordsIff(s, alts, 0);
    if MatchesWordRegex(s, alts) {
      var i, k :| 0 <= k < |alts| && WordMatchAt(s, alts[k], i);
      assert 0 <= i <= |s|;
    }
  }
}
