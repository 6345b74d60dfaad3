/**
 * The `URL_REGEX` of the two smart analyzers,
 *   /^(https?:\/\/)?([\w.-]+)\.[a-z]{2,}(\/P*)?$/i,
 * where the path class P is `[\w\-._~:?#@!$&'()*+,;=\/]` in one version and
 * `[^\s]` in the other. `Matches` states what the expression accepts as a
 * split of the string into scheme, host, TLD and path; `IsUrl` decides it.
 * The `i` flag without `u` folds ASCII letters only.
 */
module UrlPattern {
  import opened JsText

  /** Which path class the expression uses. */
  datatype Flavour =
    | Strict  // `[\w\-._~:?#@!$&'()*+,;=\/]`
    | Loose   // `[^\s]`

  const HttpScheme: string := "http://"
  const HttpsScheme: string := "https://"

  /** `[\w.-]` */
  predicate HostChar(c: char) {
    IsWordChar(c) || c == '.' || c == '-'
  }

  predicate PathChar(f: Flavour, c: char) {
    match f
    case Strict => IsWordChar(c) || c in "-._~:?#@!$&'()*+,;=/"
    case Loose => !IsSpace(c)
  }

  predicate AllHost(s: string) {
    forall i :: 0 <= i < |s| ==> HostChar(s[i])
  }

  predicate AllLetters(s: string) {
    forall i :: 0 <= i < |s| ==> IsAsciiLetter(s[i])
  }

  predicate AllPath(f: Flavour, s: string) {
    forall i :: 0 <= i < |s| ==> PathChar(f, s[i])
  }

  /** `(https?:\/\/)?` matches `s[..k]`. */
  predicate SchemeAt(s: string, k: int) {
    || k == 0
    || (k == |HttpScheme| && |s| >= k && AsciiLower(s[..k]) == HttpScheme)
    || (k == |HttpsScheme| && |s| >= k && AsciiLower(s[..k]) == HttpsScheme)
  }

  /** One way the expression matches: scheme `s[..k]`, host `s[k..d]`, the
      dot `s[d]`, TLD `s[d+1..j]` of at least two letters, and either nothing
      or a slash followed by path characters from `j` on. */
  predicate SplitAt(f: Flavour, s: string, k: int, d: int, j: int) {
    && 0 <= k < d && d + 2 < j && j <= |s|
    && SchemeAt(s, k)
    && AllHost(s[k..d])
    && s[d] == '.'
    && AllLetters(s[d + 1..j])
    && (j == |s| || (s[j] == '/' && AllPath(f, s[j + 1..])))
  }

  /** `URL_REGEX.test(s)`. */
  ghost predicate Matches(f: Flavour, s: string) {
    exists k, d, j :: SplitAt(f, s, k, d, j)
  }

  /** The first `/` at or after `from`, or `|s|`. */
  function FirstSlash(s: string, from: nat): (r: nat)
    requires from <= |s|
    ensures from <= r <= |s|
    ensures forall i :: from <= i < r ==> s[i] != '/'
    ensures r < |s| ==> s[r] == '/'
    decreases |s| - from
  {
    if from == |s| || s[from] == '/' then from else FirstSlash(s, from + 1)
  }

  /** The last `.` in `s[lo..hi]`, or `lo - 1`. */
  function LastDot(s: string, lo: nat, hi: nat): (r: int)
    requires lo <= hi <= |s|
    ensures lo - 1 <= r < hi
    ensures r >= lo ==> s[r] == '.'
    ensures forall i :: r < i < hi ==> s[i] != '.'
    decreases hi
  {
    if hi == lo then lo - 1
    else if s[hi - 1] == '.' then hi - 1
    else LastDot(s, lo, hi - 1)
  }

  /** Host, TLD and path after a scheme of length `k`. Neither host nor TLD
      holds a slash, so the path starts at the first one; the TLD holds no
      dot, so it starts after the last dot before the path. */
  predicate MatchFrom(f: Flavour, s: string, k: nat) {
    && k <= |s|
    && var j := FirstSlash(s, k);
    var d := LastDot(s, k, j);
    && k < d && d + 2 < j
    && AllHost(s[k..d])
    && AllLetters(s[d + 1..j])
    && (j == |s| || AllPath(f, s[j + 1..]))
  }

  lemma MatchFromSound(f: Flavour, s: string, k: nat)
    requires k <= |s| && SchemeAt(s, k) && MatchFrom(f, s, k)
    ensures Matches(f, s)
  {
    var j := FirstSlash(s, k);
    assert SplitAt(f, s, k, LastDot(s, k, j), j);
  }

  lemma MatchFromComplete(f: Flavour, s: string, k: int, d: int, j: int)
    requires SplitAt(f, s, k, d, j)
    ensures MatchFrom(f, s, k)
  {
    forall i | k <= i < j ensures s[i] != '/' {
      if i < d {
        assert HostChar(s[k..d][i - k]);
      } else if i > d {
        assert IsAsciiLetter(s[d + 1..j][i - d - 1]);
      }
    }
    assert FirstSlash(s, k) == j;
    forall i | d < i < j ensures s[i] != '.' {
      assert IsAsciiLetter(s[d + 1..j][i - d - 1]);
    }
    assert LastDot(s, k, j) == d;
  }

  /** The expression matches iff it matches after one of the three scheme
      choices. */
  lemma SchemeChoices(f: Flavour, s: string)
    ensures Matches(f, s) <==>
      || MatchFrom(f, s, 0)
      || (SchemeAt(s, |HttpScheme|) && MatchFrom(f, s, |HttpScheme|))
      || (SchemeAt(s, |HttpsScheme|) && MatchFrom(f, s, |HttpsScheme|))
  {
    if MatchFrom(f, s, 0) {
      MatchFromSound(f, s, 0);
    } else if SchemeAt(s, |HttpScheme|) && MatchFrom(f, s, |HttpScheme|) {
      MatchFromSound(f, s, |HttpScheme|);
    } else if SchemeAt(s, |HttpsScheme|) && MatchFrom(f, s, |HttpsScheme|) {
      MatchFromSound(f, s, |HttpsScheme|);
    } else if Matches(f, s) {
      var k, d, j :| SplitAt(f, s, k, d, j);
      MatchFromComplete(f, s, k, d, j);
    }
  }

  /** `URL_REGEX.test(s)`, decided. */
  function IsUrl(f: Flavour, s: string): (r: bool)
    ensures r <==> Matches(f, s)
  {
    SchemeChoices(f, s);
    || MatchFrom(f, s, 0)
    || (SchemeAt(s, |HttpScheme|) && MatchFrom(f, s, |HttpScheme|))
    || (SchemeAt(s, |HttpsScheme|) && MatchFrom(f, s, |HttpsScheme|))
  }

  lemma SchemeNoSpace(s: string, k: int, i: int)
    requires SchemeAt(s, k) && 0 <= i < k
    ensures !IsSpace(s[i])
  {
    var c := AsciiLower(s[..k])[i];
    assert c == AsciiLowerChar(s[i]);
    assert c in HttpsScheme;
  }

  lemma HostNoSpace(s: string, lo: int, hi: int, i: int)
    requires 0 <= lo <= i < hi <= |s| && AllHost(s[lo..hi])
    ensures !IsSpace(s[i])
  {
    assert s[lo..hi][i - lo] == s[i];
  }

  lemma LettersNoSpace(s: string, lo: int, hi: int, i: int)
    requires 0 <= lo <= i < hi <= |s| && AllLetters(s[lo..hi])
    ensures !IsSpace(s[i])
  {
    assert s[lo..hi][i - lo] == s[i];
  }

  lemma PathNoSpace(f: Flavour, s: string, lo: int, i: int)
    requires 0 <= lo <= i < |s| && AllPath(f, s[lo..])
    ensures !IsSpace(s[i])
  {
    assert s[lo..][i - lo] == s[i];
  }

  /** A string either expression accepts holds no white space; in particular
      it holds no CR or LF. */
  lemma MatchesNoSpace(f: Flavour, s: string)
    requires Matches(f, s)
    ensures !HasSpace(s)
    ensures '\r' !in s && '\n' !in s
  {
    var k, d, j :| SplitAt(f, s, k, d, j);
    forall i | 0 <= i < |s| ensures !IsSpace(s[i]) {
      if i < k {
        SchemeNoSpace(s, k, i);
      } else if i < d {
        HostNoSpace(s, k, d, i);
      } else if d < i < j {
        LettersNoSpace(s, d + 1, j, i);
      } else if j < i {
        PathNoSpace(f, s, j + 1, i);
      }
    }
  }

  /** Every string the strict expression accepts the loose one accepts too. */
  lemma StrictImpliesLoose(s: string)
    requires Matches(Strict, s)
    ensures Matches(Loose, s)
  {
    var k, d, j :| SplitAt(Strict, s, k, d, j);
    MatchesNoSpace(Strict, s);
    assert SplitAt(Loose, s, k, d, j);
  }

  /** A bare domain is accepted. */
  lemma AcceptsBareDomain()
    ensures Matches(Strict, "example.com")
  {
    assert SplitAt(Strict, "example.com", 0, 7, 11);
  }

  /** The scheme is matched in either letter case, and a path may follow. */
  lemma AcceptsCapitalScheme()
    ensures Matches(Loose, "Https://news.example.org/a?b=1")
  {
    var u := "Https://news.example.org/a?b=1";
    assert u[..8] == "Https://";
    LowerCapitalHttps();
    assert SchemeAt(u, 8);
    assert AllHost(u[8..20]);
    assert u[20] == '.';
    assert AllLetters(u[21..24]);
    assert u[24] == '/';
    assert AllPath(Loose, u[25..]);
    assert SplitAt(Loose, u, 8, 20, 24);
  }

  lemma LowerCapitalHttps()
    ensures AsciiLower("Https://") == HttpsScheme
  {
    var p := AsciiLower("Https://");
    assert p[0] == 'h' by {
      assert 'H' as int == 72;
      assert 104 as char == 'h';
    }
  }

  /** A one-letter TLD is rejected. */
  lemma RejectsShortTld()
    ensures !Matches(Loose, "http://a.b")
  {
  }

  /** Text with a space is rejected. */
  lemma RejectsSpace()
    ensures !Matches(Loose, "hola mundo.com")
  {
    var w := "hola mundo.com";
    assert IsSpace(w[4]);
    if Matches(Loose, w) {
      MatchesNoSpace(Loose, w);
    }
  }
}
