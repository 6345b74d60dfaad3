/**
 * The evidence step of the multi-model analysis (text input only): the
 * hard-coded temporal rule about Piñera's death, the keyword classification
 * of fact-check ratings, and the resulting score adjustment and verdict
 * override. The fact-check request is an input: `None` when it threw,
 * `Some(claims)` when it answered.
 */
module Evidence {
  import opened Wrappers
  import opened JsText
  import opened Verdicts

  // ---------------------------------------------------------------------
  // Temporal rule

  const PineraName: string := "pi\U{00F1}era"
  const DeathWords: seq<string> := ["muri\U{00F3}", "falleci\U{00F3}", "muerte"]
  const RecentWords: seq<string> := ["ayer", "hoy", "esta semana", "hace poco", "reci\U{00E9}n"]

  /** The lower-cased text names Piñera, matches `\b(murió|falleció|muerte)\b`
      and matches `\b(ayer|hoy|esta semana|hace poco|recién)\b`. */
  predicate TemporalInconsistency(content: string) {
    var t := Lower(content);
    Includes(t, PineraName) && SearchWords(t, DeathWords, 0) && SearchWords(t, RecentWords, 0)
  }

  /** The rule stated with the regular expressions' own semantics: an
      occurrence of the name, and a `\b`-delimited occurrence of a word of
      each list, in the lower-cased text. */
  lemma TemporalInconsistencyIff(content: string)
    ensures TemporalInconsistency(content) <==>
            var t := Lower(content);
            && (exists i :: OccursAt(t, PineraName, i))
            && MatchesWordRegex(t, DeathWords)
            && MatchesWordRegex(t, RecentWords)
  {
    var t := Lower(content);
    IncludesIff(t, PineraName);
    SearchWordsDecides(t, DeathWords);
    SearchWordsDecides(t, RecentWords);
  }

  /** `\b` only sees ASCII word characters, so a word ending in an accented
      letter (such as "murió") matches only when an ASCII word character
      follows it directly: never before a space, a comma or the end. */
  lemma AccentedEndNeedsWordAfter(s: string, w: string, i: int)
    requires w != [] && !IsWordChar(w[|w| - 1])
    requires WordMatchAt(s, w, i)
    ensures i + |w| < |s| && IsWordChar(s[i + |w|])
  {
    assert s[i + |w| - 1] == w[|w| - 1];
  }

  const MurioAyer: string := "pi\U{00F1}era muri\U{00F3} ayer"

  lemma MurioAyerLower()
    ensures Lower(MurioAyer) == MurioAyer
  {
    var t := Lower(MurioAyer);
    forall i | 0 <= i < |MurioAyer| ensures t[i] == MurioAyer[i] {
      assert !IsShiftedCapital(MurioAyer[i]);
    }
  }

  lemma MurioAyerLetters(j: int)
    requires 0 <= j < |MurioAyer|
    ensures MurioAyer[j] != 'f'
    ensures MurioAyer[j] == 'm' ==> j == 7
  {
    assert j == 0 || j == 1 || j == 2 || j == 3 || j == 4 || j == 5 || j == 6 || j == 7 || j == 8
        || j == 9 || j == 10 || j == 11 || j == 12 || j == 13 || j == 14 || j == 15 || j == 16;
  }

  lemma NoDeathWordAt(i: int, k: int)
    requires 0 <= k < |DeathWords|
    ensures !WordMatchAt(MurioAyer, DeathWords[k], i)
  {
    var t := MurioAyer;
    var w := DeathWords[k];
    if OccursAt(t, w, i) {
      assert t[i] == w[0];
      MurioAyerLetters(i);
      assert !BoundaryAt(t, i + |w|);
    }
  }

  /** Hence "piñera murió ayer" does not trip the temporal rule: its only
      death word is "murió", followed by a space. */
  lemma MurioAyerNotFlagged()
    ensures !TemporalInconsistency(MurioAyer)
  {
    MurioAyerLower();
    TemporalInconsistencyIff(MurioAyer);
    forall i, k | 0 <= k < |DeathWords| ensures !WordMatchAt(MurioAyer, DeathWords[k], i) {
      NoDeathWordAt(i, k);
    }
  }

  // ---------------------------------------------------------------------
  // Fact-check ratings

  /** The first review's rating; an absent rating is the empty string. */
  datatype Review = Review(textualRating: string)

  datatype Claim = Claim(text: string, claimReview: seq<Review>)

  datatype Rating = SupportsFalse | SupportsTrue | Neutral

  const FalseKeywords: seq<string> :=
    ["false", "fake", "enga\U{00F1}oso", "misleading", "incorrecto", "no es cierto", "falso", "mentira"]
  const TrueKeywords: seq<string> := ["true", "verdad", "correct", "cierto", "verificado"]

  predicate IncludesAny(s: string, words: seq<string>) {
    exists k :: 0 <= k < |words| && Includes(s, words[k])
  }

  /** `(claim.claimReview?.[0]?.textualRating || '').toLowerCase()`. */
  function RatingText(c: Claim): string {
    Lower(if |c.claimReview| > 0 then c.claimReview[0].textualRating else "")
  }

  /** A false keyword wins over a true keyword. */
  function ClassifyRating(rating: string): (r: Rating)
    ensures r == SupportsFalse <==> IncludesAny(rating, FalseKeywords)
    ensures r == SupportsTrue <==> !IncludesAny(rating, FalseKeywords) && IncludesAny(rating, TrueKeywords)
  {
    if IncludesAny(rating, FalseKeywords) then SupportsFalse
    else if IncludesAny(rating, TrueKeywords) then SupportsTrue
    else Neutral
  }

  /** None of the false keywords occurs in "incorrect": the longer ones do
      not fit, and each shorter one has a letter "incorrect" lacks. */
  lemma IncorrectHasNoFalseKeyword(k: int)
    requires 0 <= k < |FalseKeywords|
    ensures !Includes("incorrect", FalseKeywords[k])
  {
    var s := "incorrect";
    if k == 0 || k == 1 || k == 6 {
      assert FalseKeywords[k][0] == 'f';
      NotIncludes(s, FalseKeywords[k], 0);
    } else if k == 2 {
      assert FalseKeywords[k][2] == 'g';
      NotIncludes(s, FalseKeywords[k], 2);
    } else if k == 7 {
      assert FalseKeywords[k][0] == 'm';
      NotIncludes(s, FalseKeywords[k], 0);
    } else {
      assert |FalseKeywords[k]| >= 10;
      NotIncludes(s, FalseKeywords[k], 0);
    }
  }

  /** "incorrect" counts as a true rating: it holds "correct" and none of
      the false keywords. */
  lemma IncorrectCountsAsTrue()
    ensures ClassifyRating("incorrect") == SupportsTrue
  {
    var s := "incorrect";
    forall k | 0 <= k < |FalseKeywords| ensures !Includes(s, FalseKeywords[k]) {
      IncorrectHasNoFalseKeyword(k);
    }
    assert OccursAt(s, TrueKeywords[2], 2);
    IncludesIff(s, TrueKeywords[2]);
  }

  /** "no es cierto" counts as a false rating although it holds the true
      keyword "cierto". */
  lemma NoEsCiertoCountsAsFalse()
    ensures ClassifyRating("no es cierto") == SupportsFalse
    ensures IncludesAny("no es cierto", TrueKeywords)
  {
    var s := "no es cierto";
    assert StartsWith(s, FalseKeywords[5]);
    assert OccursAt(s, TrueKeywords[3], 6);
    IncludesIff(s, TrueKeywords[3]);
  }

  function ClassifyClaim(c: Claim): Rating {
    ClassifyRating(RatingText(c))
  }

  datatype Counts = Counts(falseCount: nat, trueCount: nat)

  function CountRatings(claims: seq<Claim>): (n: Counts)
    ensures n.falseCount + n.trueCount <= |claims|
  {
    if claims == [] then Counts(0, 0)
    else
      var rest := CountRatings(claims[1..]);
      match ClassifyClaim(claims[0])
      case SupportsFalse => Counts(rest.falseCount + 1, rest.trueCount)
      case SupportsTrue => Counts(rest.falseCount, rest.trueCount + 1)
      case Neutral => rest
  }

  /** Counting is additive over concatenation, one claim at a time. */
  lemma {:induction false} CountRatingsAppend(a: seq<Claim>, b: seq<Claim>)
    ensures CountRatings(a + b).falseCount == CountRatings(a).falseCount + CountRatings(b).falseCount
    ensures CountRatings(a + b).trueCount == CountRatings(a).trueCount + CountRatings(b).trueCount
  {
    if a == [] {
      assert a + b == b;
    } else {
      assert (a + b)[0] == a[0];
      assert (a + b)[1..] == a[1..] + b;
      CountRatingsAppend(a[1..], b);
    }
  }

  /** The claim's own text is lower-cased but never consulted. */
  lemma {:induction false} ClaimTextIgnored(claims: seq<Claim>, texts: seq<string>)
    requires |texts| == |claims|
    ensures CountRatings(claims) ==
            CountRatings(seq(|claims|, i requires 0 <= i < |claims| => Claim(texts[i], claims[i].claimReview)))
  {
    var other := seq(|claims|, i requires 0 <= i < |claims| => Claim(texts[i], claims[i].claimReview));
    if claims != [] {
      assert other[1..] == seq(|claims[1..]|, i requires 0 <= i < |claims[1..]| =>
                                 Claim(texts[1..][i], claims[1..][i].claimReview));
      ClaimTextIgnored(claims[1..], texts[1..]);
      assert ClassifyClaim(other[0]) == ClassifyClaim(claims[0]);
    }
  }

  // ---------------------------------------------------------------------
  // Adjustment and override

  /** `factCheckAdjustment` and `factCheckOverride` after the evidence step. */
  datatype Assessment = Assessment(adjustment: real, override: Option<Verdict>)

  const NoEvidence: Assessment := Assessment(0.0, None)

  /** The evidence step given the temporal rule's outcome and the fact-check reply. */
  function Assess(temporalHit: bool, factCheck: Option<seq<Claim>>): (a: Assessment)
    ensures a.adjustment == 0.0 || a.adjustment == -0.5 || a.adjustment == -0.4 || a.adjustment == 0.2
    ensures a.override.Some? ==> a.override.value == Fake
    ensures a.override.Some? <==> a.adjustment < -0.3
    ensures temporalHit ==> a == Assessment(-0.5, Some(Fake))
    ensures factCheck.None? ==> a == (if temporalHit then Assessment(-0.5, Some(Fake)) else NoEvidence)
    ensures !temporalHit && factCheck.Some? ==>
              var n := CountRatings(factCheck.value);
              && (n.falseCount > 0 && n.falseCount >= n.trueCount ==> a == Assessment(-0.4, Some(Fake)))
              && (n.trueCount > n.falseCount ==> a == Assessment(0.2, None))
              && (n.falseCount == 0 && n.trueCount == 0 ==> a == NoEvidence)
  {
    var start := if temporalHit then Assessment(-0.5, Some(Fake)) else NoEvidence;
    match factCheck
    case None => start
    case Some(claims) =>
      if |claims| == 0 then start
      else
        var n := CountRatings(claims);
        if start.override.Some? then start
        else if n.falseCount > 0 && n.falseCount >= n.trueCount then Assessment(-0.4, Some(Fake))
        else if n.trueCount > 0 && n.trueCount > n.falseCount then Assessment(0.2, None)
        else if n.falseCount > 0 then Assessment(-0.3, None)
        else start
  }

  /** The whole evidence step: it runs only for non-empty text input. */
  function Gather(isText: bool, content: string, factCheck: Option<seq<Claim>>): (a: Assessment)
    ensures !isText || content == [] ==> a == NoEvidence
    ensures isText && TemporalInconsistency(content) ==> a == Assessment(-0.5, Some(Fake))
  {
    if isText && content != [] then Assess(TemporalInconsistency(content), factCheck)
    else NoEvidence
  }
}
