/**
 * The consensus step of the multi-model analysis: vote buckets, the average
 * confidence, the average score shifted by the evidence adjustment and
 * clamped to [0, 1], the verdict (override, then strict majority, then the
 * score tie-break) and the consensus confidence.
 */
module Consensus {
  import opened Wrappers
  import opened Verdicts
  import opened Evidence

  /** The fields of a per-model result the consensus reads. */
  datatype Vote = Vote(prediction: string, confidence: real, score: real)

  const FakeLabels: set<string> := {"fake", "false"}
  const RealLabels: set<string> := {"real", "true"}
  const UncertainLabels: set<string> := {"uncertain"}

  const TieThreshold: real := 0.5
  const OverrideFloor: real := 0.85

  /** `results.filter(r => labels.has(r.prediction)).length`. */
  function CountLabels(votes: seq<Vote>, labels: set<string>): (n: nat)
    ensures n <= |votes|
  {
    if votes == [] then 0
    else (if votes[0].prediction in labels then 1 else 0) + CountLabels(votes[1..], labels)
  }

  /** Counting with two disjoint label sets is counting with their union. */
  lemma {:induction false} CountDisjointUnion(votes: seq<Vote>, a: set<string>, b: set<string>)
    requires a !! b
    ensures CountLabels(votes, a) + CountLabels(votes, b) == CountLabels(votes, a + b)
  {
    if votes != [] {
      CountDisjointUnion(votes[1..], a, b);
    }
  }

  datatype Tally = Tally(fakeVotes: nat, realVotes: nat, uncertainVotes: nat)

  /** The three vote buckets; each vote falls in at most one of them. */
  function TallyVotes(votes: seq<Vote>): (t: Tally)
    ensures t.fakeVotes + t.realVotes + t.uncertainVotes <= |votes|
  {
    CountDisjointUnion(votes, FakeLabels, RealLabels);
    CountDisjointUnion(votes, FakeLabels + RealLabels, UncertainLabels);
    Tally(CountLabels(votes, FakeLabels), CountLabels(votes, RealLabels),
          CountLabels(votes, UncertainLabels))
  }

  /** A vote whose label is in none of the buckets counts only in the total. */
  lemma {:induction false} CountOutsideLabels(votes: seq<Vote>, labels: set<string>)
    requires forall i :: 0 <= i < |votes| ==> votes[i].prediction !in labels
    ensures CountLabels(votes, labels) == 0
  {
    if votes != [] {
      CountOutsideLabels(votes[1..], labels);
    }
  }

  function SumConfidence(votes: seq<Vote>): real {
    if votes == [] then 0.0 else votes[0].confidence + SumConfidence(votes[1..])
  }

  function SumScore(votes: seq<Vote>): real {
    if votes == [] then 0.0 else votes[0].score + SumScore(votes[1..])
  }

  lemma {:induction false} SumConfidenceBounds(votes: seq<Vote>)
    requires forall i :: 0 <= i < |votes| ==> 0.0 <= votes[i].confidence <= 1.0
    ensures 0.0 <= SumConfidence(votes) <= |votes| as real
  {
    if votes != [] {
      SumConfidenceBounds(votes[1..]);
    }
  }

  function Max(a: real, b: real): (r: real)
    ensures r >= a && r >= b && (r == a || r == b)
  {
    if a >= b then a else b
  }

  /** `Math.max(0, Math.min(1, x))`. */
  function Clamp01(x: real): (r: real)
    ensures 0.0 <= r <= 1.0
    ensures 0.0 <= x <= 1.0 ==> r == x
    ensures x < 0.0 ==> r == 0.0
    ensures x > 1.0 ==> r == 1.0
  {
    var upper := if 1.0 <= x then 1.0 else x;
    if 0.0 >= upper then 0.0 else upper
  }

  /** `x / n` for `0 <= x <= n`, the shape of every average and share here. */
  lemma FractionInUnitInterval(x: real, n: real)
    requires 0.0 < n && 0.0 <= x <= n
    ensures 0.0 <= x / n <= 1.0
  {
    assert x / n * n == x;
  }

  /** `max(fake, real) / n`: the share of the larger bucket. */
  function Strength(t: Tally, n: nat): (r: real)
    requires n > 0 && t.fakeVotes + t.realVotes <= n
    ensures 0.0 <= r <= 1.0
    ensures r * n as real == (if t.fakeVotes >= t.realVotes then t.fakeVotes else t.realVotes) as real
  {
    var maxCount := if t.fakeVotes >= t.realVotes then t.fakeVotes else t.realVotes;
    FractionInUnitInterval(maxCount as real, n as real);
    maxCount as real / n as real
  }

  datatype Outcome = Outcome(
    verdict: Verdict,
    confidence: real,
    avgScore: real,
    avgConfidence: real,
    strength: real,
    tally: Tally)

  /** The consensus of a non-empty list of per-model results under the
      evidence step's adjustment and override. */
  function Decide(votes: seq<Vote>, a: Assessment): (o: Outcome)
    requires |votes| > 0
    ensures o.tally == TallyVotes(votes)
    ensures o.avgConfidence == SumConfidence(votes) / |votes| as real
    ensures 0.0 <= o.avgScore <= 1.0
    ensures o.avgScore == Clamp01(SumScore(votes) / |votes| as real + a.adjustment)
    ensures o.strength == Strength(o.tally, |votes|)
    ensures a.override.Some? ==> o.verdict == a.override.value
    ensures a.override.None? && o.tally.fakeVotes > o.tally.realVotes ==> o.verdict == Fake
    ensures a.override.None? && o.tally.realVotes > o.tally.fakeVotes ==> o.verdict == Real
    ensures a.override.None? && o.tally.realVotes == o.tally.fakeVotes ==> (o.verdict == Real <==> o.avgScore > TieThreshold)
    ensures a.override.None? ==> o.confidence == o.avgConfidence * o.strength
    ensures a.override.Some? ==> o.confidence == Max(o.avgConfidence * o.strength, OverrideFloor)
  {
    var n := |votes| as real;
    var t := TallyVotes(votes);
    var avgConfidence := SumConfidence(votes) / n;
    var avgScore := Clamp01(SumScore(votes) / n + a.adjustment);
    var verdict :=
      if a.override.Some? then a.override.value
      else if t.fakeVotes > t.realVotes then Fake
      else if t.realVotes > t.fakeVotes then Real
      else if avgScore > TieThreshold then Real else Fake;
    var strength := Strength(t, |votes|);
    var base := avgConfidence * strength;
    var confidence := if a.override.Some? then Max(base, OverrideFloor) else base;
    Outcome(verdict, confidence, avgScore, avgConfidence, strength, t)
  }

  /** With every model confidence in [0, 1] the consensus confidence is in
      [0, 1]; an override lifts it to at least 0.85. */
  lemma ConfidenceInUnitInterval(votes: seq<Vote>, a: Assessment)
    requires |votes| > 0
    requires forall i :: 0 <= i < |votes| ==> 0.0 <= votes[i].confidence <= 1.0
    ensures 0.0 <= Decide(votes, a).confidence <= 1.0
    ensures a.override.Some? ==> Decide(votes, a).confidence >= OverrideFloor
  {
    var o := Decide(votes, a);
    SumConfidenceBounds(votes);
    FractionInUnitInterval(SumConfidence(votes), |votes| as real);
    ProductInUnitInterval(o.avgConfidence, o.strength);
  }

  lemma ProductInUnitInterval(x: real, y: real)
    requires 0.0 <= x <= 1.0 && 0.0 <= y <= 1.0
    ensures 0.0 <= x * y <= 1.0
  {
    var z := 1.0 - y;
    if x == 0.0 {
      assert x * y == 0.0 && x * z == 0.0;
    } else {
      assert 0.0 <= y * x by { assert y * x >= y * 0.0; }
      assert 0.0 <= z * x by { assert z * x >= z * 0.0; }
    }
    assert x * y == x - x * z;
  }

  /** A temporal hit decides the verdict `fake` with confidence at least
      0.85, whatever the models voted and whatever the fact-checks said. */
  lemma TemporalOverrideWins(votes: seq<Vote>, content: string, factCheck: Option<seq<Claim>>)
    requires |votes| > 0
    requires TemporalInconsistency(content)
    ensures Decide(votes, Gather(true, content, factCheck)).verdict == Fake
    ensures Decide(votes, Gather(true, content, factCheck)).confidence >= OverrideFloor
  {
  }

  /** Fact-check evidence for "true" only shifts the score: a strict fake
      majority of the models still decides `fake`. */
  lemma TrueEvidenceCannotOverrule(votes: seq<Vote>, claims: seq<Claim>)
    requires |votes| > 0
    requires TallyVotes(votes).fakeVotes > TallyVotes(votes).realVotes
    requires CountRatings(claims).trueCount > CountRatings(claims).falseCount
    ensures Decide(votes, Assess(false, Some(claims))).verdict == Fake
    ensures Assess(false, Some(claims)).adjustment == 0.2
  {
  }

  /** The code has no precaution rule: a majority of `uncertain` votes does
      not force `fake`; one `real` vote against three `uncertain` ones wins. */
  lemma NoPrecautionRule(u1: real, u2: real, u3: real, r: real, s: real)
    ensures Decide([Vote("uncertain", u1, s), Vote("uncertain", u2, s), Vote("uncertain", u3, s),
                    Vote("real", r, s)], NoEvidence).verdict == Real
  {
    var votes := [Vote("uncertain", u1, s), Vote("uncertain", u2, s), Vote("uncertain", u3, s),
                  Vote("real", r, s)];
    assert votes[1..] == votes[1..4];
    assert votes[1..][1..] == votes[2..];
    assert votes[2..][1..] == votes[3..];
    assert votes[3..][1..] == [];
    assert CountLabels(votes[3..], RealLabels) == 1;
    assert CountLabels(votes[2..], RealLabels) == 1;
    assert CountLabels(votes[1..], RealLabels) == 1;
    assert CountLabels(votes, RealLabels) == 1;
    assert CountLabels(votes[3..], FakeLabels) == 0;
    assert CountLabels(votes[2..], FakeLabels) == 0;
    assert CountLabels(votes[1..], FakeLabels) == 0;
    assert CountLabels(votes, FakeLabels) == 0;
  }

  /** On a tie the score must exceed 0.5 strictly: exactly 0.5 gives `fake`. */
  lemma TieAtHalfIsFake(c1: real, c2: real)
    ensures Decide([Vote("fake", c1, 0.5), Vote("real", c2, 0.5)], NoEvidence).verdict == Fake
  {
    var votes := [Vote("fake", c1, 0.5), Vote("real", c2, 0.5)];
    assert votes[1..][1..] == [];
    assert CountLabels(votes[1..], RealLabels) == 1;
    assert CountLabels(votes[1..], FakeLabels) == 0;
    assert SumScore(votes[1..]) == 0.5;
    assert SumScore(votes) == 1.0;
  }

  /** Three models answering real 0.9, real 0.8 and fake 0.6 with no
      evidence: `real`, strength 2/3, confidence (2.3 / 3) * (2 / 3). */
  lemma TwoOfThreeReal(s1: real, s2: real, s3: real)
    ensures var o := Decide([Vote("real", 0.9, s1), Vote("real", 0.8, s2), Vote("fake", 0.6, s3)], NoEvidence);
            o.verdict == Real && o.strength == 2.0 / 3.0 && o.confidence == (2.3 / 3.0) * (2.0 / 3.0)
  {
    var votes := [Vote("real", 0.9, s1), Vote("real", 0.8, s2), Vote("fake", 0.6, s3)];
    assert votes[1..][1..] == votes[2..];
    assert votes[2..][1..] == [];
    assert CountLabels(votes[2..], RealLabels) == 0;
    assert CountLabels(votes[1..], RealLabels) == 1;
    assert CountLabels(votes, RealLabels) == 2;
    assert CountLabels(votes[2..], FakeLabels) == 1;
    assert CountLabels(votes[1..], FakeLabels) == 1;
    assert CountLabels(votes, FakeLabels) == 1;
    assert SumConfidence(votes[2..]) == 0.6;
    assert SumConfidence(votes[1..]) == 1.4;
    assert SumConfidence(votes) == 2.3;
  }

  /** Labels outside the three buckets (such as `unknown`) count only in the
      total, so they dilute the strength to zero. */
  lemma UnknownLabelsDilute(votes: seq<Vote>)
    requires |votes| > 0
    requires forall i :: 0 <= i < |votes| ==> votes[i].prediction == "unknown"
    ensures TallyVotes(votes) == Tally(0, 0, 0)
    ensures Decide(votes, NoEvidence).strength == 0.0
  {
    CountOutsideLabels(votes, FakeLabels);
    CountOutsideLabels(votes, RealLabels);
    CountOutsideLabels(votes, UncertainLabels);
  }
}
