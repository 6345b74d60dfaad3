/**
 * The session metrics store: `addAnalysis` puts a new entry in front of the
 * list, with an id from a counter and a verdict from a score threshold, and
 * `stats` reduces the list to totals, the fake percentage, seven day buckets
 * and per-type counts. Creation times are day indices; the random score of
 * `generateScore` is a parameter.
 */
module MetricsStore {
  import opened Wrappers
  import opened Verdicts
  import opened Decimal

  const FakeThreshold: int := 55
  const PreviewLength: nat := 120

  /** A recorded analysis; `day` stands for `createdAt`. */
  datatype Entry = Entry(
    id: string,
    day: int,
    inputType: string,
    sourceLabel: Option<string>,
    preview: string,
    score: int,
    result: Verdict)

  /** The argument of `addAnalysis`; a missing key is `None`. */
  datatype Partial = Partial(
    inputType: string,
    sourceLabel: Option<string>,
    preview: Option<string>,
    score: Option<int>)

  /** The id counter and the list, newest first. */
  datatype Store = Store(counter: nat, analyses: seq<Entry>)

  const Empty: Store := Store(0, [])

  /** Every store reached from `Empty`: one entry per call, the newest at the
      front, entry `i` carrying the id `String(counter - i)`. */
  predicate Valid(s: Store) {
    && |s.analyses| == s.counter
    && forall i :: 0 <= i < |s.analyses| ==> s.analyses[i].id == NatToString(s.counter - i)
  }

  /** `score > 55 ? 'fake' : 'real'`. */
  function Classify(score: int): (v: Verdict)
    ensures v == Fake <==> score > FakeThreshold
  {
    if score > FakeThreshold then Fake else Real
  }

  /** `partial.preview?.slice(0, 120) || ''`. */
  function PreviewOf(p: Option<string>): (r: string)
    ensures p.None? ==> r == ""
    ensures p.Some? ==> r == p.value[..if |p.value| < PreviewLength then |p.value| else PreviewLength]
    ensures |r| <= PreviewLength
  {
    match p
    case None => ""
    case Some(text) => if |text| <= PreviewLength then text else text[..PreviewLength]
  }

  datatype Added = Added(store: Store, entry: Entry)

  /** `addAnalysis(partial)`; `generated` is what `generateScore` would
      return and `today` the creation day. */
  function AddAnalysis(s: Store, p: Partial, generated: int, today: int): (r: Added)
    ensures r.store.counter == s.counter + 1
    ensures r.store.analyses == [r.entry] + s.analyses
    ensures r.entry.id == NatToString(s.counter + 1)
    ensures p.score.Some? ==> r.entry.score == p.score.value
    ensures p.score.None? ==> r.entry.score == generated
    ensures r.entry.result == Fake <==> r.entry.score > FakeThreshold
    ensures r.entry.inputType == p.inputType && r.entry.sourceLabel == p.sourceLabel
    ensures r.entry.preview == PreviewOf(p.preview) && r.entry.day == today
  {
    var counter := s.counter + 1;
    var score := if p.score.Some? then p.score.value else generated;
    var entry := Entry(NatToString(counter), today, p.inputType, p.sourceLabel,
                       PreviewOf(p.preview), score, Classify(score));
    Added(Store(counter, [entry] + s.analyses), entry)
  }

  /** `addAnalysis` keeps the store valid. */
  lemma AddAnalysisValid(s: Store, p: Partial, generated: int, today: int)
    requires Valid(s)
    ensures Valid(AddAnalysis(s, p, generated, today).store)
  {
    var t := AddAnalysis(s, p, generated, today).store;
    forall i | 0 < i < |t.analyses| ensures t.analyses[i].id == NatToString(t.counter - i) {
      assert t.analyses[i] == s.analyses[i - 1];
    }
  }

  /** Ids in a valid store are pairwise distinct. */
  lemma ValidIdsDistinct(s: Store, i: int, j: int)
    requires Valid(s)
    requires 0 <= i < |s.analyses| && 0 <= j < |s.analyses| && i != j
    ensures s.analyses[i].id != s.analyses[j].id
  {
    NatToStringInjective(s.counter - i, s.counter - j);
  }

  // ---------------------------------------------------------------------
  // stats

  function CountFake(xs: seq<Entry>): (n: nat)
    ensures n <= |xs|
  {
    if xs == [] then 0 else (if xs[0].result == Fake then 1 else 0) + CountFake(xs[1..])
  }

  function CountReal(xs: seq<Entry>): (n: nat)
    ensures n <= |xs|
  {
    if xs == [] then 0 else (if xs[0].result == Real then 1 else 0) + CountReal(xs[1..])
  }

  /** Every entry is either fake or real. */
  lemma {:induction false} FakePlusReal(xs: seq<Entry>)
    ensures CountFake(xs) + CountReal(xs) == |xs|
  {
    if xs != [] {
      FakePlusReal(xs[1..]);
    }
  }

  /** The entries created on day `d`. */
  function OnDay(xs: seq<Entry>, d: int): (ys: seq<Entry>)
    ensures |ys| <= |xs|
    ensures forall i :: 0 <= i < |ys| ==> ys[i].day == d
  {
    if xs == [] then []
    else (if xs[0].day == d then [xs[0]] else []) + OnDay(xs[1..], d)
  }

  datatype DayBucket = DayBucket(day: int, total: nat, fakeCount: nat, realCount: nat)

  function Bucket(xs: seq<Entry>, d: int): (b: DayBucket)
    ensures b.day == d && b.fakeCount + b.realCount == b.total
  {
    var items := OnDay(xs, d);
    FakePlusReal(items);
    DayBucket(d, |items|, CountFake(items), CountReal(items))
  }

  /** The buckets for `today - 6`, ..., `today`, oldest first. */
  function Days(xs: seq<Entry>, today: int): (days: seq<DayBucket>)
    ensures |days| == 7
    ensures forall i :: 0 <= i < 7 ==> days[i] == Bucket(xs, today - 6 + i)
    ensures forall i :: 0 <= i < 7 ==> days[i].day == today - 6 + i
    ensures forall i :: 0 <= i < 7 ==> days[i].fakeCount + days[i].realCount == days[i].total
  {
    seq(7, i requires 0 <= i < 7 => Bucket(xs, today - 6 + i))
  }

  // byType: `acc[a.inputType] = (acc[a.inputType] || 0) + 1` over the list,
  // as an association list in the order keys are first met.

  datatype TypeCount = TypeCount(inputType: string, count: nat)

  function Lookup(acc: seq<TypeCount>, t: string): nat {
    if acc == [] then 0
    else if acc[0].inputType == t then acc[0].count
    else Lookup(acc[1..], t)
  }

  predicate Has(acc: seq<TypeCount>, t: string) {
    acc != [] && (acc[0].inputType == t || Has(acc[1..], t))
  }

  /** No key occurs twice. */
  predicate DistinctTypes(acc: seq<TypeCount>) {
    acc == [] || (!Has(acc[1..], acc[0].inputType) && DistinctTypes(acc[1..]))
  }

  function SumCounts(acc: seq<TypeCount>): nat {
    if acc == [] then 0 else acc[0].count + SumCounts(acc[1..])
  }

  /** One step of the reduction: increment the key, adding it at the end
      when it is new. */
  function Bump(acc: seq<TypeCount>, t: string): (r: seq<TypeCount>)
    ensures |r| == |acc| || |r| == |acc| + 1
  {
    if acc == [] then [TypeCount(t, 1)]
    else if acc[0].inputType == t then [TypeCount(t, acc[0].count + 1)] + acc[1..]
    else [acc[0]] + Bump(acc[1..], t)
  }

  lemma {:induction false} BumpFacts(acc: seq<TypeCount>, t: string)
    ensures SumCounts(Bump(acc, t)) == SumCounts(acc) + 1
    ensures forall k :: Lookup(Bump(acc, t), k) == Lookup(acc, k) + (if k == t then 1 else 0)
    ensures forall k :: k != t ==> (Lookup(Bump(acc, t), k) > 0 <==> Lookup(acc, k) > 0)
  {
    if acc != [] && acc[0].inputType != t {
      BumpFacts(acc[1..], t);
      assert Bump(acc, t)[1..] == Bump(acc[1..], t);
    }
  }

  lemma {:induction false} BumpKeys(acc: seq<TypeCount>, t: string)
    requires DistinctTypes(acc)
    ensures DistinctTypes(Bump(acc, t))
    ensures forall k :: Has(Bump(acc, t), k) <==> Has(acc, k) || k == t
  {
    var r := Bump(acc, t);
    if acc == [] {
      assert r[1..] == [];
    } else if acc[0].inputType == t {
      assert r[1..] == acc[1..];
    } else {
      BumpKeys(acc[1..], t);
      assert r[1..] == Bump(acc[1..], t);
    }
  }

  function ByTypeFrom(acc: seq<TypeCount>, xs: seq<Entry>): seq<TypeCount>
    decreases xs
  {
    if xs == [] then acc else ByTypeFrom(Bump(acc, xs[0].inputType), xs[1..])
  }

  /** `analyses.reduce(..., {})`. */
  function ByType(xs: seq<Entry>): seq<TypeCount> {
    ByTypeFrom([], xs)
  }

  function CountType(xs: seq<Entry>, t: string): nat {
    if xs == [] then 0 else (if xs[0].inputType == t then 1 else 0) + CountType(xs[1..], t)
  }

  lemma {:induction false} ByTypeFromFacts(acc: seq<TypeCount>, xs: seq<Entry>)
    requires DistinctTypes(acc)
    ensures SumCounts(ByTypeFrom(acc, xs)) == SumCounts(acc) + |xs|
    ensures forall k :: Lookup(ByTypeFrom(acc, xs), k) == Lookup(acc, k) + CountType(xs, k)
    ensures DistinctTypes(ByTypeFrom(acc, xs))
    decreases xs
  {
    if xs != [] {
      BumpFacts(acc, xs[0].inputType);
      BumpKeys(acc, xs[0].inputType);
      ByTypeFromFacts(Bump(acc, xs[0].inputType), xs[1..]);
    }
  }

  /** The per-type counts are exact, their keys distinct, and they sum to
      the total. */
  lemma ByTypeCounts(xs: seq<Entry>)
    ensures SumCounts(ByType(xs)) == |xs|
    ensures forall k :: Lookup(ByType(xs), k) == CountType(xs, k)
    ensures DistinctTypes(ByType(xs))
  {
    ByTypeFromFacts([], xs);
  }

  /** `total ? part / total * 100 : 0`. */
  function Percent(part: nat, whole: nat): (p: real)
    requires part <= whole
    ensures whole == 0 ==> p == 0.0
    ensures 0.0 <= p <= 100.0
    ensures whole > 0 ==> p * whole as real == part as real * 100.0
  {
    if whole == 0 then 0.0
    else
      var f := part as real / whole as real;
      assert f * whole as real == part as real;
      f * 100.0
  }

  datatype Stats = Stats(total: nat, fakeCount: nat, realCount: nat, fakePct: real,
                         days: seq<DayBucket>, byType: seq<TypeCount>)

  /** `stats`. */
  function StatsOf(s: Store, today: int): (st: Stats)
    ensures st.total == |s.analyses| && st.fakeCount == CountFake(s.analyses)
    ensures st.fakeCount + st.realCount == st.total
    ensures st.total == 0 ==> st.fakePct == 0.0
    ensures 0.0 <= st.fakePct <= 100.0
    ensures st.total > 0 ==> st.fakePct * st.total as real == st.fakeCount as real * 100.0
    ensures st.realCount == CountReal(s.analyses)
    ensures |st.days| == 7
    ensures forall i :: 0 <= i < 7 ==> st.days[i] == Bucket(s.analyses, today - 6 + i)
    ensures forall k :: Lookup(st.byType, k) == CountType(s.analyses, k)
    ensures SumCounts(st.byType) == st.total && DistinctTypes(st.byType)
  {
    var total := |s.analyses|;
    var fake := CountFake(s.analyses);
    FakePlusReal(s.analyses);
    ByTypeCounts(s.analyses);
    Stats(total, fake, total - fake, Percent(fake, total), Days(s.analyses, today), ByType(s.analyses))
  }
}
