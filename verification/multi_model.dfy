/**
 * `analyzeWithAllModels`: every model of the catalog analyses the same input
 * in turn, failures are skipped, the evidence step and the consensus run over
 * the successes, and the returned object merges the consensus with the first
 * successful model's own result, whose keys come last and win.
 *
 * The catalog request, each model's analysis request and the fact-check
 * request are inputs. The remote "active model" switch is folded into the
 * model's outcome: a failed switch skips the model like a failed analysis.
 */
module MultiModel {
  import opened Wrappers
  import opened JsText
  import opened JsValue
  import opened Analyzer
  import opened Verdicts
  import opened Evidence
  import opened Consensus

  /** An entry of `available_models`. */
  datatype ModelInfo = ModelInfo(modelId: string, name: Field<string>, language: Json, accuracy: Json)

  /** A catalog entry together with the outcome of trying it: the reply of
      its analysis request, or `None` when switching to it or the request
      failed. */
  datatype ModelRun = ModelRun(model: ModelInfo, reply: Option<Reply>)

  /** The arguments `(content, type, file)`; `urlParses` is whether the `URL`
      constructor accepts `content`. */
  datatype Request = Request(kind: Kind, content: string, file: Option<FileInfo>, urlParses: bool)

  /** Why the whole analysis threw. */
  datatype AnalysisError =
    | CatalogUnavailable   // the models list request failed
    | NoModels             // the catalog is empty
    | NoModelSucceeded     // every model was skipped

  // ---------------------------------------------------------------------
  // One model

  /** The call `type` selects: a URL, a file when one is given, text otherwise. */
  function Dispatch(req: Request, reply: Option<Reply>): Result<Analysis, Failure> {
    if req.kind == Url then AnalyzeUrl(req.content, req.urlParses, reply)
    else if req.kind == File && req.file.Some? then AnalyzeFile(req.file, reply)
    else AnalyzeText(req.content, reply)
  }

  /** The input check of the selected call; it does not depend on the model. */
  function Precheck(req: Request): Option<Failure> {
    if req.kind == Url then CheckUrl(req.content, req.urlParses)
    else if req.kind == File && req.file.Some? then CheckFile(req.file)
    else CheckText(req.content)
  }

  /** A model succeeds exactly when the input passes the selected call's
      check and its request answers; a rejected input fails with the check's
      error whatever the model. */
  lemma DispatchIff(req: Request, reply: Option<Reply>)
    ensures Dispatch(req, reply).Success? <==> Precheck(req).None? && reply.Some?
    ensures Precheck(req).Some? ==> Dispatch(req, reply) == Failure(Precheck(req).value)
    ensures Dispatch(req, reply).Success? ==> Normalised(Dispatch(req, reply).value)
  {
  }

  /** An entry of `results`. */
  datatype ModelResult = ModelResult(
    modelId: string,
    modelName: string,
    language: Json,
    accuracy: Json,
    prediction: string,
    confidence: real,
    score: real,
    full: map<Key, Json>)

  /** The derived fields agree with the kept result object, which has
      none of the keys the consensus object adds. */
  predicate WellFormed(r: ModelResult) {
    && Prediction in r.full && r.full[Prediction] == JStr(r.prediction)
    && Confidence in r.full && r.full[Confidence] == JNum(r.confidence)
    && MultiModelAnalysis !in r.full && FactCheck !in r.full
  }

  /** The entry pushed for a successful model. Its prediction is
      `(result.prediction || result.label || '').toLowerCase()`, which is the
      normalised prediction itself, since that is never empty and already
      lower-case; its score is `result.score || 0`. */
  function ResultOf(m: ModelInfo, a: Analysis): (r: ModelResult)
    requires Normalised(a)
    ensures WellFormed(r)
    ensures r.modelId == m.modelId && r.full == a.full
    ensures m.name.Val? && m.name.v != "" ==> r.modelName == m.name.v
    ensures !(m.name.Val? && m.name.v != "") ==> r.modelName == m.modelId
    ensures r.prediction == a.prediction && r.confidence == a.confidence
    ensures r.score == (if a.reply.score.Val? then a.reply.score.v else 0.0)
    ensures Score in r.full <==> !a.reply.score.Absent?
  {
    assert a.prediction != [] && Lower(a.prediction) == a.prediction;
    assert MultiModelAnalysis !in ResultKeys && FactCheck !in ResultKeys;
    ModelResult(
      m.modelId,
      StrOr(m.name, m.modelId),
      m.language,
      m.accuracy,
      Lower(if a.prediction != "" then a.prediction else StrOr(a.reply.labelKey, "")),
      if a.confidence != 0.0 then a.confidence else 0.0,
      NumOr(a.reply.score, 0.0),
      a.full)
  }

  // ---------------------------------------------------------------------
  // Fan-out

  /** One turn of the loop: the entry pushed, or `None` when the model is skipped. */
  function Step(req: Request, run: ModelRun): (r: Option<ModelResult>)
    ensures r.Some? <==> Dispatch(req, run.reply).Success?
    ensures r.Some? ==> WellFormed(r.value) && r.value.modelId == run.model.modelId
  {
    DispatchIff(req, run.reply);
    var res := Dispatch(req, run.reply);
    if res.Success? then Some(ResultOf(run.model, res.value)) else None
  }

  /** `f` applied to every element, in order. */
  function MapSeq<A, B>(f: A -> B, s: seq<A>): (r: seq<B>)
    ensures |r| == |s|
    ensures forall i :: 0 <= i < |s| ==> r[i] == f(s[i])
  {
    seq(|s|, i requires 0 <= i < |s| => f(s[i]))
  }

  lemma MapSeqAppend<A, B>(f: A -> B, a: seq<A>, b: seq<A>)
    ensures MapSeq(f, a + b) == MapSeq(f, a) + MapSeq(f, b)
  {
    forall i | 0 <= i < |a + b| ensures MapSeq(f, a + b)[i] == (MapSeq(f, a) + MapSeq(f, b))[i] {
      if i < |a| {
        assert (a + b)[i] == a[i];
      } else {
        assert (a + b)[i] == b[i - |a|];
      }
    }
  }

  /** The turns of the loop, one per catalog entry. */
  function Steps(req: Request, runs: seq<ModelRun>): (steps: seq<Option<ModelResult>>)
    ensures |steps| == |runs|
    ensures forall i :: 0 <= i < |runs| ==> steps[i] == Step(req, runs[i])
  {
    MapSeq((run: ModelRun) => Step(req, run), runs)
  }

  /** The pushed entries of a run of turns, in order. */
  function Keep(steps: seq<Option<ModelResult>>): (results: seq<ModelResult>)
    ensures |results| <= |steps|
  {
    if steps == [] then []
    else (if steps[0].Some? then [steps[0].value] else []) + Keep(steps[1..])
  }

  lemma {:induction false} KeepAppend(x: seq<Option<ModelResult>>, y: seq<Option<ModelResult>>)
    ensures Keep(x + y) == Keep(x) + Keep(y)
  {
    if x == [] {
      assert x + y == y;
    } else {
      assert (x + y)[0] == x[0];
      assert (x + y)[1..] == x[1..] + y;
      KeepAppend(x[1..], y);
    }
  }

  /** Nothing is kept exactly when every turn skipped its model. */
  lemma {:induction false} KeepEmptyIff(steps: seq<Option<ModelResult>>)
    ensures Keep(steps) == [] <==> forall i :: 0 <= i < |steps| ==> steps[i].None?
  {
    if steps != [] {
      KeepEmptyIff(steps[1..]);
      if Keep(steps) == [] {
        forall i | 0 < i < |steps| ensures steps[i].None? {
          assert steps[1..][i - 1] == steps[i];
        }
      } else if steps[0].None? {
        var i :| 0 <= i < |steps[1..]| && steps[1..][i].Some?;
        assert steps[1..][i] == steps[i + 1];
      }
    }
  }

  /** When every turn pushes, the kept entries are the turns' entries, in place. */
  lemma {:induction false} KeepAll(steps: seq<Option<ModelResult>>)
    requires forall i :: 0 <= i < |steps| ==> steps[i].Some?
    ensures |Keep(steps)| == |steps|
    ensures forall i :: 0 <= i < |steps| ==> Keep(steps)[i] == steps[i].value
  {
    if steps != [] {
      KeepAll(steps[1..]);
      forall i | 0 < i < |steps| ensures Keep(steps)[i] == steps[i].value {
        assert steps[1..][i - 1] == steps[i];
      }
    }
  }

  lemma {:induction false} KeepWellFormed(steps: seq<Option<ModelResult>>)
    requires forall i :: 0 <= i < |steps| && steps[i].Some? ==> WellFormed(steps[i].value)
    ensures forall i :: 0 <= i < |Keep(steps)| ==> WellFormed(Keep(steps)[i])
  {
    if steps != [] {
      KeepWellFormed(steps[1..]);
      assert forall i :: 0 < i < |steps| ==> steps[1..][i - 1] == steps[i];
    }
  }

  /** The loop over the catalog: one entry per successful model, in order. */
  function FanOut(req: Request, runs: seq<ModelRun>): (results: seq<ModelResult>)
    ensures |results| <= |runs|
  {
    Keep(Steps(req, runs))
  }

  /** Every entry is well formed. */
  lemma FanOutWellFormed(req: Request, runs: seq<ModelRun>)
    ensures forall i :: 0 <= i < |FanOut(req, runs)| ==> WellFormed(FanOut(req, runs)[i])
  {
    KeepWellFormed(Steps(req, runs));
  }

  /** The fold distributes over concatenation: the successes of a catalog
      are those of its parts, in catalog order. */
  lemma FanOutAppend(req: Request, a: seq<ModelRun>, b: seq<ModelRun>)
    ensures FanOut(req, a + b) == FanOut(req, a) + FanOut(req, b)
  {
    MapSeqAppend((run: ModelRun) => Step(req, run), a, b);
    KeepAppend(Steps(req, a), Steps(req, b));
  }

  /** When every model succeeds, every model has its entry at its own position. */
  lemma FanOutAllSucceed(req: Request, runs: seq<ModelRun>)
    requires forall i :: 0 <= i < |runs| ==> runs[i].reply.Some?
    requires Precheck(req).None?
    ensures |FanOut(req, runs)| == |runs|
    ensures forall i :: 0 <= i < |runs| ==> FanOut(req, runs)[i].modelId == runs[i].model.modelId
  {
    var steps := Steps(req, runs);
    forall i | 0 <= i < |runs| ensures steps[i].Some? {
      DispatchIff(req, runs[i].reply);
    }
    KeepAll(steps);
  }

  /** There is no entry at all exactly when every model failed. */
  lemma FanOutEmptyIff(req: Request, runs: seq<ModelRun>)
    ensures FanOut(req, runs) == [] <==> forall i :: 0 <= i < |runs| ==> Dispatch(req, runs[i].reply).Failure?
  {
    KeepEmptyIff(Steps(req, runs));
  }

  /** An input every call rejects (empty text, an unparsable URL, an
      oversized file) makes every model fail. */
  lemma RejectedInputFailsAll(req: Request, runs: seq<ModelRun>)
    requires Precheck(req).Some?
    ensures FanOut(req, runs) == []
  {
    forall i | 0 <= i < |runs| ensures Dispatch(req, runs[i].reply).Failure? {
      DispatchIff(req, runs[i].reply);
    }
    FanOutEmptyIff(req, runs);
  }

  // ---------------------------------------------------------------------
  // Consensus and the returned object

  function VotesOf(results: seq<ModelResult>): (votes: seq<Vote>)
    ensures |votes| == |results|
    ensures forall i :: 0 <= i < |results| ==>
              votes[i] == Vote(results[i].prediction, results[i].confidence, results[i].score)
  {
    seq(|results|, i requires 0 <= i < |results| =>
      Vote(results[i].prediction, results[i].confidence, results[i].score))
  }

  /** The evidence step runs for `type === 'text'` with non-empty content. */
  function EvidenceOf(req: Request, factCheck: Option<seq<Claim>>): Assessment {
    Gather(req.kind == Text, req.content, factCheck)
  }

  function ConsensusOf(req: Request, results: seq<ModelResult>, factCheck: Option<seq<Claim>>): Outcome
    requires |results| > 0
  {
    Decide(VotesOf(results), EvidenceOf(req, factCheck))
  }

  function ResultJson(r: ModelResult): Json {
    JObj(map[ModelId := JStr(r.modelId), ModelName := JStr(r.modelName), Language := r.language,
             Accuracy := r.accuracy, Prediction := JStr(r.prediction), Confidence := JNum(r.confidence),
             Score := JNum(r.score), FullResult := JObj(r.full)])
  }

  /** `multi_model_analysis`. */
  function SummaryJson(results: seq<ModelResult>, o: Outcome): (m: map<Key, Json>)
    ensures Prediction !in m
    ensures TotalModels in m && m[TotalModels] == JNum(|results| as real)
  {
    map[TotalModels := JNum(|results| as real),
        FakeVotes := JNum(o.tally.fakeVotes as real),
        RealVotes := JNum(o.tally.realVotes as real),
        UncertainVotes := JNum(o.tally.uncertainVotes as real),
        AverageConfidence := JNum(o.avgConfidence),
        AverageScore := JNum(o.avgScore),
        ConsensusStrength := JNum(o.strength),
        IndividualResults := JArr(seq(|results|, i requires 0 <= i < |results| => ResultJson(results[i])))]
  }

  /** `fact_check`: present when the fact-check request answered. */
  function FactCheckJson(req: Request, factCheck: Option<seq<Claim>>): (j: Json)
    ensures j != JNull <==> req.kind == Text && req.content != [] && factCheck.Some?
  {
    if req.kind == Text && req.content != [] && factCheck.Some? then
      JObj(map[Source := JStr("Google Fact Check"),
               ClaimsFound := JNum(|factCheck.value| as real),
               ScoreAdjustment := JNum(EvidenceOf(req, factCheck).adjustment)])
    else JNull
  }

  /** The returned object: the consensus keys, then
      `...results[0].full_result`, whose keys win. */
  function Assemble(req: Request, results: seq<ModelResult>, factCheck: Option<seq<Claim>>): (r: map<Key, Json>)
    requires |results| > 0 && WellFormed(results[0])
    ensures Prediction in r && r[Prediction] == JStr(results[0].prediction)
    ensures Confidence in r && r[Confidence] == JNum(results[0].confidence)
    ensures Score in r
    ensures Score in results[0].full ==> r[Score] == results[0].full[Score]
    ensures Score !in results[0].full ==> r[Score] == JNum(ConsensusOf(req, results, factCheck).avgScore)
    ensures MultiModelAnalysis in r && r[MultiModelAnalysis].JObj? && Prediction !in r[MultiModelAnalysis].fields
    ensures FactCheck in r && (r[FactCheck] != JNull <==> req.kind == Text && req.content != [] && factCheck.Some?)
  {
    var o := ConsensusOf(req, results, factCheck);
    var top := map[Prediction := JStr(o.verdict.Name()), Confidence := JNum(o.confidence),
                   Score := JNum(o.avgScore), MultiModelAnalysis := JObj(SummaryJson(results, o)),
                   FactCheck := FactCheckJson(req, factCheck)];
    assert MultiModelAnalysis !in results[0].full && FactCheck !in results[0].full;
    Spread(top, results[0].full)
  }

  /** `analyzeWithAllModels(content, type, file)` given the catalog (`None`
      when its request failed) and the fact-check reply. */
  function AnalyzeWithAllModels(req: Request, catalog: Option<seq<ModelRun>>, factCheck: Option<seq<Claim>>)
    : (res: Result<map<Key, Json>, AnalysisError>)
    ensures catalog.None? ==> res == Failure(CatalogUnavailable)
    ensures catalog == Some([]) ==> res == Failure(NoModels)
    ensures catalog.Some? && catalog.value != [] ==>
              (res.Success? <==> FanOut(req, catalog.value) != [])
    ensures catalog.Some? && catalog.value != [] && res.Failure? ==> res.error == NoModelSucceeded
    ensures res.Success? ==>
              var results := FanOut(req, catalog.value);
              |results| > 0 && WellFormed(results[0]) && res.value == Assemble(req, results, factCheck)
  {
    if catalog.None? then Failure(CatalogUnavailable)
    else if catalog.value == [] then Failure(NoModels)
    else
      var results := FanOut(req, catalog.value);
      FanOutWellFormed(req, catalog.value);
      if results == [] then Failure(NoModelSucceeded)
      else Success(Assemble(req, results, factCheck))
  }

  // ---------------------------------------------------------------------
  // Properties of the whole

  /** An input the selected call rejects fails the whole analysis once a
      catalog is there. */
  lemma RejectedInputFailsAnalysis(req: Request, catalog: seq<ModelRun>, factCheck: Option<seq<Claim>>)
    requires Precheck(req).Some?
    ensures AnalyzeWithAllModels(req, Some(catalog), factCheck).Failure?
  {
    RejectedInputFailsAll(req, catalog);
  }

  /** With every model confidence in [0, 1], the consensus confidence is in
      [0, 1]; an override lifts it to at least 0.85. */
  lemma ConsensusConfidenceBounded(req: Request, results: seq<ModelResult>, factCheck: Option<seq<Claim>>)
    requires |results| > 0
    requires forall i :: 0 <= i < |results| ==> 0.0 <= results[i].confidence <= 1.0
    ensures 0.0 <= ConsensusOf(req, results, factCheck).confidence <= 1.0
    ensures EvidenceOf(req, factCheck).override.Some? ==> ConsensusOf(req, results, factCheck).confidence >= OverrideFloor
  {
    ConfidenceInUnitInterval(VotesOf(results), EvidenceOf(req, factCheck));
  }

  /** The evidence step never runs for URL or file input, so no fact-check
      object is returned and the consensus is the plain vote. */
  lemma NoEvidenceForNonText(req: Request, factCheck: Option<seq<Claim>>)
    requires req.kind != Text
    ensures EvidenceOf(req, factCheck) == NoEvidence
    ensures FactCheckJson(req, factCheck) == JNull
  {
  }

  /** The consensus verdict does not survive the final merge: when the first
      model says `real` and the two others say `fake`, the consensus is
      `fake` but the returned prediction is `real`. */
  lemma ConsensusVerdictOverwritten(req: Request, r0: ModelResult, r1: ModelResult, r2: ModelResult,
                                    factCheck: Option<seq<Claim>>)
    requires WellFormed(r0) && r0.prediction == "real"
    requires r1.prediction == "fake" && r2.prediction == "fake"
    requires req.kind != Text
    ensures ConsensusOf(req, [r0, r1, r2], factCheck).verdict == Fake
    ensures Assemble(req, [r0, r1, r2], factCheck)[Prediction] == JStr("real")
  {
    var votes := VotesOf([r0, r1, r2]);
    assert votes[1..][1..] == votes[2..];
    assert votes[2..][1..] == [];
    assert CountLabels(votes[2..], FakeLabels) == 1;
    assert CountLabels(votes[1..], FakeLabels) == 2;
    assert CountLabels(votes, FakeLabels) == 2;
    assert CountLabels(votes[2..], RealLabels) == 0;
    assert CountLabels(votes[1..], RealLabels) == 0;
    assert CountLabels(votes, RealLabels) == 1;
  }
}
