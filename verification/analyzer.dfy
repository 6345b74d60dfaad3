/**
 * One call of the `/analyze/` endpoint as the client performs it
 * (`analyzeText`, `analyzeUrl`, `analyzeFile`): the input checks made before
 * any request is sent, and the normalisation of the heterogeneous reply into
 * an object whose `confidence` and `prediction` keys are always set.
 * The reply itself (or the failure of the request) is an input.
 */
module Analyzer {
  import opened Wrappers
  import opened JsText
  import opened JsValue

  datatype Kind = Text | Url | File

  /** The browser `File` attributes the client reads. */
  datatype FileInfo = FileInfo(name: string, size: nat, mime: string)

  /** The keys of an `/analyze/` reply that the client reads. */
  datatype Reply = Reply(
    prediction: Field<string>,
    classification: Field<string>,
    labelKey: Field<string>,
    confidence: Field<real>,
    score: Field<real>,
    analysisTimeMs: Field<real>,
    analysisTime: Field<real>,
    processingTime: Field<real>,
    contentLength: Field<real>)

  /** Why a single analysis call threw. */
  datatype Failure =
    | EmptyText      // text missing or only white space
    | TextTooLong    // more than MaxTextLength characters
    | EmptyUrl       // url missing or only white space
    | InvalidUrl     // the URL constructor rejects it
    | NoFile         // no file given
    | FileTooLarge   // more than MaxFileSize bytes
    | RemoteFailed   // the request or the reply failed

  /** The reply keys the model knows, under their JSON names. */
  const ReplyKeys: set<Key> :=
    {Prediction, Classification, Label, Confidence, Score,
     AnalysisTimeMs, AnalysisTime, ProcessingTime, ContentLength}

  /** Every key a normalised result can carry. */
  const ResultKeys: set<Key> :=
    ReplyKeys + {TextLength, SourceUrl, ExtractedTextLength, SourceFile, FileSize, FileType}

  const MaxTextLength: nat := 10000
  const MaxFileSize: nat := 5 * 1024 * 1024

  /** A normalised reply: the original keys, the derived ones, and the
      object `{...reply, confidence, prediction, ...}` the caller receives. */
  datatype Analysis = Analysis(
    reply: Reply,
    prediction: string,
    confidence: real,
    analysisTime: real,
    full: map<Key, Json>)

  /** What every normalised result satisfies: the derived keys agree with
      the reply, and no key outside the known ones appears. */
  predicate Normalised(a: Analysis) {
    && a.prediction == PredictionOf(a.reply) && a.confidence == ConfidenceOf(a.reply)
    && Prediction in a.full && a.full[Prediction] == JStr(a.prediction)
    && Confidence in a.full && a.full[Confidence] == JNum(a.confidence)
    && (Score in a.full <==> !a.reply.score.Absent?)
    && (Score in a.full ==> a.full[Score] == NumJson(a.reply.score))
    && a.full.Keys <= ResultKeys
  }

  /** `result.confidence ?? result.score ?? 0`. */
  function ConfidenceOf(r: Reply): (c: real)
    ensures r.confidence.Val? ==> c == r.confidence.v
    ensures !r.confidence.Val? && r.score.Val? ==> c == r.score.v
    ensures !r.confidence.Val? && !r.score.Val? ==> c == 0.0
  {
    r.confidence.OrElse(r.score.OrElse(0.0))
  }

  /** `(prediction || classification || label || 'unknown').toLowerCase()`. */
  function PredictionOf(r: Reply): (p: string)
    ensures p != [] && Lower(p) == p
    ensures r.prediction.Val? && r.prediction.v != "" ==> p == Lower(r.prediction.v)
    ensures StrOr(r.prediction, "") == "" && StrOr(r.classification, "") != ""
            ==> p == Lower(r.classification.v)
    ensures StrOr(r.prediction, "") == "" && StrOr(r.classification, "") == ""
            && StrOr(r.labelKey, "") != ""
            ==> p == Lower(r.labelKey.v)
    ensures StrOr(r.prediction, "") == "" && StrOr(r.classification, "") == ""
            && StrOr(r.labelKey, "") == ""
            ==> p == "unknown"
  {
    var chosen := StrOr(r.prediction, StrOr(r.classification, StrOr(r.labelKey, "unknown")));
    LowerIdempotent(chosen);
    LowerNonEmpty(chosen);
    Lower(chosen)
  }

  /** `analysis_time_ms / 1000` when that key is a number, else
      `analysis_time || processing_time || 0` (exact arithmetic). */
  function AnalysisTimeOf(r: Reply): real {
    if r.analysisTimeMs.Val? then r.analysisTimeMs.v / 1000.0
    else NumOr(r.analysisTime, NumOr(r.processingTime, 0.0))
  }

  /** The JSON value of key `k` of the reply, `None` when the key is absent. */
  function ReplyValue(r: Reply, k: Key): Option<Json> {
    match k
    case Prediction => StrValue(r.prediction)
    case Classification => StrValue(r.classification)
    case Label => StrValue(r.labelKey)
    case Confidence => NumValue(r.confidence)
    case Score => NumValue(r.score)
    case AnalysisTimeMs => NumValue(r.analysisTimeMs)
    case AnalysisTime => NumValue(r.analysisTime)
    case ProcessingTime => NumValue(r.processingTime)
    case ContentLength => NumValue(r.contentLength)
    case _ => None
  }

  function StrValue(f: Field<string>): Option<Json> {
    if f.Absent? then None else Some(StrJson(f))
  }

  function NumValue(f: Field<real>): Option<Json> {
    if f.Absent? then None else Some(NumJson(f))
  }

  /** The reply as an object: exactly its present keys. */
  function ReplyObject(r: Reply): (m: map<Key, Json>)
    ensures m.Keys <= ReplyKeys
    ensures forall k :: k in m <==> ReplyValue(r, k).Some?
    ensures forall k :: k in m ==> m[k] == ReplyValue(r, k).value
  {
    map k | k in ReplyKeys && ReplyValue(r, k).Some? :: ReplyValue(r, k).value
  }

  /** `{...result, confidence, prediction, analysis_time, ...extra}`. */
  function Normalise(r: Reply, extra: map<Key, Json>): (a: Analysis)
    requires extra.Keys !! ReplyKeys
    ensures a.reply == r && a.prediction == PredictionOf(r) && a.confidence == ConfidenceOf(r)
    ensures Confidence in a.full && a.full[Confidence] == JNum(a.confidence)
    ensures Prediction in a.full && a.full[Prediction] == JStr(a.prediction)
    ensures AnalysisTime in a.full && a.full[AnalysisTime] == JNum(AnalysisTimeOf(r))
    ensures Score in a.full <==> !r.score.Absent?
    ensures Score in a.full ==> a.full[Score] == NumJson(r.score)
    ensures forall k :: k in extra ==> k in a.full && a.full[k] == extra[k]
    ensures a.full.Keys <= ResultKeys + extra.Keys
  {
    Analysis(r, PredictionOf(r), ConfidenceOf(r), AnalysisTimeOf(r), Spread(WithDerived(r), extra))
  }

  /** `{...result, confidence, prediction, analysis_time}`. */
  function WithDerived(r: Reply): (m: map<Key, Json>)
    ensures m.Keys <= ReplyKeys
    ensures Confidence in m && m[Confidence] == JNum(ConfidenceOf(r))
    ensures Prediction in m && m[Prediction] == JStr(PredictionOf(r))
    ensures AnalysisTime in m && m[AnalysisTime] == JNum(AnalysisTimeOf(r))
    ensures Score in m <==> !r.score.Absent?
    ensures Score in m ==> m[Score] == NumJson(r.score)
  {
    var derived := map[Confidence := JNum(ConfidenceOf(r)), Prediction := JStr(PredictionOf(r)),
                       AnalysisTime := JNum(AnalysisTimeOf(r))];
    Spread(ReplyObject(r), derived)
  }

  // ---------------------------------------------------------------------
  // Input checks made before any request is sent

  /** `!text || text.trim().length === 0`, then `text.length > 10000`. */
  function CheckText(text: string): (e: Option<Failure>)
    ensures Trim(text) == [] ==> e == Some(EmptyText)
    ensures Trim(text) != [] && |text| > MaxTextLength ==> e == Some(TextTooLong)
    ensures e.None? <==> Trim(text) != [] && |text| <= MaxTextLength
  {
    if Trim(text) == [] then Some(EmptyText)
    else if |text| > MaxTextLength then Some(TextTooLong)
    else None
  }

  /** `!url || url.trim().length === 0`, then `new URL(url)`; `urlParses`
      is whether the `URL` constructor accepts `url`. */
  function CheckUrl(url: string, urlParses: bool): (e: Option<Failure>)
    ensures Trim(url) == [] ==> e == Some(EmptyUrl)
    ensures Trim(url) != [] && !urlParses ==> e == Some(InvalidUrl)
    ensures e.None? <==> Trim(url) != [] && urlParses
  {
    if Trim(url) == [] then Some(EmptyUrl)
    else if !urlParses then Some(InvalidUrl)
    else None
  }

  /** `!file`, then `file.size > 5 * 1024 * 1024`. */
  function CheckFile(file: Option<FileInfo>): (e: Option<Failure>)
    ensures file.None? ==> e == Some(NoFile)
    ensures file.Some? && file.value.size > MaxFileSize ==> e == Some(FileTooLarge)
    ensures e.None? <==> file.Some? && file.value.size <= MaxFileSize
  {
    if file.None? then Some(NoFile)
    else if file.value.size > MaxFileSize then Some(FileTooLarge)
    else None
  }

  // ---------------------------------------------------------------------
  // The three calls

  /** The keys `analyzeText` adds: `text_length: content_length || text.length`. */
  function TextExtra(text: string, r: Reply): (m: map<Key, Json>)
    ensures m.Keys == {TextLength} && m.Keys !! ReplyKeys && m.Keys <= ResultKeys
    ensures m[TextLength] == JNum(NumOr(r.contentLength, |text| as real))
  {
    map[TextLength := JNum(NumOr(r.contentLength, |text| as real))]
  }

  /** The keys `analyzeUrl` adds: the URL and `content_length || 0`. */
  function UrlExtra(url: string, r: Reply): (m: map<Key, Json>)
    ensures m.Keys == {SourceUrl, ExtractedTextLength} && m.Keys !! ReplyKeys && m.Keys <= ResultKeys
    ensures m[SourceUrl] == JStr(url) && m[ExtractedTextLength] == JNum(NumOr(r.contentLength, 0.0))
  {
    map[SourceUrl := JStr(url), ExtractedTextLength := JNum(NumOr(r.contentLength, 0.0))]
  }

  /** The keys `analyzeFile` adds: the file's name, size and type and
      `content_length || 0`. */
  function FileExtra(f: FileInfo, r: Reply): (m: map<Key, Json>)
    ensures m.Keys == {SourceFile, FileSize, FileType, ExtractedTextLength} && m.Keys !! ReplyKeys && m.Keys <= ResultKeys
    ensures m[SourceFile] == JStr(f.name) && m[FileSize] == JNum(f.size as real)
    ensures m[FileType] == JStr(f.mime) && m[ExtractedTextLength] == JNum(NumOr(r.contentLength, 0.0))
  {
    map[SourceFile := JStr(f.name), FileSize := JNum(f.size as real), FileType := JStr(f.mime),
        ExtractedTextLength := JNum(NumOr(r.contentLength, 0.0))]
  }

  /** `analyzeText(text)` given the outcome of its request. */
  function AnalyzeText(text: string, reply: Option<Reply>): (res: Result<Analysis, Failure>)
    ensures CheckText(text).Some? ==> res == Failure(CheckText(text).value)
    ensures res.Success? <==> CheckText(text).None? && reply.Some?
    ensures res.Failure? && CheckText(text).None? ==> res.error == RemoteFailed
    ensures res.Success? ==> Normalised(res.value)
    ensures res.Success? ==> res.value.reply == reply.value
  {
    if CheckText(text).Some? then Failure(CheckText(text).value)
    else if reply.None? then Failure(RemoteFailed)
    else Success(Normalise(reply.value, TextExtra(text, reply.value)))
  }

  /** `analyzeUrl(url)` given the outcome of its request. */
  function AnalyzeUrl(url: string, urlParses: bool, reply: Option<Reply>): (res: Result<Analysis, Failure>)
    ensures CheckUrl(url, urlParses).Some? ==> res == Failure(CheckUrl(url, urlParses).value)
    ensures res.Success? <==> CheckUrl(url, urlParses).None? && reply.Some?
    ensures res.Failure? && CheckUrl(url, urlParses).None? ==> res.error == RemoteFailed
    ensures res.Success? ==> Normalised(res.value)
    ensures res.Success? ==> res.value.reply == reply.value
  {
    if CheckUrl(url, urlParses).Some? then Failure(CheckUrl(url, urlParses).value)
    else if reply.None? then Failure(RemoteFailed)
    else Success(Normalise(reply.value, UrlExtra(url, reply.value)))
  }

  /** `analyzeFile(file)` given the outcome of its request. */
  function AnalyzeFile(file: Option<FileInfo>, reply: Option<Reply>): (res: Result<Analysis, Failure>)
    ensures CheckFile(file).Some? ==> res == Failure(CheckFile(file).value)
    ensures res.Success? <==> CheckFile(file).None? && reply.Some?
    ensures res.Failure? && CheckFile(file).None? ==> res.error == RemoteFailed
    ensures res.Success? ==> Normalised(res.value)
    ensures res.Success? ==> res.value.reply == reply.value
  {
    if CheckFile(file).Some? then Failure(CheckFile(file).value)
    else if reply.None? then Failure(RemoteFailed)
    else Success(Normalise(reply.value, FileExtra(file.value, reply.value)))
  }

  /** A successful `analyzeText` records the text length (the backend's
      `content_length` when truthy) and carries only known keys. */
  lemma AnalyzeTextRecord(text: string, reply: Option<Reply>)
    requires AnalyzeText(text, reply).Success?
    ensures var full := AnalyzeText(text, reply).value.full;
            && TextLength in full
            && full[TextLength] == JNum(NumOr(reply.value.contentLength, |text| as real))
            && full.Keys <= ResultKeys
  {
  }

  /** A successful `analyzeUrl` records the URL as given. */
  lemma AnalyzeUrlRecord(url: string, urlParses: bool, reply: Option<Reply>)
    requires AnalyzeUrl(url, urlParses, reply).Success?
    ensures var full := AnalyzeUrl(url, urlParses, reply).value.full;
            && SourceUrl in full && full[SourceUrl] == JStr(url)
            && ExtractedTextLength in full
            && full[ExtractedTextLength] == JNum(NumOr(reply.value.contentLength, 0.0))
            && full.Keys <= ResultKeys
  {
  }

  /** A successful `analyzeFile` records the file's name, size and type. */
  lemma AnalyzeFileRecord(file: Option<FileInfo>, reply: Option<Reply>)
    requires AnalyzeFile(file, reply).Success?
    ensures var full := AnalyzeFile(file, reply).value.full;
            && SourceFile in full && full[SourceFile] == JStr(file.value.name)
            && FileSize in full && full[FileSize] == JNum(file.value.size as real)
            && FileType in full && full[FileType] == JStr(file.value.mime)
            && full.Keys <= ResultKeys
  {
  }
}
