/**
 * JavaScript values as the client sees them in the backend's JSON replies:
 * a key that is absent, present with `null`, or present with a value; JSON
 * objects whose keys merge with "later keys win" under the spread operator;
 * and `Math.round`.
 */
module JsValue {

  /** One key of a reply object: missing, `null`, or carrying a value. */
  datatype Field<+T> = Absent | Null | Val(v: T) {

    /** `x ?? y`: the value unless the key is missing or `null`. */
    function OrElse(other: T): T {
      if Val? then v else other
    }
  }

  /** `s || fallback` for a string key: empty strings are falsy. */
  function StrOr(f: Field<string>, fallback: string): (r: string)
    ensures f.Val? && f.v != "" ==> r == f.v
    ensures !(f.Val? && f.v != "") ==> r == fallback
  {
    if f.Val? && f.v != "" then f.v else fallback
  }

  /** `x || fallback` for a numeric key: zero is falsy (NaN is not modelled). */
  function NumOr(f: Field<real>, fallback: real): (r: real)
    ensures f.Val? && f.v != 0.0 ==> r == f.v
    ensures !(f.Val? && f.v != 0.0) ==> r == fallback
  {
    if f.Val? && f.v != 0.0 then f.v else fallback
  }

  /** The object keys the client reads or writes, each with its JSON name. */
  datatype Key =
    | Prediction | Classification | Label | Confidence | Score
    | AnalysisTimeMs | AnalysisTime | ProcessingTime | ContentLength
    | TextLength | SourceUrl | ExtractedTextLength | SourceFile | FileSize | FileType
    | ModelId | ModelName | Language | Accuracy | FullResult
    | MultiModelAnalysis | TotalModels | FakeVotes | RealVotes | UncertainVotes
    | AverageConfidence | AverageScore | ConsensusStrength | IndividualResults
    | FactCheck | Source | ClaimsFound | ScoreAdjustment
  {
    function Name(): string {
      match this
      case Prediction => "prediction"
      case Classification => "classification"
      case Label => "label"
      case Confidence => "confidence"
      case Score => "score"
      case AnalysisTimeMs => "analysis_time_ms"
      case AnalysisTime => "analysis_time"
      case ProcessingTime => "processing_time"
      case ContentLength => "content_length"
      case TextLength => "text_length"
      case SourceUrl => "source_url"
      case ExtractedTextLength => "extracted_text_length"
      case SourceFile => "source_file"
      case FileSize => "file_size"
      case FileType => "file_type"
      case ModelId => "model_id"
      case ModelName => "model_name"
      case Language => "language"
      case Accuracy => "accuracy"
      case FullResult => "full_result"
      case MultiModelAnalysis => "multi_model_analysis"
      case TotalModels => "total_models"
      case FakeVotes => "fake_votes"
      case RealVotes => "real_votes"
      case UncertainVotes => "uncertain_votes"
      case AverageConfidence => "average_confidence"
      case AverageScore => "average_score"
      case ConsensusStrength => "consensus_strength"
      case IndividualResults => "individual_results"
      case FactCheck => "fact_check"
      case Source => "source"
      case ClaimsFound => "claims_found"
      case ScoreAdjustment => "score_adjustment"
    }
  }

  /** A JSON value; object keys are the known keys above. */
  datatype Json =
    | JNull
    | JBool(b: bool)
    | JNum(n: real)
    | JStr(s: string)
    | JArr(items: seq<Json>)
    | JObj(fields: map<Key, Json>)

  /** The JSON form of a numeric key that is present. */
  function NumJson(f: Field<real>): Json
    requires !f.Absent?
  {
    if f.Val? then JNum(f.v) else JNull
  }

  function StrJson(f: Field<string>): Json
    requires !f.Absent?
  {
    if f.Val? then JStr(f.v) else JNull
  }

  /** `{...a, ...b}`: every key of either, the value of `b` where both have one. */
  function Spread(a: map<Key, Json>, b: map<Key, Json>): (r: map<Key, Json>)
    ensures forall k :: k in r <==> k in a || k in b
    ensures forall k :: k in b ==> r[k] == b[k]
    ensures forall k :: k in a && k !in b ==> r[k] == a[k]
  {
    a + b
  }

  /** `Math.round`: the nearest integer, halves rounded up. */
  function Round(x: real): (r: int)
    ensures r as real - 0.5 <= x < r as real + 0.5
  {
    (x + 0.5).Floor
  }
}
