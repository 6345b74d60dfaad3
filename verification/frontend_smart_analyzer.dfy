/**
 * The smart analyzer form of the second front end: the same detection with
 * the looser `URL_REGEX`, a submit whose payload goes to a backend call
 * whose outcome is a parameter, and a local fallback that still reports the
 * payload when that call fails.
 */
module FrontendAnalyzer {
  import opened Wrappers
  import opened JsText
  import opened JsValue
  import opened Analyzer
  import opened UrlPattern
  import opened InputKind

  const UnknownError: string := "Error desconocido"

  /** The form; its error is the message shown. */
  type Form = AnalyzerForm<string>

  const Initial: Form := AnalyzerForm("", None, false, None)

  /** The backend response as far as it is read: `source_type` and `score`. */
  datatype Backend = Backend(sourceType: string, score: Field<real>)

  /** The object given to `onSubmit`. `value` is `None` where the payload
      carries the `File` itself, which is never read as text. */
  datatype Submission = Submission(
    kind: string,
    value: Option<string>,
    fileName: Option<string>,
    backend: Option<Backend>)

  function KindName(k: Kind): (n: string)
    ensures n in {"text", "url", "file"}
  {
    match k
    case Text => "text"
    case Url => "url"
    case File => "file"
  }

  function Detected(s: Form): Option<Kind> {
    DetectKind(Loose, s.raw, s.file.Some?)
  }

  /** `handleFileChange`: `setFile(f || null)`; the text stays. */
  function FileChange(s: Form, f: Option<FileInfo>): (t: Form)
    ensures t.file == f && t.raw == s.raw && t.loading == s.loading && t.error == s.error
  {
    s.(file := f)
  }

  /** `handleDrop`: a dropped file replaces the selection; the text stays. */
  function Drop(s: Form, f: Option<FileInfo>): (t: Form)
    ensures f.None? ==> t == s
    ensures f.Some? ==> t == s.(file := f)
  {
    if f.Some? then s.(file := f) else s
  }

  /** The payload: the detected type, the trimmed text (or the file), and
      the file name. */
  function Payload(s: Form, kind: Kind): (p: Submission)
    ensures p.kind == KindName(kind) && p.backend.None?
    ensures p.fileName == FileNameOf(s.file)
    ensures p.value == (if kind == File then None else Some(Trim(s.raw)))
  {
    Submission(KindName(kind), if kind == File then None else Some(Trim(s.raw)), FileNameOf(s.file), None)
  }

  datatype Step = Step(form: Form, emitted: Option<Submission>)

  /** `err.message || 'Error desconocido'`. */
  function ErrorText(message: string): (r: string)
    ensures r != ""
    ensures message != "" ==> r == message
  {
    if message != "" then message else UnknownError
  }

  /** `submit`; `outcome` is the backend response or the message of the
      error the call threw. */
  function Submit(s: Form, outcome: Result<Backend, string>): (r: Step)
    ensures Detected(s).None? || s.loading ==> r == Step(s, None)
    ensures Detected(s).Some? && !s.loading ==>
      var kind := Detected(s).value;
      && r.emitted.Some?
      && !r.form.loading
      && r.emitted.value.fileName == FileNameOf(s.file)
      && (outcome.Failure? ==>
            && r.emitted.value == Payload(s, kind)
            && r.form == s.(error := Some(ErrorText(outcome.error))))
      && (outcome.Success? ==>
            && r.emitted.value.kind == outcome.value.sourceType
            && r.emitted.value.backend == Some(outcome.value)
            && r.form == AfterSuccess(s, kind))
  {
    if Detected(s).None? || s.loading then Step(s, None)
    else
      var kind := Detected(s).value;
      var payload := Payload(s, kind);
      match outcome
      case Success(res) =>
        var value := if kind == File then payload.fileName else payload.value;
        Step(AfterSuccess(s, kind),
             Some(Submission(res.sourceType, value, payload.fileName, Some(res))))
      case Failure(message) =>
        Step(s.(loading := false, error := Some(ErrorText(message))), Some(payload))
  }

  /** After a successful call the reported value is the file name for a
      file and the trimmed text otherwise. */
  lemma SuccessValue(s: Form, res: Backend)
    requires Detected(s).Some? && !s.loading
    ensures var sub := Submit(s, Success(res)).emitted.value;
            && (Detected(s) == Some(File) ==> sub.value == FileNameOf(s.file))
            && (Detected(s) != Some(File) ==> sub.value == Some(Trim(s.raw)))
  {
  }

  /** A failed call still reports the payload, typed with the detected kind
      and without a backend result. */
  lemma FallbackReportsPayload(s: Form, message: string)
    requires Detected(s).Some? && !s.loading
    ensures var sub := Submit(s, Failure(message)).emitted.value;
            && sub.kind == KindName(Detected(s).value)
            && sub.backend.None?
            && Submit(s, Failure(message)).form.error.Some?
  {
  }

  /** Choosing a file keeps the text: detection says file, and removing
      the file brings the earlier text back. */
  lemma FileHidesText(s: Form, f: FileInfo)
    ensures Detected(FileChange(s, Some(f))) == Some(File)
    ensures Detected(ClearFile(FileChange(s, Some(f)))) == DetectKind(Loose, s.raw, false)
  {
  }

  /** After a file was sent, the text typed before choosing it is still in
      the form and is detected again. */
  lemma TextSurvivesFileSubmit(s: Form, res: Backend)
    requires Detected(s) == Some(File) && !s.loading
    ensures Submit(s, Success(res)).form.raw == s.raw
    ensures Detected(Submit(s, Success(res)).form) == DetectKind(Loose, s.raw, false)
  {
  }
}
