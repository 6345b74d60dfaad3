/**
 * `handleSmartSubmit` of the second front end: a submission from the smart
 * analyzer becomes the argument of `addAnalysis`, with a label and preview
 * chosen by input type and, when the backend answered, its 0-1 score scaled
 * to a rounded 0-100 score.
 */
module AppSubmit {
  import opened Wrappers
  import opened JsValue
  import opened Verdicts
  import opened MetricsStore
  import opened FrontendAnalyzer
  import opened InputKind

  const FileLabel: string := "Archivo"
  const TextLabel: string := "Texto"

  /** `type === 'file' ? (fileName || 'Archivo') : (type === 'url' ? value : 'Texto')`. */
  function SourceLabel(sub: Submission): (r: Option<string>)
    ensures sub.kind == "file" ==> r.Some? && (r.value == FileLabel || Some(r.value) == sub.fileName)
    ensures sub.kind == "file" && sub.fileName.Some? && sub.fileName.value != "" ==> r == sub.fileName
    ensures sub.kind == "url" ==> r == sub.value
    ensures sub.kind != "file" && sub.kind != "url" ==> r == Some(TextLabel)
  {
    if sub.kind == "file" then
      Some(if sub.fileName.Some? && sub.fileName.value != "" then sub.fileName.value else FileLabel)
    else if sub.kind == "url" then sub.value
    else Some(TextLabel)
  }

  /** `Math.round((backend.score ?? 0) * 100)`. */
  function BackendScore(b: Backend): (n: int)
    ensures (n as real - 0.5) / 100.0 <= b.score.OrElse(0.0) < (n as real + 0.5) / 100.0
  {
    Round(b.score.OrElse(0.0) * 100.0)
  }

  /** The object passed to `addAnalysis`. */
  function ToPartial(sub: Submission): (p: Partial)
    ensures p.inputType == sub.kind
    ensures p.sourceLabel == SourceLabel(sub)
    ensures p.preview == (if sub.kind == "file" then sub.fileName else sub.value)
    ensures p.score.Some? <==> sub.backend.Some?
    ensures sub.backend.Some? ==> p.score == Some(BackendScore(sub.backend.value))
  {
    Partial(sub.kind, SourceLabel(sub),
            if sub.kind == "file" then sub.fileName else sub.value,
            if sub.backend.Some? then Some(BackendScore(sub.backend.value)) else None)
  }

  /** `handleSmartSubmit`; `generated` is the random score `addAnalysis`
      draws when none is given. */
  function HandleSmartSubmit(store: Store, sub: Submission, generated: int, today: int): (r: Added)
    ensures r.store.analyses == [r.entry] + store.analyses
    ensures r.entry.inputType == sub.kind
    ensures sub.backend.None? ==> r.entry.score == generated
    ensures sub.backend.Some? ==> r.entry.score == BackendScore(sub.backend.value)
  {
    AddAnalysis(store, ToPartial(sub), generated, today)
  }

  /** A backend score in [0, 1] is stored in [0, 100]. */
  lemma ScaledScoreInRange(store: Store, sub: Submission, generated: int, today: int)
    requires sub.backend.Some? && sub.backend.value.score.Val?
    requires 0.0 <= sub.backend.value.score.v <= 1.0
    ensures 0 <= HandleSmartSubmit(store, sub, generated, today).entry.score <= 100
  {
  }

  /** A backend answer without a score is stored as 0, hence real. */
  lemma MissingScoreIsReal(store: Store, sub: Submission, generated: int, today: int)
    requires sub.backend.Some? && !sub.backend.value.score.Val?
    ensures HandleSmartSubmit(store, sub, generated, today).entry.score == 0
    ensures HandleSmartSubmit(store, sub, generated, today).entry.result == Real
  {
  }

  /** With a backend answer the entry is fake exactly when the 0-1 score is
      at least 0.555, the point where rounding passes 55. */
  lemma FakeIffBackendScoreAtLeast(store: Store, sub: Submission, generated: int, today: int)
    requires sub.backend.Some?
    ensures HandleSmartSubmit(store, sub, generated, today).entry.result == Fake
            <==> sub.backend.value.score.OrElse(0.0) >= 0.555
  {
    var x := sub.backend.value.score.OrElse(0.0);
    var n := BackendScore(sub.backend.value);
    assert n as real - 0.5 <= x * 100.0 < n as real + 0.5;
  }

  /** A file sent while the backend failed is labelled with its name, or
      "Archivo" when it has none, previewed by that name, and scored with
      the locally drawn score. */
  lemma FileFallbackEntry(form: FrontendAnalyzer.Form, message: string, store: Store, generated: int, today: int)
    requires FrontendAnalyzer.Detected(form) == Some(Analyzer.File) && !form.loading
    ensures var sub := FrontendAnalyzer.Submit(form, Failure(message)).emitted.value;
            var e := HandleSmartSubmit(store, sub, generated, today).entry;
            && e.inputType == "file"
            && e.sourceLabel == Some(if form.file.value.name != "" then form.file.value.name else FileLabel)
            && e.preview == PreviewOf(FileNameOf(form.file))
            && e.score == generated
  {
  }

  /** Text sent while the backend failed is labelled "Texto", previewed by
      the first 120 characters of the trimmed text and scored locally. */
  lemma TextFallbackEntry(form: FrontendAnalyzer.Form, message: string, store: Store, generated: int, today: int)
    requires FrontendAnalyzer.Detected(form) == Some(Analyzer.Text) && !form.loading
    ensures var sub := FrontendAnalyzer.Submit(form, Failure(message)).emitted.value;
            var e := HandleSmartSubmit(store, sub, generated, today).entry;
            && e.inputType == "text"
            && e.sourceLabel == Some(TextLabel)
            && e.preview == PreviewOf(Some(JsText.Trim(form.raw)))
            && e.score == generated
  {
  }
}
