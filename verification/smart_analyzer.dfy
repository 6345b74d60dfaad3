/**
 * The smart analyzer form of the main application: a text area and a file
 * slot, the detected input kind, the character limit, and the submit that
 * calls `analyzeText`, `analyzeUrl` or `analyzeFile` and reports the
 * normalised result. The remote reply is a parameter of `Submit`.
 */
module SmartAnalyzer {
  import opened Wrappers
  import opened JsText
  import opened Analyzer
  import opened UrlPattern
  import opened InputKind

  const MaxChars: nat := 10000

  /** The form; its error holds the failure whose message is shown. */
  type Form = AnalyzerForm<Failure>

  const Initial: Form := AnalyzerForm("", None, false, None)

  function Detected(s: Form): Option<Kind> {
    DetectKind(Strict, s.raw, s.file.Some?)
  }

  /** `trimmed.length > MAX_CHARS`. */
  predicate OverLimit(s: Form) {
    |Trim(s.raw)| > MaxChars
  }

  /** `disabled={!detectedType || loading || overLimit}`. */
  predicate SubmitDisabled(s: Form) {
    Detected(s).None? || s.loading || OverLimit(s)
  }

  /** `handleFileChange`: the picked file, or none, replaces the selection;
      picking a file empties the text. */
  function FileChange(s: Form, f: Option<FileInfo>): (t: Form)
    ensures t.file == f && t.loading == s.loading && t.error == s.error
    ensures t.raw == (if f.Some? then "" else s.raw)
  {
    if f.Some? then s.(file := f, raw := "") else s.(file := None)
  }

  /** `handleDrop`: a dropped file replaces the selection and empties the
      text; a drop without files changes nothing. */
  function Drop(s: Form, f: Option<FileInfo>): (t: Form)
    ensures f.None? ==> t == s
    ensures f.Some? ==> t == s.(file := f, raw := "")
  {
    if f.Some? then s.(file := f, raw := "") else s
  }

  /** What `onSubmit` receives: `{type, value, fileName, backend}`. */
  datatype Submission = Submission(kind: Kind, value: string, fileName: Option<string>, backend: Analysis)

  /** The call `submit` makes for the detected kind. */
  function Call(kind: Kind, s: Form, reply: Option<Reply>, urlParses: bool): Result<Analysis, Failure> {
    match kind
    case File => AnalyzeFile(s.file, reply)
    case Url => AnalyzeUrl(Trim(s.raw), urlParses, reply)
    case Text => AnalyzeText(Trim(s.raw), reply)
  }

  datatype Step = Step(form: Form, emitted: Option<Submission>)

  /** `submit`, from the click to the `finally`. */
  function Submit(s: Form, reply: Option<Reply>, urlParses: bool): (r: Step)
    ensures Detected(s).None? || s.loading ==> r == Step(s, None)
    ensures Detected(s).Some? && !s.loading ==>
      var kind := Detected(s).value;
      var res := Call(kind, s, reply, urlParses);
      && !r.form.loading
      && (r.emitted.Some? <==> res.Success?)
      && (res.Failure? ==> r.form == s.(error := Some(res.error)))
      && (res.Success? ==>
            && r.emitted.value.kind == kind
            && r.emitted.value.backend == res.value
            && r.emitted.value.fileName == FileNameOf(s.file)
            && r.form == AfterSuccess(s, kind))
  {
    if Detected(s).None? || s.loading then Step(s, None)
    else
      var kind := Detected(s).value;
      match Call(kind, s, reply, urlParses)
      case Success(a) =>
        var value := if kind == File then s.file.value.name else Trim(s.raw);
        Step(AfterSuccess(s, kind),
             Some(Submission(kind, value, FileNameOf(s.file), a)))
      case Failure(e) => Step(s.(loading := false, error := Some(e)), None)
  }

  /** The reported value is the file's name for a file and the trimmed text
      otherwise; detecting the reported text again gives the same kind. */
  lemma SubmittedValue(s: Form, reply: Option<Reply>, urlParses: bool)
    requires Submit(s, reply, urlParses).emitted.Some?
    ensures var sub := Submit(s, reply, urlParses).emitted.value;
            && (sub.kind == File ==> s.file.Some? && sub.value == s.file.value.name)
            && (sub.kind != File ==> sub.value == Trim(s.raw) && DetectKind(Strict, sub.value, false) == Some(sub.kind))
  {
    DetectTrimmed(Strict, s.raw, false);
  }

  /** The character limit is not checked by `submit` itself, but a text over
      it fails in `analyzeText` with the too-long error and nothing is
      reported. */
  lemma OverLimitTextRejected(s: Form, reply: Option<Reply>, urlParses: bool)
    requires Detected(s) == Some(Text) && OverLimit(s) && !s.loading
    ensures Submit(s, reply, urlParses) == Step(s.(error := Some(TextTooLong)), None)
  {
    var t := Trim(s.raw);
    TrimEmptyIff(t);
    assert !AllSpace(t) by {
      assert !IsSpace(t[0]);
    }
  }

  /** An enabled button always leads to a call: either something is
      reported or an error is shown. */
  lemma EnabledSubmitActs(s: Form, reply: Option<Reply>, urlParses: bool)
    requires !SubmitDisabled(s)
    ensures var r := Submit(s, reply, urlParses);
            r.emitted.Some? || r.form.error.Some?
  {
  }

  /** The form's inputs, one per event handler. */
  datatype Event =
    | Typed(text: string)
    | PickedFile(picked: Option<FileInfo>)
    | Dropped(dropped: Option<FileInfo>)
    | ClearedFile
    | Submitted(reply: Option<Reply>, urlParses: bool)

  function Apply(s: Form, e: Event): Form {
    match e
    case Typed(text) => TypeText(s, text)
    case PickedFile(f) => FileChange(s, f)
    case Dropped(f) => Drop(s, f)
    case ClearedFile => ClearFile(s)
    case Submitted(reply, urlParses) => Submit(s, reply, urlParses).form
  }

  function Run(s: Form, events: seq<Event>): Form
    decreases |events|
  {
    if events == [] then s else Run(Apply(s, events[0]), events[1..])
  }

  /** A selected file and leftover text never coexist. */
  predicate NoTextWithFile(s: Form) {
    s.file.Some? ==> s.raw == ""
  }

  lemma ApplyKeepsNoTextWithFile(s: Form, e: Event)
    requires NoTextWithFile(s)
    ensures NoTextWithFile(Apply(s, e))
  {
  }

  /** From the empty form, every sequence of events keeps text and file
      apart, so a detected file never hides text. */
  lemma {:induction false} RunKeepsNoTextWithFile(s: Form, events: seq<Event>)
    requires NoTextWithFile(s)
    ensures NoTextWithFile(Run(s, events))
    decreases |events|
  {
    if events != [] {
      ApplyKeepsNoTextWithFile(s, events[0]);
      RunKeepsNoTextWithFile(Apply(s, events[0]), events[1..]);
    }
  }

  /** Once the file is removed the form is empty, whatever was typed before
      it was chosen. */
  lemma ClearFileLeavesNothing(events: seq<Event>)
    requires Run(Initial, events).file.Some?
    ensures Detected(ClearFile(Run(Initial, events))).None?
  {
    RunKeepsNoTextWithFile(Initial, events);
  }
}
