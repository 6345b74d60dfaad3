/**
 * The unified input box: free text or one accepted file, never both, and a
 * submit that prefers the file, then non-empty trimmed text classified by
 * the `URL` constructor. Whether that constructor accepts a string is a
 * parameter.
 */
module UnifiedInput {
  import opened Wrappers
  import opened JsText
  import opened Analyzer

  /** `value` and `selectedFile`. */
  datatype Box = Box(value: string, file: Option<FileInfo>)

  const Empty: Box := Box("", None)

  const ValidTypes: seq<string> := ["text/plain", "application/pdf", "text/html", "text/csv"]
  const ValidExtensions: seq<string> := [".txt", ".pdf", ".html", ".htm", ".csv", ".md"]

  function HasExtensionFrom(name: string, exts: seq<string>): (r: bool)
    ensures r <==> exists i :: 0 <= i < |exts| && EndsWith(name, exts[i])
  {
    if exts == [] then false
    else EndsWith(name, exts[0]) || HasExtensionFrom(name, exts[1..])
  }

  /** `validTypes.includes(file.type) || validExtensions.some(ext =>
      file.name.toLowerCase().endsWith(ext))`. */
  function Accepts(f: FileInfo): (r: bool)
    ensures r <==> f.mime in ValidTypes || exists i :: 0 <= i < |ValidExtensions| && EndsWith(Lower(f.name), ValidExtensions[i])
  {
    f.mime in ValidTypes || HasExtensionFrom(Lower(f.name), ValidExtensions)
  }

  /** `handleFileSelection`: an accepted file replaces the selection and
      clears the text; a rejected one changes nothing. */
  function SelectFile(b: Box, f: FileInfo): (r: Box)
    ensures Accepts(f) ==> r == Box("", Some(f))
    ensures !Accepts(f) ==> r == b
  {
    if Accepts(f) then Box("", Some(f)) else b
  }

  /** `handleTextChange`: the text replaces the value and the file goes. */
  function TypeText(b: Box, text: string): (r: Box)
    ensures r == Box(text, None)
  {
    Box(text, None)
  }

  /** `clearAll`. */
  function ClearAll(b: Box): (r: Box)
    ensures r == Empty
  {
    Empty
  }

  /** What `onSubmit` receives. */
  datatype Sent = SentFile(file: FileInfo) | SentText(text: string, kind: Kind)

  /** `handleSubmit`; `isUrl` is whether `new URL` accepts the trimmed text. */
  function Submit(b: Box, isUrl: bool): (r: Option<Sent>)
    ensures b.file.Some? ==> r == Some(SentFile(b.file.value))
    ensures b.file.None? && Trim(b.value) != [] ==> r == Some(SentText(Trim(b.value), if isUrl then Url else Text))
    ensures b.file.None? && Trim(b.value) == [] ==> r.None?
  {
    if b.file.Some? then Some(SentFile(b.file.value))
    else if Trim(b.value) != [] then Some(SentText(Trim(b.value), if isUrl then Url else Text))
    else None
  }

  /** `hasContent`. */
  predicate HasContent(b: Box) {
    Trim(b.value) != [] || b.file.Some?
  }

  /** `contentType`. */
  function ContentType(b: Box, isUrl: bool): Kind {
    if b.file.Some? then File else if isUrl then Url else Text
  }

  /** Submitting sends something exactly when there is content, and what it
      sends has the displayed content type; sent text is already trimmed
      and never blank. */
  lemma SubmitMatchesDisplay(b: Box, isUrl: bool)
    ensures Submit(b, isUrl).Some? <==> HasContent(b)
    ensures Submit(b, isUrl).Some? ==> Submit(b, isUrl).value.SentFile? == (ContentType(b, isUrl) == File)
    ensures Submit(b, isUrl).Some? && Submit(b, isUrl).value.SentText? ==>
      var t := Submit(b, isUrl).value.text;
      Submit(b, isUrl).value.kind == ContentType(b, isUrl) && t == Trim(t) && !AllSpace(t)
  {
    if b.file.None? && Trim(b.value) != [] {
      var t := Trim(b.value);
      TrimIdempotent(b.value);
      TrimEmptyIff(t);
    }
  }

  /** Whitespace-only text submits nothing. */
  lemma BlankSubmitsNothing(b: Box, isUrl: bool)
    requires b.file.None? && AllSpace(b.value)
    ensures Submit(b, isUrl).None?
  {
    TrimEmptyIff(b.value);
  }

  /** The extension test ignores case. */
  lemma AcceptsUpperCaseExtension()
    ensures Accepts(FileInfo("INFORME.PDF", 1, ""))
  {
    var l := Lower("INFORME.PDF");
    assert l[7] == LowerChar('.') == '.';
    assert l[8] == LowerChar('P') == 'p' by { assert 'P' as int == 80; assert 112 as char == 'p'; }
    assert l[9] == LowerChar('D') == 'd' by { assert 'D' as int == 68; assert 100 as char == 'd'; }
    assert l[10] == LowerChar('F') == 'f' by { assert 'F' as int == 70; assert 102 as char == 'f'; }
    assert l[|l| - 4..] == ".pdf";
    assert EndsWith(l, ValidExtensions[1]);
  }

  /** A listed MIME type is enough on its own. */
  lemma AcceptsListedType()
    ensures Accepts(FileInfo("datos", 1, "text/csv"))
  {
    assert "text/csv" == ValidTypes[3];
  }

  /** An unlisted type with an unlisted extension is refused. */
  lemma RejectsImage()
    ensures !Accepts(FileInfo("foto.png", 1, "image/png"))
  {
    var png := Lower("foto.png");
    assert png == "foto.png";
    assert png[|png| - 4..] == ".png" && png[|png| - 3..] == "png";
    assert forall i :: 0 <= i < |ValidExtensions| ==> !EndsWith(png, ValidExtensions[i]);
  }

  /** The inputs of the box. */
  datatype Event =
    | Typed(text: string)
    | Chosen(chosen: Option<FileInfo>)   // the file input or a drop
    | Cleared

  /** Typing needs the text area, which is not rendered while a file is
      selected, so it has no effect then. */
  function Apply(b: Box, e: Event): Box {
    match e
    case Typed(text) => if b.file.Some? then b else TypeText(b, text)
    case Chosen(f) => if f.Some? then SelectFile(b, f.value) else b
    case Cleared => ClearAll(b)
  }

  function Run(b: Box, events: seq<Event>): Box
    decreases |events|
  {
    if events == [] then b else Run(Apply(b, events[0]), events[1..])
  }

  /** Text and a file are never held together. */
  predicate Exclusive(b: Box) {
    b.file.Some? ==> b.value == ""
  }

  /** Every selected file was accepted. */
  predicate FileAccepted(b: Box) {
    b.file.Some? ==> Accepts(b.file.value)
  }

  /** From the empty box, every sequence of events keeps text and file
      apart and holds only accepted files. */
  lemma {:induction false} RunInvariant(b: Box, events: seq<Event>)
    requires Exclusive(b) && FileAccepted(b)
    ensures Exclusive(Run(b, events)) && FileAccepted(Run(b, events))
    decreases |events|
  {
    if events != [] {
      RunInvariant(Apply(b, events[0]), events[1..]);
    }
  }

  /** So a submitted file never silently drops typed text. */
  lemma SubmittedFileHidesNoText(events: seq<Event>, isUrl: bool)
    requires Run(Empty, events).file.Some?
    ensures Run(Empty, events).value == ""
    ensures Submit(Run(Empty, events), isUrl) == Some(SentFile(Run(Empty, events).file.value))
  {
    RunInvariant(Empty, events);
  }
}
