/**
 * `detectedType` of the two smart analyzers: a selected file wins, then
 * trimmed text without CR or LF that `URL_REGEX` accepts is a URL, then any
 * other non-empty trimmed text is text, and otherwise nothing is detected.
 */
module InputKind {
  import opened Wrappers
  import opened JsText
  import opened Analyzer
  import opened UrlPattern

  /** `detectedType`; `f` selects the component's `URL_REGEX`. */
  function DetectKind(f: Flavour, raw: string, hasFile: bool): (k: Option<Kind>)
    ensures hasFile ==> k == Some(File)
    ensures !hasFile ==> (k == Some(Url) <==> Matches(f, Trim(raw)))
    ensures !hasFile ==> (k == Some(Text) <==> Trim(raw) != [] && !Matches(f, Trim(raw)))
    ensures k.None? <==> !hasFile && AllSpace(raw)
  {
    var trimmed := Trim(raw);
    TrimEmptyIff(raw);
    UrlGuard(f, trimmed);
    if hasFile then Some(File)
    else if trimmed != [] && '\r' !in trimmed && '\n' !in trimmed && IsUrl(f, trimmed) then Some(Url)
    else if |trimmed| > 0 then Some(Text)
    else None
  }

  /** The CR/LF test in front of `URL_REGEX` never rejects anything the
      expression accepts, in either component. */
  lemma UrlGuard(f: Flavour, t: string)
    ensures Matches(f, t) ==> t != [] && '\r' !in t && '\n' !in t
  {
    if Matches(f, t) {
      MatchesNoSpace(f, t);
    }
  }

  /** Text the strict expression calls a URL the loose one does too. */
  lemma StrictUrlIsLooseUrl(raw: string)
    requires DetectKind(Strict, raw, false) == Some(Url)
    ensures DetectKind(Loose, raw, false) == Some(Url)
  {
    StrictImpliesLoose(Trim(raw));
  }

  /** Detection depends on the text only through its trimmed form. */
  lemma DetectTrimmed(f: Flavour, raw: string, hasFile: bool)
    ensures DetectKind(f, Trim(raw), hasFile) == DetectKind(f, raw, hasFile)
  {
    TrimIdempotent(raw);
  }

  // ---------------------------------------------------------------------
  // The form state both smart analyzers keep

  /** `raw`, `file`, `loading` and `error`; `E` is what the shown error
      holds in the component. */
  datatype AnalyzerForm<E> = AnalyzerForm(raw: string, file: Option<FileInfo>, loading: bool, error: Option<E>)

  /** The text area's `onChange`. The text area is rendered only while no
      file is selected, so typing then changes nothing. */
  function TypeText<E(==)>(s: AnalyzerForm<E>, text: string): (t: AnalyzerForm<E>)
    ensures s.file.None? ==> t == s.(raw := text)
    ensures s.file.Some? ==> t == s
  {
    if s.file.Some? then s else s.(raw := text)
  }

  /** The clear-file button: only the file goes. */
  function ClearFile<E(==)>(s: AnalyzerForm<E>): (t: AnalyzerForm<E>)
    ensures t.file.None? && t.raw == s.raw && t.loading == s.loading && t.error == s.error
  {
    s.(file := None)
  }

  /** `file?.name || null`. */
  function FileNameOf(f: Option<FileInfo>): (r: Option<string>)
    ensures r.Some? <==> f.Some? && f.value.name != ""
    ensures r.Some? ==> r.value == f.value.name
  {
    if f.Some? && f.value.name != "" then Some(f.value.name) else None
  }

  /** The form after a reported submission: the file and the error are gone,
      loading has ended, and the text is cleared unless a file was sent. */
  function AfterSuccess<E>(s: AnalyzerForm<E>, kind: Kind): (t: AnalyzerForm<E>)
    ensures t.file.None? && !t.loading && t.error.None?
    ensures kind == File ==> t.raw == s.raw
    ensures kind != File ==> t.raw == ""
  {
    AnalyzerForm(if kind == File then s.raw else "", None, false, None)
  }
}
