# Fake-News-Total: the analysis client, modelled in Dafny

Fake-News-Total is a web application that asks one or more remote
machine-learning models whether a piece of news (pasted text, a URL or an
uploaded document) is `fake` or `real`. This project models the client-side
core of that application and proves properties of it:

- the single-model calls `analyzeText`, `analyzeUrl` and `analyzeFile`: their
  input checks (empty text, 10 000-character limit, empty or unparsable URL,
  missing file, 5 MB limit) and the normalisation of the heterogeneous
  `/analyze/` reply into an object whose `confidence`, `prediction` and
  `analysis_time` keys are always set (module `Analyzer`);
- `analyzeWithAllModels`, the multi-model analysis:
  - every model of the catalog analyses the same input and failures are
    skipped (`MultiModel`);
  - for text only, an evidence step runs (`Evidence`): the hard-coded
    temporal rule about Piñera's death, and the keyword classification of
    fact-check ratings into a score adjustment and a verdict override;
  - the consensus (`Consensus`) counts the vote buckets, averages the
    confidences and the adjusted, clamped scores, and decides the verdict:
    the override first, then a strict majority, then the score tie-break;
  - the returned object merges the consensus keys with the first successful
    model's own result, whose keys win;
- `CONFIDENCE_LEVELS` and `getConfidenceLevel` (`ConfidenceLevels`);
- the metrics store of the second front end: `addAnalysis` and the derived
  `stats` (`MetricsStore`), and `handleSmartSubmit`, which feeds it from the
  smart analyzer, scaling a 0–1 backend score to a rounded 0–100 score
  (`AppSubmit`);
- the three input components:
  - the smart analyzer of the main application (`SmartAnalyzer`), which
    detects file / URL / text with a strict `URL_REGEX`, enforces the
    character limit and calls the matching single-model call;
  - the smart analyzer of the second front end (`FrontendAnalyzer`), with a
    looser `URL_REGEX` and a local fallback when the backend fails;
  - the unified input box (`UnifiedInput`), which validates file types and
    extensions and keeps text and file mutually exclusive.

Supporting modules model JavaScript semantics exactly where the code relies
on them:
- `JsText`: `trim` and the `\s` set, `toLowerCase` (exact on ASCII and
  Latin-1), `includes`, `endsWith`, and the ASCII `\w` / `\b` of regular
  expressions without the `u` flag;
- `JsValue`: absent / `null` / present keys, `??` against `||`, object spread
  with later keys winning, and `Math.round`;
- `UrlPattern`: the two `URL_REGEX` expressions, as a predicate on the split
  of the string together with an executable matcher proved equal to it;
- `Decimal`: `String(n)` for the store's ids.

Remote requests, the `URL` constructor, the random score and the clock are
parameters: each operation takes the reply, or its absence, as an input.

## Behaviour worth knowing

- A majority of `uncertain` votes has no special effect: `uncertain` counts
  only in the total (`Consensus.NoPrecautionRule`).
- A prediction other than `fake`, `false`, `real`, `true` or `uncertain`
  falls in no bucket. It counts only in the total and so lowers the
  consensus strength (`Consensus.UnknownLabelsDilute`).
- "Piñera murió ayer" does not trigger the temporal rule. `\b` sees only
  ASCII word characters, so the end of "murió" or "falleció" is a boundary
  only when an ASCII letter follows (`Evidence.AccentedEndNeedsWordAfter`,
  `Evidence.MurioAyerNotFlagged`). Of the death words, only "muerte" can
  match before a space.
- The consensus verdict and confidence do not reach the caller. The first
  successful model's result is spread last, and its `prediction`,
  `confidence` and (when present) `score` overwrite the consensus keys. The
  consensus survives only inside `multi_model_analysis`
  (`MultiModel.ConsensusVerdictOverwritten`).
- The claim text of a fact-check is lower-cased but never used
  (`Evidence.ClaimTextIgnored`).
- The rating classification matches substrings. "incorrect" counts as
  support for `true` because it contains "correct"
  (`Evidence.IncorrectCountsAsTrue`). "no es cierto" counts as false
  although it contains "cierto", because the false keywords take precedence
  (`Evidence.NoEsCiertoCountsAsFalse`).

## Model

| member | source | states |
|---|---|---|
| JsText.LowerChar | src/utils/api.js:405 | `toLowerCase` on one character: ASCII and Latin-1 capitals move 32 code points up, everything else is unchanged |
| JsText.LowerIdempotent | src/utils/api.js:381 | lower-casing twice is lower-casing once and keeps the length, which is why the per-model `.toLowerCase()` changes nothing |
| JsText.LowerNonEmpty | src/utils/api.js:192 | lower-casing preserves emptiness |
| JsText.TrimStart | src/utils/api.js:165 | the result is a suffix of the input, everything removed is white space, and it does not start with white space |
| JsText.TrimEnd | src/utils/api.js:165 | the result is a prefix of the input, everything removed is white space, and it does not end with white space |
| JsText.Trim | src/utils/api.js:165 | `trim()` is no longer than its input and neither starts nor ends with white space |
| JsText.TrimInfix | src/components/SmartAnalyzer.jsx:14 | the trimmed text is a contiguous slice of the input, flanked only by white space |
| JsText.TrimIdempotent | src/components/UnifiedInput.jsx:23-25 | trimming a trimmed text changes nothing |
| JsText.TrimEmptyIff | src/utils/api.js:165 | `text.trim().length === 0` exactly when every character is white space |
| JsText.IncludesIff | src/utils/api.js:415 | `includes` holds exactly when the word occurs at some position |
| JsText.AnyAltAtIff | src/utils/api.js:415-416 | the alternation `(w1\|w2\|…)` matches at a position exactly when one of the words matches there between `\b` boundaries |
| JsText.SearchWordsIff | src/utils/api.js:415-416 | the scan from position i finds a match exactly when some word matches at some position from i on |
| JsText.SearchWordsDecides | src/utils/api.js:415-416 | the executable scan decides the `/\b(…)\b/` test exactly |
| JsValue.Spread | src/utils/api.js:549 | object spread: the keys are the union and a key of the later object wins |
| JsValue.Round | frontend/src/pages/App.jsx:22 | `Math.round`: the result is the integer within half a unit below or strictly less than half a unit above |
| Verdicts.Verdict.Name | src/utils/api.js:494-510 | the stored labels `real` and `fake` identify the two verdicts |
| Analyzer.PredictionOf | src/utils/api.js:192 | the prediction is the first of prediction, classification, label that is present and non-empty (absent, `null` and "" are skipped), lower-cased, else "unknown"; it is never empty and already lower-case |
| Analyzer.ReplyObject | src/utils/api.js:190 | `...result` carries exactly the present reply keys with their values |
| Analyzer.WithDerived | src/utils/api.js:189-193 | the spread reply with `confidence`, `prediction` and `analysis_time` overwritten by the derived values; `score` is kept exactly when the reply had one |
| Analyzer.Normalise | src/utils/api.js:187-195 | the normalised object holds the derived keys, every call-specific key, and no key beyond the known ones; its confidence is a numeric `confidence`, else a numeric `score`, else 0 |
| Analyzer.CheckText | src/utils/api.js:165-171 | empty or blank text is rejected first, then text over 10 000 characters; text passes exactly when neither holds |
| Analyzer.CheckUrl | src/utils/api.js:210-213 | a blank URL is rejected, then one the `URL` constructor refuses; a URL passes exactly when neither holds |
| Analyzer.CheckFile | src/utils/api.js:581-590 | a missing file is rejected, then one over 5 MB; a file passes exactly when neither holds |
| Analyzer.TextExtra | src/utils/api.js:194 | `analyzeText` adds only `text_length`: the backend's `content_length` when it is a present non-zero number, else the text's length |
| Analyzer.UrlExtra | src/utils/api.js:233-234 | `analyzeUrl` adds only the URL as given and `content_length \|\| 0` |
| Analyzer.FileExtra | src/utils/api.js:610-613 | `analyzeFile` adds only the file's name, size and type and `content_length \|\| 0` |
| Analyzer.AnalyzeText | src/utils/api.js:164-200 | a failed check throws its error before any request; otherwise the call succeeds exactly when the request answers, with a normalised object built on that reply |
| Analyzer.AnalyzeUrl | src/utils/api.js:209-241 | the same for a URL: a failed check throws its error, otherwise success exactly when the request answers |
| Analyzer.AnalyzeFile | src/utils/api.js:581-621 | the same for a file: a failed check throws its error, otherwise success exactly when the request answers |
| Analyzer.AnalyzeTextRecord | src/utils/api.js:189-195 | a successful text analysis records the text length and has only known keys |
| Analyzer.AnalyzeUrlRecord | src/utils/api.js:229-237 | a successful URL analysis records the URL and the extracted length |
| Analyzer.AnalyzeFileRecord | src/utils/api.js:606-616 | a successful file analysis records the file's name, size and type |
| Evidence.TemporalInconsistencyIff | src/utils/api.js:415-416 | the temporal rule holds exactly when the lower-cased text contains "piñera" and a `\b`-delimited death word and recency word |
| Evidence.AccentedEndNeedsWordAfter | src/utils/api.js:415 | a word ending in a non-ASCII letter matches only when an ASCII word character follows it |
| Evidence.MurioAyerNotFlagged | src/utils/api.js:415-421 | "piñera murió ayer" does not trigger the temporal rule |
| Evidence.ClassifyRating | src/utils/api.js:444-453 | a rating is false exactly when it contains a false keyword, and true exactly when it contains a true keyword and no false one |
| Evidence.IncorrectCountsAsTrue | src/utils/api.js:444-453 | the rating "incorrect" counts as true: it contains "correct" and no false keyword |
| Evidence.NoEsCiertoCountsAsFalse | src/utils/api.js:444-453 | the rating "no es cierto" counts as false although it contains the true keyword "cierto" |
| Evidence.CountRatings | src/utils/api.js:436-454 | at most one count per claim |
| Evidence.CountRatingsAppend | src/utils/api.js:439-454 | counting is additive over concatenated claim lists |
| Evidence.ClaimTextIgnored | src/utils/api.js:441 | the counts do not depend on the claims' own text |
| Evidence.Assess | src/utils/api.js:415-478 | the adjustment is 0, -0.5, -0.4 or 0.2; an override exists exactly when the adjustment is below -0.3 and is always `fake`; a temporal hit wins over any fact-check; without it, false evidence at least matching true evidence overrides with -0.4, a true majority gives +0.2, no rated claim or a failed request gives nothing |
| Evidence.Gather | src/utils/api.js:403 | the evidence step runs only for non-empty text, and a temporal hit there forces `fake` |
| Consensus.CountLabels | src/utils/api.js:482-484 | a bucket count never exceeds the number of results |
| Consensus.CountDisjointUnion | src/utils/api.js:482-484 | counts over disjoint label sets add up to the count over their union |
| Consensus.TallyVotes | src/utils/api.js:482-484 | the three buckets together hold at most every result, with none counted twice |
| Consensus.CountOutsideLabels | src/utils/api.js:482-484 | results with labels outside a bucket contribute nothing to it |
| Consensus.SumConfidenceBounds | src/utils/api.js:487 | confidences in [0, 1] sum to between 0 and the number of results |
| Consensus.Clamp01 | src/utils/api.js:491 | `Math.max(0, Math.min(1, x))` lies in [0, 1] and is x itself when x already does |
| Consensus.Strength | src/utils/api.js:513-514 | the strength is in [0, 1] and is the larger of the fake and real buckets divided by the number of results |
| Consensus.Decide | src/utils/api.js:482-520 | the consensus: an override decides the verdict; otherwise a strict majority of fake or real wins; a tie gives `real` exactly when the adjusted, clamped score exceeds 0.5; the confidence is average confidence times strength, raised to at least 0.85 under an override |
| Consensus.ConfidenceInUnitInterval | src/utils/api.js:513-520 | model confidences in [0, 1] give a consensus confidence in [0, 1], and at least 0.85 under an override |
| Consensus.TemporalOverrideWins | src/utils/api.js:415-421 | a temporal hit yields `fake` with confidence at least 0.85, whatever the votes and fact-checks |
| Consensus.TrueEvidenceCannotOverrule | src/utils/api.js:464-466 | fact-check evidence for true only adds 0.2 to the score, so a strict fake majority still gives `fake` |
| Consensus.NoPrecautionRule | src/utils/api.js:494-510 | three `uncertain` votes and one `real` vote give `real` |
| Consensus.TieAtHalfIsFake | src/utils/api.js:509 | on a tie a score of exactly 0.5 gives `fake` |
| Consensus.TwoOfThreeReal | src/utils/api.js:482-515 | real 0.9, real 0.8, fake 0.6 give `real` with strength 2/3 and confidence (2.3/3)(2/3) |
| Consensus.UnknownLabelsDilute | src/utils/api.js:482-484 | results labelled `unknown` fall in no bucket, so the strength is 0 |
| MultiModel.DispatchIff | src/utils/api.js:367-374 | one model succeeds exactly when the input passes the selected call's check and its request answers; a rejected input fails with the check's error |
| MultiModel.ResultOf | src/utils/api.js:376-385 | a pushed entry carries the model's id and name (the id when the name is empty), the normalised prediction and confidence, `score \|\| 0`, and the full result, without the consensus keys |
| MultiModel.Step | src/utils/api.js:361-391 | one loop turn pushes an entry exactly when the model's call succeeds |
| MultiModel.Steps | src/utils/api.js:361 | one turn per catalog entry, in order |
| MultiModel.Keep | src/utils/api.js:376 | only pushed entries are kept |
| MultiModel.KeepAppend | src/utils/api.js:361-392 | keeping is compatible with splitting the catalog |
| MultiModel.KeepEmptyIff | src/utils/api.js:394 | nothing is kept exactly when every turn skipped its model |
| MultiModel.KeepAll | src/utils/api.js:361-392 | when every turn pushes, the entries are the turns' entries in place |
| MultiModel.KeepWellFormed | src/utils/api.js:376-385 | kept entries keep the well-formedness of the pushed ones |
| MultiModel.FanOut | src/utils/api.js:360-392 | at most one entry per model |
| MultiModel.FanOutWellFormed | src/utils/api.js:376-385 | every entry agrees with its full result and lacks the consensus keys |
| MultiModel.FanOutAppend | src/utils/api.js:361-392 | the successes of a catalog are those of its parts, in catalog order |
| MultiModel.FanOutAllSucceed | src/utils/api.js:361-392 | when every model answers an accepted input, every model has its entry at its own position |
| MultiModel.FanOutEmptyIff | src/utils/api.js:388-396 | there is no entry exactly when every model's call failed |
| MultiModel.RejectedInputFailsAll | src/utils/api.js:367-374 | an input the selected call rejects makes every model fail |
| MultiModel.VotesOf | src/utils/api.js:482-490 | the consensus reads each entry's prediction, confidence and score, in order |
| MultiModel.SummaryJson | src/utils/api.js:529-538 | `multi_model_analysis` reports the number of successful models and holds no `prediction` |
| MultiModel.FactCheckJson | src/utils/api.js:541-546 | `fact_check` is non-null exactly when the input is non-empty text and the fact-check request answered |
| MultiModel.Assemble | src/utils/api.js:522-550 | the returned prediction and confidence are the first model's, its `score` wins when present, otherwise the adjusted average score; the summary and fact-check keys are present |
| MultiModel.AnalyzeWithAllModels | src/utils/api.js:347-555 | a failed catalog request, an empty catalog and zero successful models throw their errors; otherwise the result is the assembled object |
| MultiModel.RejectedInputFailsAnalysis | src/utils/api.js:367-396 | an input the selected call rejects fails the whole analysis |
| MultiModel.ConsensusConfidenceBounded | src/utils/api.js:513-520 | the consensus confidence is in [0, 1], and at least 0.85 under an override |
| MultiModel.NoEvidenceForNonText | src/utils/api.js:403 | URL and file input get no adjustment, no override and a null `fact_check` |
| MultiModel.ConsensusVerdictOverwritten | src/utils/api.js:522-549 | with votes real, fake, fake the consensus is `fake` but the returned prediction is the first model's `real` |
| ConfidenceLevels.TableRows | src/utils/api.js:752-758 | the table has five levels, each in its declaration position |
| ConfidenceLevels.GetConfidenceLevel | src/utils/api.js:765-780 | the first level in declaration order whose minimum the confidence reaches, reporting the confidence as score; a negative confidence falls back to `VERY_LOW` |
| ConfidenceLevels.LevelMonotone | src/utils/api.js:752-758 | a higher confidence never gets a lower level |
| ConfidenceLevels.LevelBracket | src/utils/api.js:765-772 | the confidence reaches the chosen level's minimum and misses every higher level's |
| Decimal.DigitChar | frontend/src/utils/useMetricsStore.jsx:25 | a digit becomes a character between '0' and '9' |
| Decimal.NatToString | frontend/src/utils/useMetricsStore.jsx:25 | `String(n)` is non-empty decimal digits without a leading zero |
| Decimal.ParseNatToString | frontend/src/utils/useMetricsStore.jsx:25 | reading the digits of `String(n)` back gives n |
| Decimal.NatToStringInjective | frontend/src/utils/useMetricsStore.jsx:25 | distinct counters give distinct ids |
| MetricsStore.PreviewOf | frontend/src/utils/useMetricsStore.jsx:29 | the preview is the first 120 characters, or "" when there is none |
| MetricsStore.AddAnalysis | frontend/src/utils/useMetricsStore.jsx:20-35 | the counter goes up by one, the new entry goes first with the counter as id, the given score (else the generated one), the verdict `fake` exactly when the score exceeds 55, the given type and label, the preview and today's day |
| MetricsStore.AddAnalysisValid | frontend/src/utils/useMetricsStore.jsx:21-33 | adding keeps ids equal to the counter value at insertion, newest first |
| MetricsStore.ValidIdsDistinct | frontend/src/utils/useMetricsStore.jsx:25 | no two stored analyses share an id |
| MetricsStore.CountFake | frontend/src/utils/useMetricsStore.jsx:43 | the fake count never exceeds the total |
| MetricsStore.CountReal | frontend/src/utils/useMetricsStore.jsx:59 | the real count never exceeds the total |
| MetricsStore.FakePlusReal | frontend/src/utils/useMetricsStore.jsx:43-44 | every entry is fake or real, so `total - fake` is the real count |
| MetricsStore.OnDay | frontend/src/utils/useMetricsStore.jsx:54 | the day filter keeps only entries of that day |
| MetricsStore.Bucket | frontend/src/utils/useMetricsStore.jsx:55-60 | a day bucket's fake and real counts add up to its total |
| MetricsStore.Days | frontend/src/utils/useMetricsStore.jsx:47-61 | seven buckets, oldest first, the last one being today |
| MetricsStore.Bump | frontend/src/utils/useMetricsStore.jsx:64 | a bump adds at most one key |
| MetricsStore.BumpFacts | frontend/src/utils/useMetricsStore.jsx:64 | a bump adds one to the bumped type's count and to the total, and nothing else |
| MetricsStore.BumpKeys | frontend/src/utils/useMetricsStore.jsx:64 | a bump keeps keys distinct and adds only the bumped type |
| MetricsStore.ByTypeFromFacts | frontend/src/utils/useMetricsStore.jsx:63-66 | the fold adds each entry's type count and keeps keys distinct |
| MetricsStore.ByTypeCounts | frontend/src/utils/useMetricsStore.jsx:63-66 | `byType` maps each type to the number of its entries, with distinct keys summing to the total |
| MetricsStore.Percent | frontend/src/utils/useMetricsStore.jsx:45 | `total ? fake / total * 100 : 0` lies in [0, 100] and times the total gives 100 times the part |
| MetricsStore.StatsOf | frontend/src/utils/useMetricsStore.jsx:41-69 | the total and the fake count agree with the store, and `total - fake` is the number of `real` entries; the fake share is 0 for an empty store and otherwise the exact percentage; the seven day buckets are those of `today - 6` … `today`, oldest first; each type maps to its number of entries, with distinct keys summing to the total |
| AppSubmit.BackendScore | frontend/src/pages/App.jsx:22 | the stored score is within half a point of 100 times the backend score (0 when missing) |
| AppSubmit.ToPartial | frontend/src/pages/App.jsx:13-23 | the store receives the type; the label, which is the file name (or "Archivo") for a file, the value for a URL and "Texto" otherwise; the file name or value as preview; and a score exactly when the backend answered |
| AppSubmit.HandleSmartSubmit | frontend/src/pages/App.jsx:12-30 | the entry goes first; its score is the scaled backend score, or the generated one without a backend |
| AppSubmit.ScaledScoreInRange | frontend/src/pages/App.jsx:22 | a backend score in [0, 1] is stored in [0, 100] |
| AppSubmit.MissingScoreIsReal | frontend/src/pages/App.jsx:22 | a backend answer without a score is stored as 0, hence `real` |
| AppSubmit.FakeIffBackendScoreAtLeast | frontend/src/pages/App.jsx:18-24 | with a backend answer the entry is `fake` exactly when the backend score is at least 0.555 |
| AppSubmit.FileFallbackEntry | frontend/src/components/SmartAnalyzer.jsx:73-78 | a file sent while the backend fails is labelled and previewed by its name and scored locally |
| AppSubmit.TextFallbackEntry | frontend/src/components/SmartAnalyzer.jsx:73-78 | text sent while the backend fails is labelled "Texto", previewed by its trimmed start and scored locally |
| UrlPattern.FirstSlash | src/components/SmartAnalyzer.jsx:4 | the first '/' from a position on, or the end |
| UrlPattern.LastDot | src/components/SmartAnalyzer.jsx:4 | the last '.' in a range, or one before the range |
| UrlPattern.MatchFromSound | src/components/SmartAnalyzer.jsx:4 | a successful match after a scheme choice is a match of `URL_REGEX` |
| UrlPattern.MatchFromComplete | src/components/SmartAnalyzer.jsx:4 | every split of a string that `URL_REGEX` accepts is found by the matcher |
| UrlPattern.SchemeChoices | src/components/SmartAnalyzer.jsx:4 | a match starts after no scheme, `http://` or `https://`, in any letter case |
| UrlPattern.IsUrl | frontend/src/components/SmartAnalyzer.jsx:10 | the executable test accepts exactly the strings `URL_REGEX` matches |
| UrlPattern.MatchesNoSpace | frontend/src/components/SmartAnalyzer.jsx:10 | no string either expression accepts contains white space, CR or LF |
| UrlPattern.StrictImpliesLoose | src/components/SmartAnalyzer.jsx:4 | whatever the strict expression accepts the loose one accepts |
| UrlPattern.AcceptsBareDomain | src/components/SmartAnalyzer.jsx:4 | "example.com" is a URL without a scheme |
| UrlPattern.AcceptsCapitalScheme | frontend/src/components/SmartAnalyzer.jsx:10 | "Https://news.example.org/a?b=1" is a URL: the scheme ignores case |
| UrlPattern.RejectsShortTld | frontend/src/components/SmartAnalyzer.jsx:10 | a one-letter top-level domain is refused |
| UrlPattern.RejectsSpace | frontend/src/components/SmartAnalyzer.jsx:10 | text with a space is refused |
| InputKind.DetectKind | src/components/SmartAnalyzer.jsx:14-20 | a file wins; otherwise the kind is URL exactly when `URL_REGEX` accepts the trimmed text, text exactly when that text is non-empty and not accepted, and nothing exactly when the input is blank |
| InputKind.UrlGuard | frontend/src/components/SmartAnalyzer.jsx:21 | the CR/LF test in front of `URL_REGEX` never rejects what the expression accepts |
| InputKind.StrictUrlIsLooseUrl | frontend/src/components/SmartAnalyzer.jsx:18-24 | text the main analyzer calls a URL, the second front end does too |
| InputKind.DetectTrimmed | src/components/SmartAnalyzer.jsx:14-20 | detection depends on the text only through its trimmed form |
| InputKind.TypeText | src/components/SmartAnalyzer.jsx:81-91 | typing replaces the text while no file is selected and changes nothing otherwise, since the text area is only rendered without a file (the same in frontend/src/components/SmartAnalyzer.jsx:90-98) |
| InputKind.AfterSuccess | src/components/SmartAnalyzer.jsx:49-66 | after a reported submission the file and the error are gone, loading has ended, and the text is cleared unless a file was sent (the same in frontend/src/components/SmartAnalyzer.jsx:53-79) |
| SmartAnalyzer.FileChange | src/components/SmartAnalyzer.jsx:28-32 | the picked file, or none, replaces the selection; picking a file empties the text |
| SmartAnalyzer.Drop | src/components/SmartAnalyzer.jsx:33-40 | a dropped file replaces the selection and empties the text; an empty drop changes nothing |
| SmartAnalyzer.Submit | src/components/SmartAnalyzer.jsx:46-67 | nothing happens with nothing detected or while loading; otherwise the call for the detected kind runs, a failure shows its error and reports nothing, and a success reports the kind, the backend result and the file name (none when no file or an empty name), then clears the file and, except for a file, the text |
| SmartAnalyzer.SubmittedValue | src/components/SmartAnalyzer.jsx:56-61 | the reported value is the file's name for a file, otherwise the trimmed text, which is detected as the same kind again |
| SmartAnalyzer.OverLimitTextRejected | src/components/SmartAnalyzer.jsx:69 | text over the limit is refused by `analyzeText` with the too-long error, and nothing is reported |
| SmartAnalyzer.EnabledSubmitActs | src/components/SmartAnalyzer.jsx:125 | an enabled button always leads to a report or a shown error |
| SmartAnalyzer.ApplyKeepsNoTextWithFile | src/components/SmartAnalyzer.jsx:28-44 | no event leaves text beside a selected file |
| SmartAnalyzer.RunKeepsNoTextWithFile | src/components/SmartAnalyzer.jsx:28-67 | no sequence of events leaves text beside a selected file |
| SmartAnalyzer.ClearFileLeavesNothing | src/components/SmartAnalyzer.jsx:44 | once the file is removed from a form reached from the empty one (removal keeps the text, the loading flag and the error), nothing is detected |
| FrontendAnalyzer.KindName | frontend/src/components/SmartAnalyzer.jsx:18-24 | a detected type is one of "text", "url", "file" |
| FrontendAnalyzer.FileChange | frontend/src/components/SmartAnalyzer.jsx:32-35 | the picked file, or none, replaces the selection and the text stays |
| FrontendAnalyzer.Drop | frontend/src/components/SmartAnalyzer.jsx:37-42 | a dropped file replaces the selection and the text stays; an empty drop changes nothing |
| FrontendAnalyzer.Payload | frontend/src/components/SmartAnalyzer.jsx:54-59 | the payload has the detected type, the trimmed text unless a file is sent, and the file name, which is none for an absent file or an empty name |
| FrontendAnalyzer.ErrorText | frontend/src/components/SmartAnalyzer.jsx:75 | the shown error is the message, or "Error desconocido" when the message is empty |
| FrontendAnalyzer.Submit | frontend/src/components/SmartAnalyzer.jsx:50-81 | nothing happens with nothing detected or while loading; a success reports the backend's source type and result and clears the form except a file's leftover text; a failure shows the error and still reports the payload |
| FrontendAnalyzer.SuccessValue | frontend/src/components/SmartAnalyzer.jsx:65-70 | after a success the reported value is the file name for a file, the trimmed text otherwise |
| FrontendAnalyzer.FallbackReportsPayload | frontend/src/components/SmartAnalyzer.jsx:73-78 | a failed call reports the detected type without a backend result and shows an error |
| FrontendAnalyzer.FileHidesText | frontend/src/components/SmartAnalyzer.jsx:32-48 | choosing a file makes the kind `file`, and removing it brings back the detection of the earlier text |
| FrontendAnalyzer.TextSurvivesFileSubmit | frontend/src/components/SmartAnalyzer.jsx:71-72 | after a file is sent, text typed before choosing it is still there and detected again |
| UnifiedInput.HasExtensionFrom | src/components/UnifiedInput.jsx:57-59 | the name ends with one of the extensions |
| UnifiedInput.Accepts | src/components/UnifiedInput.jsx:53-61 | a file is accepted exactly when its type is listed or its lower-cased name ends with a listed extension |
| UnifiedInput.SelectFile | src/components/UnifiedInput.jsx:51-67 | an accepted file replaces the selection and clears the text; a refused one changes nothing |
| UnifiedInput.TypeText | src/components/UnifiedInput.jsx:70-73 | typing replaces the text and removes the file |
| UnifiedInput.ClearAll | src/components/UnifiedInput.jsx:86-92 | the box becomes empty |
| UnifiedInput.Submit | src/components/UnifiedInput.jsx:20-27 | a selected file is sent; otherwise non-blank text is sent trimmed, as URL when the `URL` constructor accepts it, else as text; blank text sends nothing |
| UnifiedInput.SubmitMatchesDisplay | src/components/UnifiedInput.jsx:94-95 | submitting sends something exactly when there is content, with the displayed content type, and sent text is trimmed and not blank |
| UnifiedInput.BlankSubmitsNothing | src/components/UnifiedInput.jsx:23 | white-space-only text submits nothing |
| UnifiedInput.AcceptsUpperCaseExtension | src/components/UnifiedInput.jsx:57-59 | "INFORME.PDF" is accepted whatever its type: the extension test ignores case |
| UnifiedInput.AcceptsListedType | src/components/UnifiedInput.jsx:56 | a listed type is accepted whatever the name |
| UnifiedInput.RejectsImage | src/components/UnifiedInput.jsx:53-61 | "foto.png" of type image/png is refused |
| UnifiedInput.RunInvariant | src/components/UnifiedInput.jsx:40-160 | every sequence of events, with typing only while no file is shown, keeps text and file apart and holds only accepted files |
| UnifiedInput.SubmittedFileHidesNoText | src/components/UnifiedInput.jsx:20-22 | a submitted file never drops typed text, because none can be held beside it |

## Left out

- Network requests, `changeModel`, `getAvailableModels`, `checkFactsGoogle` and authentication headers: their outcomes are inputs. A failed model switch counts as a failed model.
- The `URL` constructor: whether it accepts a string is a boolean parameter (`urlParses`, `isUrl`).
- `timestamp` (`new Date().toISOString()`), `createdAt` and the clock: days are integers, and the seven day buckets are `today - 6 … today`. The ISO day strings are not produced.
- `generateScore` (`Math.random`): the generated score is a parameter of `addAnalysis`.
- `alert`, `console` logging, `setLastType`, drag-highlight state and rendering other than whether the text area exists.
- The `temporal_recent` flag list: it is computed but never read.
- The `data` echo inside `fact_check`: only the source, claim count and adjustment are modelled.
- Reply keys other than the nine the client reads: they are not modelled, so `...result` copies only those nine.
- Numbers are exact reals: floating-point rounding, `NaN` and the `toString` of numbers are left out.
- SmartAnalyzer.Submit, FrontendAnalyzer.Submit: a submission is one atomic step, from the click through `finally`. The form is never observed with `loading` set, so the guard against a second click never applies. Edits made while the request is pending are not modelled, such as typing or picking a file, which the completion's `setRaw('')` and `setFile(null)` would discard.
- Analyzer.PredictionOf: each reply key is assumed to hold its expected JSON type (a string for `prediction`, `classification` and `label`, a number for the numeric keys). So the `.toString()` of a numeric or boolean prediction, and the skipping of a falsy `0` or `false` by `||`, are not modelled.
- `toLowerCase` is exact only on ASCII and Latin-1; other Unicode case mappings are left out. Lengths and slices count code points, not UTF-16 units.
- JSON key order, including the integer-like-key ordering of `byType`: `byType` is an association list in insertion order.
- `source_type` of the second front end's backend reply is a string: an absent `source_type` is not modelled.
- `inputType` of the metrics store is a string: an `undefined` type is not modelled.
- The backend call of the second front end (`analyze` in its own `api.js`): frontend/src/utils/api.js is not part of this model, so its outcome is a parameter of `FrontendAnalyzer.Submit`.
- The `maxLength` attribute of the main analyzer's text area, which stops typing at 11 000 characters: typed text is unbounded in the model.
- FrontendAnalyzer.Payload: for a file, the payload's `value` is the `File` object itself; the model gives `None`, since it is never read as text downstream.
- FrontendAnalyzer.Submit: the fallback payload reported after a failure carries the same `value`, so for a file it is also `None` here.
