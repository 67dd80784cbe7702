# coverage-scorer, modelled in Dafny

coverage-scorer scores press coverage of a client. It does four things:

- It fetches each article. The HTTP tier makes two attempts with per-status handling, detects paywalls and thin or JavaScript-rendered pages, and can fall back to a headless browser.
- It scores the article against a weighted tier model and gives it a letter grade and a colour band.
- It keeps clients, outlets, the analysis history and batch summaries in Google Sheets rows and a JSON batches file.
- It runs whole spreadsheets of URLs as one batch.

This project models the logic of these files:

- `utils/article_fetcher.py`, `utils/scoring.py`, `utils/styles.py`, `utils/document_parser.py`, `utils/storage.py`, `utils/google_sheets.py`;
- the helpers and the batch loop of `pages/6_Batch_Analysis.py`.

Each part is stated in Dafny and its properties are proved.

Modules:

- `Text` (text.dfy): the Python string operations the code uses:
  - `strip`, `split()` and `count_words`, `split('\n')`, `join`, `str(int)`;
  - lower-casing; prefix, suffix and substring tests.
- `ArticleExtractor` (extractor.dfy): `extract_content_from_html`.
  - The page is an abstract summary: selector results, counts, text lengths and paragraph texts.
  - The title, author and container loops are methods, each proved equal to its specification function.
- `Fetching` (fetch_spec.dfy): the fetch pipeline as functions.
  - It covers the URL helpers, every error message, one pass of the retry loop (`AttemptStep`), the loop (`HttpTier`), the headless fallback (`Fallback`, `HeadlessSpec`) and `fetch_article` with its MSN unwrap (`FetchSpec`).
  - The network is a `Site`: the answer to each attempt, and what the headless browser renders.
- `ArticleFetcher` (fetcher.dfy): `fetch_article` and `fetch_with_playwright` as methods.
  - The retry `while` loop accumulates the error list and mutates the metadata.
  - Each method is proved equal to its specification function.
- `FetchProperties` (fetch_lemmas.dfy): what the pipeline guarantees. Examples:
  - errors only grow;
  - a failure reports its last error;
  - a success clears the floors;
  - a 404 or a paywalled page ends the fetch on whichever attempt it comes;
  - retries stop after two attempts;
  - a JavaScript-rendered page escalates to the headless browser.
- `Scoring` (scoring.dfy): `SCORING_MODEL`, `calculate_total_score` (a loop over the tiers), the tier points, and the grade and colour bands.
- `Styles` (styles.py's colour bands, grade copy, grade class, and the progress and circle percentages).
- `DocumentParser` (document_parser.dfy): `parse_extracted_messages` (a loop over lines) and the extension dispatch of `extract_text_from_file`.
- `GoogleSheets` (sheets.dfy) covers:
  - `serialize_value` and `deserialize_value` over a codec given as functions, with the laws the model relies on (`ContainerLaw`, `IntLaw`, `FloatLaw`);
  - a concrete codec that keeps all three laws, so the round trips that assume them are not vacuous (`CodecWitness`, codec_witness.dfy);
  - the row converters, with a `Row` class padded in place;
  - the bulk tier update on a `Worksheet` class.
- `Storage` (storage.dfy): the first-match getters and the batch store as a class.
  - The class's methods are `add_batch`, `delete_batch` and `update_batch_article`.
  - It also has `get_unique_batch_names` (sorting by insertion).
- `BatchAnalysis` (batch.dfy) covers:
  - `get_url_from_cell`, `get_key_messages_found` and `get_analysis_notes`;
  - outlet matching and the failure notes of `process_single_article`;
  - the batch loop with its counts, and the saved batch summary.

Behaviour a caller may not expect:

- Thin text ends the retry loop at once on any attempt: under 500 characters, or, on a JavaScript-heavy host, under 1000 characters or 200 words. The loop records the insufficient-content or thin-content message and asks for the headless browser; with that browser off or missing, the message is the failure reported (`FetchProperties.ThinContentIsTerminal`, `FetchProperties.ThinContentFailsWhenOff`).
- A successful HTTP-tier fetch returns the metadata's original, empty `fetch_errors`. The errors of a failed first attempt are not reported with the success (`FetchProperties.SuccessMeetsFloors`).
- A successful MSN unwrap returns the inner fetch's result unchanged. Its `domain` is therefore the wrapped site's, not the domain of the URL the caller passed (`FetchProperties.MsnUnwrapReturnsInner`).
- `get_unique_batch_names` does not remove duplicates (`Storage.UniqueBatchNamesSorted`).

Two consequences of the code are proved:

- `handle_bloomberg_content` can never flag a page that the HTTP tier returns. Every Bloomberg host is JavaScript-heavy, and JavaScript-heavy hosts need 1000 characters before a page is accepted (`FetchProperties.BloombergIsJsHeavy`, `FetchProperties.SuccessMeetsFloors`).
- The numbering regex of `parse_extracted_messages` also eats the "3." of a message that opens with "3.5" (`DocumentParser.LeadingDecimalExample`).

## Model

| member | source | states |
|---|---|---|
| Text.TrimStartIsSuffix | utils/document_parser.py:79 | `lstrip` removes only leading whitespace and leaves a suffix of the text |
| Text.TrimEndIsPrefix | utils/document_parser.py:79 | `rstrip` removes only trailing whitespace and leaves a prefix of the text |
| Text.StripEmptyIff | pages/6_Batch_Analysis.py:95 | `s.strip() == ""` exactly when `s` is all whitespace |
| Text.StripEnds | pages/6_Batch_Analysis.py:97 | a stripped text neither starts nor ends with whitespace |
| Text.WordLengthIsRun | utils/article_fetcher.py:642-644 | the first word of `split()` is the maximal run of non-space characters |
| Text.SplitWordsAreWords | utils/article_fetcher.py:642-644 | every word of `split()` is non-empty and holds no whitespace |
| Text.CountWordsPositive | utils/article_fetcher.py:642-644 | `count_words` of a text that is not all whitespace is at least 1 |
| Text.Take | utils/article_fetcher.py:589 | `s[:n]` is a prefix of `s` of at most `n` characters, and all of `s` when it is short enough |
| Text.RemoveAll | utils/article_fetcher.py:651 | `replace("www.", "")` never lengthens the text |
| Text.JoinStartsWith | pages/6_Batch_Analysis.py:139 | a joined list starts with its first part |
| Text.JoinStartsWithTwo | pages/6_Batch_Analysis.py:139 | a joined list starts with its first two parts and the separator between them |
| Text.JoinEndsWith | pages/6_Batch_Analysis.py:139 | a joined list ends with its last part |
| Text.SplitPartsLackSeparator | utils/document_parser.py:75 | no piece of `split('\n')` holds a newline |
| Text.JoinSplit | utils/document_parser.py:75 | joining the pieces of `split(sep)` with `sep` gives back the text |
| Text.NatToStringRoundTrip | utils/google_sheets.py:77 | `str(n)` is all decimal digits, and those digits read back as `n` |
| ArticleExtractor.FirstMatchIsFirst | utils/article_fetcher.py:256-280 | the headline and byline loops take the first selector, in list order, that matches; they take none when no selector matches |
| ArticleExtractor.CleanBylineIsSuffix | utils/article_fetcher.py:277 | removing the "By"/"Written by"/"Author:" prefix leaves a suffix of the byline that does not start with whitespace |
| ArticleExtractor.NonEmptyStripped | utils/article_fetcher.py:316-317 | only the non-empty stripped paragraph texts are joined |
| ArticleExtractor.FirstRich | utils/article_fetcher.py:305-322 | the chosen container's text has at least 100 words |
| ArticleExtractor.FirstRichIsFirst | utils/article_fetcher.py:305-322 | the container loop takes the first selector, in list order, whose paragraphs reach 100 words; it takes none when no container does |
| ArticleExtractor.Classify | utils/article_fetcher.py:284-343 | extracted text has at least 200 characters and 50 words |
| ArticleExtractor.ClassifyCascade | utils/article_fetcher.py:284-343 | the checks run in order: JavaScript-rendered (tested before clean-up), under 100 characters of text, under 200 characters, under 50 words; the body is returned exactly when all pass |
| ArticleExtractor.FindHeadline | utils/article_fetcher.py:252-265 | the `<title>`, then the first headline selector that matches, is written into the metadata |
| ArticleExtractor.FindAuthor | utils/article_fetcher.py:267-280 | the first byline selector that matches, cleaned, is the author |
| ArticleExtractor.ScanContainers | utils/article_fetcher.py:305-322 | the container loop equals the first-rich-container specification |
| ArticleExtractor.ChooseBody | utils/article_fetcher.py:305-328 | the body is the first rich container, else all paragraphs of the page |
| ArticleExtractor.ExtractContent | utils/article_fetcher.py:240-343 | writes only the title and author into the metadata and returns the cascade's verdict |
| Fetching.ExtractDomain | utils/article_fetcher.py:647-653 | `extract_domain` never lengthens the host |
| FetchProperties.RemoveAllAbsent | utils/article_fetcher.py:651 | removing a text that does not occur leaves the string unchanged |
| FetchProperties.ExtractDomainCases | utils/article_fetcher.py:647-651 | a host without "www." is kept, and one leading "www." before it is removed |
| FetchProperties.ExtractDomainSinglePass | utils/article_fetcher.py:651 | the removal is one left-to-right pass: "wwwww.w." becomes "www.", which still contains "www." |
| Fetching.FirstParam | utils/article_fetcher.py:231-235 | `parse_qs(q)[k][0]` is the first non-blank value given for `k`; it is absent exactly when `k` has no non-blank value |
| Fetching.OriginalUrlFromMsn | utils/article_fetcher.py:221-237 | a non-MSN host gives none; on an MSN host the first `url` value when there is one, else the first `originalUrl` value; a found URL is never empty |
| Fetching.ExceptionMessage | utils/article_fetcher.py:565-602 | the message of each exception kind: the timeout in seconds; SSL, plain connection and unexpected errors quote at most 80 characters of the exception; a DNS failure takes precedence over a refused connection |
| Fetching.LastOr | utils/article_fetcher.py:631 | the reported error is the last recorded one, or "Unknown error" for an empty list |
| Fetching.FirstIndicator | utils/article_fetcher.py:496-502 | the paywall loop finds the first indicator, in list order, that occurs in the lower-cased page; it finds none exactly when no indicator occurs |
| Fetching.PaywallOf | utils/article_fetcher.py:496-509 | a paywall needs an indicator and fewer than 5 `<p>` elements |
| Fetching.HandleBloomberg | utils/article_fetcher.py:197-218 | content under 1000 characters sets the partial flag; nothing else in the metadata changes |
| Fetching.InitialMetadata | utils/article_fetcher.py:374-390 | a fetch starts with no errors, no status and no partial flag, and with the domain of its URL |
| Fetching.Failed | utils/article_fetcher.py:434-441 | a failure returns the message and sets `fetch_errors` to the accumulated list |
| Fetching.HeadlessSpec | utils/article_fetcher.py:80-172 | the headless fetch succeeds only with text the extractor accepted from the rendered page and no errors; a failure records exactly its one message |
| Fetching.NavigatedSpec | utils/article_fetcher.py:125-156 | a loaded page succeeds only with extracted text; an error status or a failed extraction records its one message |
| Fetching.HeadlessExtracted | utils/article_fetcher.py:143-156 | the headless verdict on a loaded page: extracted text with no errors, or the one error message |
| Fetching.Retry | utils/article_fetcher.py:425-466 | a retryable failure goes on, with the message appended, unless it is the last attempt; on the last attempt it fails with that message |
| ArticleFetcher.FetchWithHeadless | utils/article_fetcher.py:80-172 | `fetch_with_playwright` equals its specification |
| ArticleFetcher.HeadlessLoaded | utils/article_fetcher.py:125-156 | the part after navigation equals its specification |
| ArticleFetcher.HeadlessExtract | utils/article_fetcher.py:143-156 | the extraction step of the headless fetch equals its specification |
| ArticleFetcher.DetectPaywall | utils/article_fetcher.py:496-502 | the indicator loop returns the first indicator found |
| ArticleFetcher.HandleBody | utils/article_fetcher.py:478-512 | the empty-body and paywall checks, then the extraction, equal one pass's specification |
| ArticleFetcher.HandleExtraction | utils/article_fetcher.py:514-563 | the acceptance, thin-content and extraction-failure branches equal their specification |
| ArticleFetcher.TryAttempt | utils/article_fetcher.py:407-602 | one pass of the retry loop, per status and per exception, equals `AttemptStep` |
| ArticleFetcher.RequestsTier | utils/article_fetcher.py:403-603 | the retry `for` loop equals the recursive `HttpTier` |
| ArticleFetcher.FetchArticle | utils/article_fetcher.py:346-639 | `fetch_article`, with the MSN unwrap, equals `FetchSpec` |
| ArticleFetcher.Finish | utils/article_fetcher.py:604-633 | the headless fallback and the final failure report equal `AfterLoop` |
| FetchProperties.RemoveAllKeepsPrefix | utils/article_fetcher.py:175-185 | removing "www." keeps a leading text that cannot overlap it |
| FetchProperties.OccursAtStart | utils/article_fetcher.py:180-182 | an occurrence at index 0 is the same as a prefix |
| FetchProperties.RemoveAllKeepsOccurrence | utils/article_fetcher.py:175-185 | removing "www." cannot destroy an occurrence of a domain that shares no character sequence with it |
| FetchProperties.BloombergIsJsHeavy | utils/article_fetcher.py:175-194 | every Bloomberg host is on the JavaScript-heavy list |
| FetchProperties.ExitSoundFromLater | utils/article_fetcher.py:403-603 | an exit that is sound after more errors is sound for the earlier list |
| FetchProperties.AcceptStepSound | utils/article_fetcher.py:514-541 | accepting or rejecting extracted text adds exactly one error or leaves the loop soundly |
| FetchProperties.BodyStepSound | utils/article_fetcher.py:478-563 | the body checks add exactly one error or leave the loop soundly |
| FetchProperties.AttemptStepSound | utils/article_fetcher.py:407-602 | every pass adds exactly one error, leaving the metadata's own list alone, or leaves the loop soundly |
| FetchProperties.HttpTierSound | utils/article_fetcher.py:403-603 | the error list only grows; a failure reports its last entry; an HTTP success has at least 500 characters (1000 characters and 200 words on a JavaScript-heavy host) |
| FetchProperties.HttpTierReadsOnlyRetries | utils/article_fetcher.py:407 | the loop reads only the first two answers (`MAX_RETRIES`) |
| FetchProperties.FallbackSound | utils/article_fetcher.py:604-633 | after the loop, a failure reports the last of a non-empty error list |
| FetchProperties.DirectSound | utils/article_fetcher.py:403-633 | every direct fetch result is sound |
| FetchProperties.FailureReportsLastError | utils/article_fetcher.py:604-633 | every failed fetch, MSN unwrap included, has a non-empty error list and returns its last entry; "Unknown error" is never reached |
| FetchProperties.SuccessMeetsFloors | utils/article_fetcher.py:514-541 | every success carries at least 200 characters and 50 words; an HTTP success also has at least 500 characters, no errors and no partial flag |
| FetchProperties.HeadlessUnusedWhenOff | utils/article_fetcher.py:608 | with the fallback off or the browser not installed, the headless browser makes no difference |
| FetchProperties.AtMostTwoRequests | utils/article_fetcher.py:407 | sites that answer the first two requests alike are fetched alike |
| FetchProperties.NotFoundIsTerminal | utils/article_fetcher.py:437-442 | a 404 on any attempt, after any earlier errors, ends the loop failing with those errors plus the not-found message and status 404 |
| FetchProperties.NotFoundOnFirstAttempt | utils/article_fetcher.py:437-442 | a 404 on the first attempt fails the fetch with that one error |
| FetchProperties.NotFoundAfterRetry | utils/article_fetcher.py:437-442 | a 404 after a retried first attempt fails the fetch with the first attempt's errors plus the not-found message; no headless attempt |
| FetchProperties.RetryableTwiceFails | utils/article_fetcher.py:425-466 | two 403/429/5xx answers fail with both messages, the last one reported and its status kept, with no headless attempt |
| FetchProperties.PaywallIsTerminal | utils/article_fetcher.py:467-509 | a non-empty paywalled page on any attempt whose body is examined (a 200, or a non-retryable status on the last attempt) ends the loop failing with the earlier errors, that status's message if any, and the paywall message |
| FetchProperties.PaywallOnFirstAttempt | utils/article_fetcher.py:496-509 | a paywalled 200 on the first attempt fails the fetch with the paywall message as the only error |
| FetchProperties.RaisingTwiceFails | utils/article_fetcher.py:565-602 | two raised requests fail with both messages and no headless attempt |
| FetchProperties.UnexpectedStatusThenEmptyBody | utils/article_fetcher.py:469-490 | an unexpected status on the last attempt still goes through the body checks, so one attempt records two errors |
| FetchProperties.HttpTierExitsAtFirst | utils/article_fetcher.py:403-603 | the loop ends at the first attempt when that pass exits |
| FetchProperties.JsRenderedVerdictEscalates | utils/article_fetcher.py:542-552 | a JavaScript-rendered verdict appends its message and asks for the headless browser |
| FetchProperties.BodyWithoutPaywall | utils/article_fetcher.py:478-512 | a non-empty body without a paywall is judged by the extractor |
| FetchProperties.JsRenderedBodyEscalates | utils/article_fetcher.py:478-552 | a JavaScript-rendered page asks for the headless browser with its one error |
| FetchProperties.JsRenderedLeavesLoop | utils/article_fetcher.py:403-552 | a JavaScript-rendered first page leaves the loop without a second request |
| FetchProperties.HeadlessSuccessReturned | utils/article_fetcher.py:610-621 | a headless success is returned as "playwright", with the HTTP errors followed by the browser's |
| FetchProperties.JsRenderedEscalates | utils/article_fetcher.py:542-621 | a JavaScript-rendered first page goes straight to the headless browser, whose success is returned |
| FetchProperties.ThinContentIsTerminal | utils/article_fetcher.py:513-534 | an extracted page on any examined attempt whose text is under 500 characters, or a JavaScript-heavy host's text under 1000 characters or 200 words, ends the loop with the earlier errors plus the insufficient-content or thin-content message and asks for the headless browser |
| FetchProperties.ThinContentLeavesLoop | utils/article_fetcher.py:513-525 | a first 200 whose text is under 500 characters leaves the loop with the one insufficient-content message, naming the character count, and status 200 |
| FetchProperties.JsThinLeavesLoop | utils/article_fetcher.py:527-534 | a JavaScript-heavy host's first 200 with at least 500 characters but under 1000 characters or 200 words leaves the loop with the one thin-content message |
| FetchProperties.ThinContentFailsWhenOff | utils/article_fetcher.py:604-631 | with the fallback off or the browser not installed, thin content fails the fetch, reporting its message as the text and as the only error |
| FetchProperties.ThinContentEscalates | utils/article_fetcher.py:519-621 | thin content on the first 200 goes to the headless browser, whose success is returned as "playwright" with the thin-content message as its only error |
| FetchProperties.MsnUnwrapReturnsInner | utils/article_fetcher.py:394-400 | a successful fetch of the wrapped URL is returned unchanged |
| FetchProperties.OtherwiseDirect | utils/article_fetcher.py:394-402 | otherwise the wrapper URL itself is fetched, leaving no trace of the failed inner fetch |
| Scoring.TierKeys | utils/scoring.py:118 | the tier keys, in model order |
| Scoring.ModelShape | utils/scoring.py:5-97 | eight tiers, with "bonus" last and only there |
| Scoring.PenaltiesAreNegative | utils/scoring.py:5-97 | the penalty factors are exactly those with a negative maximum |
| Scoring.OutletTierPointsOrder | utils/scoring.py:99-103 | only tiers 1 to 4 earn points; a better tier earns strictly more; tier 1 earns the factor's maximum of 20 |
| Scoring.Clamp | utils/scoring.py:133-134 | the total lies in [0, 116] and is unchanged when already inside |
| Scoring.TotalScore | utils/scoring.py:105-140 | the total score lies in [0, 116] |
| Scoring.CalculateTotalScore | utils/scoring.py:105-140 | the tier loop yields the total, one `tier_scores` entry per tier with its name, sum and `max_points`, and the input as `detailed_scores` |
| Scoring.RawTotalByContributions | utils/scoring.py:118-131 | the total depends on the scores only through each tier's contribution |
| Scoring.RawTotalMonotone | utils/scoring.py:118-131 | higher contributions never lower the total |
| Scoring.UnknownKeysIgnored | utils/scoring.py:118-122 | score keys outside the model do not change the total |
| Scoring.NegativeTierCountsAsZero | utils/scoring.py:128-129 | a non-bonus tier summing below 0 counts as an absent tier |
| Scoring.TotalScoreMonotone | utils/scoring.py:105-134 | higher tier sums never lower the total |
| Scoring.NoScoresNoPoints | utils/scoring.py:118-131 | with no scores every tier contributes 0 |
| Scoring.Level | utils/scoring.py:142-167 | the number of grade thresholds a score reaches |
| Scoring.LevelMonotone | utils/scoring.py:142-167 | a higher score reaches at least as many thresholds |
| Scoring.LevelOfBand | utils/scoring.py:142-167 | a score between two ascending thresholds has the level of that band |
| Scoring.GradeByLevel | utils/scoring.py:142-167 | the if-chain gives the name of the band the score reaches |
| Scoring.GradeMonotone | utils/scoring.py:142-167 | a higher score never gets a worse grade; below 40 is exactly F, and 90 or more is exactly A+ |
| Scoring.ColorBands | utils/scoring.py:169-178 | the four colours at the boundaries 80, 60 and 40; green exactly for the A grades, red exactly for F |
| Styles.ColorBands | utils/styles.py:108-117 | styles' colours use the same four bands as scoring's |
| Styles.GradesAgree | utils/styles.py:120-145 | styles' grade equals scoring's grade for every score |
| Styles.GradeClassOfScore | utils/styles.py:148-159 | composed with the grade, the class is "score-f" exactly below 40 and "score-a" exactly from 80 |
| Styles.ProgressPercentage | utils/styles.py:266-269 | 0 when the maximum is at most 0; otherwise `value/max*100` capped at 100, and not clamped below |
| Styles.RatioBounds | utils/styles.py:269 | a ratio to a positive maximum reaches 100% exactly when the value reaches the maximum |
| Styles.ProgressNotClampedBelow | utils/styles.py:266-271 | for every positive maximum, a negative value gives the unclamped negative percentage and the red colour |
| Styles.ProgressColor | utils/styles.py:271 | the bar is red with no maximum and green once full |
| Styles.CirclePercentage | utils/styles.py:172 | `min(score/max*100, 100)`; a zero maximum raises |
| Styles.CircleOfTotal | utils/styles.py:162-172 | every total score lands within [0, 100] on the default circle |
| DocumentParser.FirstPrefix | utils/document_parser.py:84-87 | the prefix removed is one of the list that the line starts with |
| DocumentParser.RemoveBullet | utils/document_parser.py:84-87 | the prefix loop removes the first matching prefix |
| DocumentParser.DropBulletOnce | utils/document_parser.py:84-87 | exactly the first matching prefix in list order is removed, or none |
| DocumentParser.DoubledBulletKeepsSecond | utils/document_parser.py:84-87 | "- - point" loses only one marker |
| DocumentParser.LeadingDigits | utils/document_parser.py:91 | the longest run of digits that opens the line |
| DocumentParser.DropNumbering | utils/document_parser.py:91 | removing the numbering never lengthens the line |
| DocumentParser.DropNumberingWhen | utils/document_parser.py:91 | a line changes exactly when it opens with digits followed by `.` or `)` |
| DocumentParser.DropNumberingSpec | utils/document_parser.py:91 | the result is a suffix of the line; what is removed is the digits, the `.` or `)` and the whitespace after it, and the rest does not open with whitespace |
| DocumentParser.NumberedItemExample | utils/document_parser.py:91 | "12) Launch" becomes "Launch" |
| DocumentParser.YearIsKeptExample | utils/document_parser.py:91 | digits without "." or ")" are kept |
| DocumentParser.LeadingDecimalExample | utils/document_parser.py:91 | "3.5 million" loses its "3." |
| DocumentParser.LineMessages | utils/document_parser.py:77-97 | a line gives at most one record, non-empty and "medium" |
| DocumentParser.ParsedMessagesWellFormed | utils/document_parser.py:93-97 | no record is empty; every record is "medium"; there are never more records than lines |
| DocumentParser.ParseExtractedMessages | utils/document_parser.py:63-99 | the line loop equals the line-by-line specification |
| DocumentParser.CollectAppend | utils/document_parser.py:77-97 | the records of two runs of lines are the records of each run in turn |
| DocumentParser.ParseLinesByLine | utils/document_parser.py:77-97 | line `i` contributes its records between those of the lines before and after it |
| DocumentParser.LastIndex | utils/document_parser.py:54 | the last position of a character, or -1 |
| DocumentParser.Suffix | utils/document_parser.py:54 | `Path(name).suffix` is empty or a dot and at least one more character |
| DocumentParser.LegacyDocRefused | utils/document_parser.py:49-50 | ".doc" always fails with the legacy-format message |
| DocumentParser.UnknownExtensionRefused | utils/document_parser.py:53-54 | an unknown extension fails, naming its suffix |
| DocumentParser.ExtractedTextNotBlank | utils/document_parser.py:56-59 | success returns one extractor's text unchanged, and it is not blank |
| DocumentParser.ExtractorByExtension | utils/document_parser.py:43-61 | ".pdf", ".docx" and ".txt" each select their extractor; its non-blank text succeeds unchanged, blank text fails with the no-text message, an exception fails with its message |
| GoogleSheets.DeserializeDefaults | utils/google_sheets.py:80-107 | empty text gives `[]`, `{}`, 0, 0.0 or None by type; undecodable JSON gives an empty container; unparsable numbers give 0 |
| GoogleSheets.Truncate | utils/google_sheets.py:100 | for every real, the result has its sign (or is 0) and lies less than 1 from it on the side of 0 |
| GoogleSheets.TruncateExamples | utils/google_sheets.py:100 | `int(float(x))` truncates toward zero |
| GoogleSheets.ContainerRoundTrip | utils/google_sheets.py:71-107 | a list or dict whose floats are doubles and whose dicts have distinct keys survives `json.dumps` then `json.loads`, given the JSON law |
| GoogleSheets.NoneBecomesEmpty | utils/google_sheets.py:71-92 | None read back as a list or dict is empty |
| GoogleSheets.StringRoundTrip | utils/google_sheets.py:71-107 | a string survives, except "" which reads back as None |
| GoogleSheets.IntRoundTrip | utils/google_sheets.py:77-101 | an int within float precision survives `str` and `int(float(...))`, given only that `float` reads integer text exactly |
| GoogleSheets.FloatRoundTrip | utils/google_sheets.py:77-104 | a double survives `str` and `float`, given that `float` reads back the text `str` writes |
| GoogleSheets.Padded | utils/google_sheets.py:113-114 | padding keeps the row, adds "" cells, and reaches the header count |
| GoogleSheets.HeaderIndex | utils/google_sheets.py:117 | `headers.index(name)` is the first position of the name |
| GoogleSheets.ClientToRow | utils/google_sheets.py:127-137 | a client row has the 7 cells of `CLIENTS_HEADERS` |
| GoogleSheets.OutletToRow | utils/google_sheets.py:155-164 | an outlet row has the 6 cells of `OUTLETS_HEADERS` |
| GoogleSheets.HistoryToRow | utils/google_sheets.py:188-203 | a history row has the 12 cells of `HISTORY_HEADERS` |
| GoogleSheets.HeaderPositions | utils/google_sheets.py:25-26 | each client and outlet header is found at its own position |
| GoogleSheets.HistoryHeaderPositions | utils/google_sheets.py:27-28 | each history header is found at its own position |
| GoogleSheets.ClientCells | utils/google_sheets.py:117-124 | each client field reads the cell of its column |
| GoogleSheets.OutletCells | utils/google_sheets.py:146-152 | each outlet field reads the cell of its column |
| GoogleSheets.HistoryCellsNames | utils/google_sheets.py:173-185 | the id, headline and outlet read their cells |
| GoogleSheets.HistoryCellsPeople | utils/google_sheets.py:173-185 | the author, client and url read their cells |
| GoogleSheets.HistoryCellsScores | utils/google_sheets.py:173-185 | the score cells are read from their columns |
| GoogleSheets.HistoryCellsRest | utils/google_sheets.py:173-185 | the analysis, date and batch id read their cells |
| GoogleSheets.ClientRoundTrip | utils/google_sheets.py:111-137 | a client's string fields always come back; when both list fields are representable lists and the JSON law holds, the whole client comes back |
| GoogleSheets.OutletRoundTrip | utils/google_sheets.py:140-164 | an outlet's id, name, domain and type always come back; when tier and reach are ints of float precision and `float` reads integer text exactly, the whole outlet comes back |
| GoogleSheets.CellsByPosition | utils/google_sheets.py:117-123 | with headers at their own positions, each column reads its cell |
| GoogleSheets.HistoryStringsRoundTrip | utils/google_sheets.py:167-203 | a history item's string fields come back |
| GoogleSheets.HistoryMapsRoundTrip | utils/google_sheets.py:167-203 | representable tier and detailed score dicts come back, given the JSON law |
| GoogleSheets.HistoryRoundTrip | utils/google_sheets.py:167-203 | a history item whose score is a double and whose score dicts are representable comes back whole |
| GoogleSheets.HistoryScoreRoundTrip | utils/google_sheets.py:179-194 | a total score that is a double comes back |
| CodecWitness.LawfulCodecExists | utils/google_sheets.py:71-107 | some codec keeps the JSON, integer-text and float-text laws at once, and counts every whole number as a double |
| GoogleSheets.MissingColumnDefaults | utils/google_sheets.py:111-152 | a missing column gives "" or the type default |
| GoogleSheets.Row.PadTo | utils/google_sheets.py:113-114 | the caller's row is extended in place with "" cells |
| GoogleSheets.RowToClient | utils/google_sheets.py:111-124 | pads the row in place and reads the client from it |
| GoogleSheets.RowToOutlet | utils/google_sheets.py:140-152 | pads the row in place and reads the outlet from it |
| GoogleSheets.RowToHistory | utils/google_sheets.py:167-185 | pads the row in place and reads the history item from it |
| GoogleSheets.WithCell | utils/google_sheets.py:384 | `update_cell` sets one cell, keeps the others, and extends a short row |
| GoogleSheets.UpdatedRows | utils/google_sheets.py:381-387 | the update keeps the number of rows |
| GoogleSheets.SelectedCount | utils/google_sheets.py:381-387 | the count never exceeds the number of rows |
| GoogleSheets.UpdateStep | utils/google_sheets.py:381-387 | one loop step updates row `i` exactly when its id is selected, and counts it |
| GoogleSheets.UpdatedRowsPointwise | utils/google_sheets.py:381-387 | each long-enough row whose id is listed gets the new tier; every other row is unchanged |
| GoogleSheets.UpdateIdempotent | utils/google_sheets.py:381-387 | updating twice is updating once |
| GoogleSheets.WithCellAgain | utils/google_sheets.py:384 | writing a cell's own value changes nothing |
| GoogleSheets.Worksheet.TierUpdated | utils/google_sheets.py:372-390 | the header row stays; the row count is kept |
| GoogleSheets.Worksheet.BulkUpdateOutletTiers | utils/google_sheets.py:372-390 | the sheet becomes the updated grid; the method returns the number of selected rows, or 0 when the headers lack "id" or "tier" |
| Storage.FirstWhereIsFirst | utils/storage.py:202-208 | the first element satisfying the test, or None exactly when none does |
| Storage.FindFirst | utils/storage.py:202-208 | the search loop returns the first match |
| Storage.GetClientById | utils/storage.py:55-61 | the first client with the id, or None exactly when there is none |
| Storage.GetOutletById | utils/storage.py:84-90 | the first outlet with the id, or None exactly when there is none |
| Storage.GetHistoryItem | utils/storage.py:158-164 | the first history item with the id, or None exactly when there is none |
| Storage.Without | utils/storage.py:214 | the filtered list is never longer |
| Storage.WithoutRemovesOnlyId | utils/storage.py:214 | exactly the batches with the id are removed |
| Storage.WithoutShrinks | utils/storage.py:211-219 | the list shrinks exactly when some batch has the id |
| Storage.CountStatus | utils/storage.py:251-252 | a status count never exceeds the number of articles |
| Storage.Scores | utils/storage.py:253 | there are no more scores than articles |
| Storage.SumBounds | utils/storage.py:257 | a sum of bounded scores is bounded |
| Storage.MeanBounds | utils/storage.py:257 | the mean of bounded scores is within the bounds |
| Storage.ScoresFromArticles | utils/storage.py:253 | every score is some article's `total_score` |
| Storage.FirstUpdatable | utils/storage.py:245-247 | the first batch with the id and a valid index, or none exactly when no batch qualifies |
| Storage.CountStatusReplace | utils/storage.py:249-252 | replacing one article moves the status counts by its old and new status |
| Storage.StatusCountsDisjoint | utils/storage.py:251-252 | successes and failures together never exceed the article count |
| Storage.RecountedBounds | utils/storage.py:249-257 | only that article changes; the counts fit; the average stays within the score bounds |
| Storage.LessEqTotal | utils/storage.py:230 | string order is total |
| Storage.LessEqTransitive | utils/storage.py:230 | string order is transitive |
| Storage.Insert | utils/storage.py:230 | insertion keeps every element |
| Storage.InsertSorted | utils/storage.py:230 | insertion keeps a list sorted |
| Storage.Sort | utils/storage.py:230 | sorting is a permutation |
| Storage.SortSorted | utils/storage.py:230 | sorting yields a sorted list |
| Storage.BatchNames | utils/storage.py:230 | only non-empty names are kept |
| Storage.BatchStore.constructor | utils/storage.py:172-174 | the store holds the loaded batches |
| Storage.BatchStore.AddBatch | utils/storage.py:182-199 | the stamped batch goes in front of the old batches in their order, is saved once, and its id is returned |
| Storage.BatchStore.GetBatchById | utils/storage.py:202-208 | the first batch with the id |
| Storage.BatchStore.DeleteBatch | utils/storage.py:211-219 | removes every batch with the id, keeps the others in order, and returns True and saves only when one went |
| Storage.BatchStore.UpdateBatchArticle | utils/storage.py:233-260 | changes nothing and returns False unless some batch qualifies; otherwise updates the first qualifying batch's article and counts and saves once |
| Storage.FirstUpdatableAt | utils/storage.py:245-247 | a qualifying batch with none before it is the one updated |
| Storage.UniqueBatchNamesSorted | utils/storage.py:227-230 | the names are sorted and are exactly the non-empty batch names, duplicates kept |
| BatchAnalysis.UrlFromCellSpec | pages/6_Batch_Analysis.py:85-97 | a non-empty hyperlink wins, stripped; the URL has no outer whitespace; it is empty exactly when the hyperlink or the cell is blank |
| BatchAnalysis.KeyMessagesFound | pages/6_Batch_Analysis.py:100-113 | the messages of high, then medium, then low, with non-dict entries skipped |
| BatchAnalysis.FoundAllOfKeys | pages/6_Batch_Analysis.py:106-111 | the loop over the three keys concatenates their lists in order |
| BatchAnalysis.AnalysisNotesSpec | pages/6_Batch_Analysis.py:116-139 | assessment, strengths and weaknesses in that order, empty parts left out, "Analysis complete" when all are empty |
| BatchAnalysis.AnalysisNotesCases | pages/6_Batch_Analysis.py:116-139 | the exact notes for each of the eight combinations of present and absent parts |
| BatchAnalysis.MatchOutlet | pages/6_Batch_Analysis.py:197-201 | the first outlet whose lower-cased domain contains, or is contained in, the URL's domain |
| BatchAnalysis.ContainsEmpty | pages/6_Batch_Analysis.py:199 | the empty domain occurs in every text |
| BatchAnalysis.ContainsItself | pages/6_Batch_Analysis.py:199 | a domain occurs in itself |
| BatchAnalysis.DomainsOverlapCases | pages/6_Batch_Analysis.py:199 | an empty domain on either side, or equal domains, match |
| BatchAnalysis.EmptyDomainShadowsLaterOutlets | pages/6_Batch_Analysis.py:197-201 | an outlet with an empty domain matches every URL and shadows the outlets after it |
| BatchAnalysis.FetchFailureNotesWithoutStatus | pages/6_Batch_Analysis.py:170-183 | without a status the notes are "FETCH FAILED: " + the error, and nothing more for at most one fetch error |
| BatchAnalysis.FetchFailureNotesWithStatus | pages/6_Batch_Analysis.py:170-183 | with a status the notes start with "FETCH FAILED: HTTP n \| error" |
| BatchAnalysis.FetchFailureNotesAttempts | pages/6_Batch_Analysis.py:179-183 | with more than one fetch error the notes end with "Attempts: " and the errors joined |
| BatchAnalysis.ProcessSingleArticle | pages/6_Batch_Analysis.py:142-243 | the per-article flow equals its specification |
| BatchAnalysis.FetchFailureResult | pages/6_Batch_Analysis.py:163-183 | on a fetch failure: status "failed", the fetch error, no score, the fallback outlet or else the domain, and "FETCH FAILED: " notes |
| BatchAnalysis.ProcessedWellFormed | pages/6_Batch_Analysis.py:142-243 | a processed article is "success" or "failed", never "skipped"; a success carries the grade of its score, which lies in [0, 116] |
| BatchAnalysis.BatchResults | pages/6_Batch_Analysis.py:575-627 | one result per row |
| BatchAnalysis.CountResults | pages/6_Batch_Analysis.py:620-623 | a status count never exceeds the number of results |
| BatchAnalysis.RunBatch | pages/6_Batch_Analysis.py:572-627 | the loop yields one result per row, and the success and failure counters equal the counts of those statuses |
| BatchAnalysis.BatchResultsWellFormed | pages/6_Batch_Analysis.py:575-627 | every result is skipped, success or failed |
| BatchAnalysis.RowResultWellFormed | pages/6_Batch_Analysis.py:575-618 | one row yields one well-formed result |
| BatchAnalysis.CountsPartition | pages/6_Batch_Analysis.py:620-623 | success, failed and skipped counts add up to the number of results |
| BatchAnalysis.BatchCountsAddUp | pages/6_Batch_Analysis.py:672-679 | successful + failed + skipped equals the article count |
| BatchAnalysis.ArticlesAgree | pages/6_Batch_Analysis.py:636-669 | the saved articles have the same success and failure counts and scores as the results |
| BatchAnalysis.SummaryMatchesRecount | pages/6_Batch_Analysis.py:636-681 | the saved summary's counts and average agree with what `update_batch_article` recomputes from its articles |
| BatchAnalysis.AnalyseBatch | pages/6_Batch_Analysis.py:572-682 | the batch's results are saved as one summary in front of the store, with exactly one write of the store |

## Left out

- Network, browser and clock. `requests.get`, the Playwright browser, `time.sleep`, logging and `datetime.now()` are abstracted:
  - each URL's answers are inputs (`Site`, `Web`);
  - the headless outcome is an input;
  - browser availability is a boolean;
  - ids and timestamps are parameters.
- Answers are fixed per URL and attempt. A site that answers differently when it is asked again for the same attempt is not modelled.
- HTML parsing, CSS selectors, `get_text` and `decompose` are foreign. A page is a summary: selector results, counts, text lengths, paragraph texts and markup. URL parsing (`urlparse`, `parse_qs`) is replaced by the host and the query pairs it yields.
- `analyze_article` (the LLM call) is a function from the matched outlet to an outcome.
- `BatchAnalysis.ProcessSpec` takes the score and the found messages from that outcome. The walk over the analysis dict that builds `scores` (pages/6_Batch_Analysis.py:219-227) is not modelled.
- The JSON codec, Python's float text conversions, the set of doubles and the `repr` of lists and dicts (what `str` gives for them) are functions of a `Codec`. `ContainerLaw`, `IntLaw` and `FloatLaw` state what the round trips rely on; each round trip assumes only the laws it uses. The model does not fix a particular JSON text or float formatting.
- Round trips are promised only for representable values: every float a double (`isFloat`) and no dict with a repeated key. An exact real that is no double, such as the sum 0.1 + 0.2 taken exactly, does not survive `str`; a Python dict never repeats a key, while the model's `Dict` is a list of pairs that could.
- ClientRoundTrip: the whole client comes back only when its two list fields are representable lists; a key-messages or competitors value that is a dict, or holds a non-double, is not promised back.
- OutletRoundTrip: the whole outlet comes back only when tier and reach are ints of float precision; other values in those cells go through `int(float(...))` and are not promised back.
- The gspread client, file I/O of the JSON store, and the Sheets functions that only read or write whole sheets are not modelled.
- Rounding is not modelled. `round(total, 1)` in scoring, `round(avg, 1)` in storage and in the batch summary are exact `real` values.
- Python floats are exact reals:
  - `float("inf")` in `int(float(...))` raises OverflowError in Python; the model has no infinities.
  - NaN cells are `Missing`.
  - `str()` of non-string cells is the text given.
- `Text.Lower` and the case-insensitive byline regex fold ASCII letters only. Python folds all of Unicode.
- The JavaScript-rendered branch of `fetch_article` tests the extractor's message for a substring (utils/article_fetcher.py:549). It is modelled as the `JsRendered` error kind, the only message with those words.
- PDF and DOCX text extraction and their exceptions (utils/document_parser.py:6-32, 60-61) are inputs of kind `Extracted`. The UTF-8 decoding is one of those inputs too.
- LeadingDigits (`DocumentParser.LeadingDigits`): recognises the ASCII digits 0-9 only. Python's `\d` in the numbering regex (utils/document_parser.py:91) also matches every other Unicode decimal digit (Arabic-Indic, Devanagari, full-width and so on), so a line numbered in such digits keeps its numbering in the model. `DropNumbering`, `DropNumberingWhen` and `DropNumberingSpec` inherit this.
- The URL's host in the batch loop (`urlparse(url).netloc` inside `extract_domain`) is an input of the batch context; `www.` is then removed as `extract_domain` does.
- `DocumentParser.Suffix` does not model `Path`'s handling of trailing slashes.
- The catch-all `except` of `fetch_article` (utils/article_fetcher.py:635-639) is not modelled. It guards only against errors in code the model replaces by inputs.
- ArticleFetcher.FetchArticle: the recursive fetch is taken only when the wrapped URL is shorter than the wrapper. It always is, because the wrapped URL is part of the wrapper's query. The model needs this to prove that the recursion ends.
- `add_batch` mutates the caller's dict in place. That aliasing is not modelled: the stamped batch is a new value.
- An API error in the middle of the bulk tier update (some cells written, then 0 returned) is not modelled. `get_or_create_sheet` is not modelled either: the worksheet's values are given.
- The Streamlit UI, the `render_*` markup and the Excel/CSV import and export are not modelled.
