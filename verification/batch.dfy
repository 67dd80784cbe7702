/** pages/6_Batch_Analysis.py: how a spreadsheet row becomes a URL, how one
    article's fetch and analysis become a result row, and how the batch loop
    counts its results and saves the batch summary. Fetching, URL parsing and
    the analyser are given per URL as functions. */
module BatchAnalysis {
  import opened Optional
  import opened Text
  import Scoring
  import Styles
  import GoogleSheets
  import Storage
  import Fetching

  /** A spreadsheet cell: `Missing` is a None or NaN value, `CellText` the
      `str()` of any other value. */
  datatype CellValue = Missing | CellText(text: string)

  /** `get_url_from_cell(row_idx, col_name, cell_value, hyperlinks)`. */
  function UrlFromCell(rowIdx: int, colName: string, cell: CellValue, hyperlinks: map<(int, string), string>): string
  {
    if (rowIdx, colName) in hyperlinks && hyperlinks[(rowIdx, colName)] != [] then Strip(hyperlinks[(rowIdx, colName)])
    else if cell.Missing? || Strip(cell.text) == [] then ""
    else Strip(cell.text)
  }

  /** A non-empty hyperlink takes precedence over the cell's text, the URL
      never starts or ends with whitespace, and it is empty exactly when the
      hyperlink (if any) is blank and the cell is missing or blank. */
  lemma UrlFromCellSpec(rowIdx: int, colName: string, cell: CellValue, hyperlinks: map<(int, string), string>)
    ensures var url := UrlFromCell(rowIdx, colName, cell, hyperlinks);
      var link := (rowIdx, colName);
      ((link in hyperlinks && hyperlinks[link] != []) ==> url == Strip(hyperlinks[link])) &&
      (url == [] || (!IsSpace(url[0]) && !IsSpace(url[|url| - 1]))) &&
      (url == [] <==>
        (if link in hyperlinks && hyperlinks[link] != [] then AllSpace(hyperlinks[link])
         else cell.Missing? || AllSpace(cell.text)))
  {
    var link := (rowIdx, colName);
    if link in hyperlinks && hyperlinks[link] != [] {
      StripEnds(hyperlinks[link]);
      StripEmptyIff(hyperlinks[link]);
    } else if cell.CellText? {
      StripEnds(cell.text);
      StripEmptyIff(cell.text);
    }
  }

  /** An entry of the analysis's "tier_2_messaging": a dictionary with its
      "messages_found" (an absent list as `[]`), or some other value. */
  datatype MessageEntry = NotADict | Messages(found: seq<string>)

  const MessageKeys: seq<string> := ["key_messages_high", "key_messages_medium", "key_messages_low"]

  /** The messages found under one key; a missing key reads as an empty dictionary. */
  function FoundUnder(tier2: map<string, MessageEntry>, key: string): seq<string>
  {
    if key in tier2 && tier2[key].Messages? then tier2[key].found else []
  }

  /** The messages found under each key, in the order of the keys. */
  function FoundAll(tier2: map<string, MessageEntry>, keys: seq<string>): seq<string>
  {
    if keys == [] then [] else FoundAll(tier2, keys[..|keys| - 1]) + FoundUnder(tier2, keys[|keys| - 1])
  }

  /** `get_key_messages_found(analysis)`, over the analysis's "tier_2_messaging". */
  method KeyMessagesFound(tier2: map<string, MessageEntry>) returns (found: seq<string>)
    ensures found == FoundUnder(tier2, "key_messages_high") + FoundUnder(tier2, "key_messages_medium") +
      FoundUnder(tier2, "key_messages_low")
  {
    found := [];
    for i := 0 to |MessageKeys|
      invariant found == FoundAll(tier2, MessageKeys[..i])
    {
      assert MessageKeys[..i + 1][..i] == MessageKeys[..i];
      var entry := if MessageKeys[i] in tier2 then tier2[MessageKeys[i]] else Messages([]);
      if entry.Messages? && entry.found != [] {
        found := found + entry.found;
      }
    }
    assert MessageKeys[..3] == MessageKeys;
    FoundAllOfKeys(tier2);
  }

  lemma FoundAllOfKeys(tier2: map<string, MessageEntry>)
    ensures FoundAll(tier2, MessageKeys) == FoundUnder(tier2, "key_messages_high") + FoundUnder(tier2, "key_messages_medium") +
      FoundUnder(tier2, "key_messages_low")
  {
    var k := MessageKeys;
    assert FoundAll(tier2, k) == FoundAll(tier2, k[..2]) + FoundUnder(tier2, k[2]) by {
      assert k[..|k| - 1] == k[..2];
    }
    assert FoundAll(tier2, k[..2]) == FoundAll(tier2, k[..1]) + FoundUnder(tier2, k[1]) by {
      assert k[..2][..1] == k[..1];
    }
    assert FoundAll(tier2, k[..1]) == FoundUnder(tier2, k[0]) by {
      assert k[..1][..0] == [];
    }
  }

  /** The non-empty parts of the notes, in order. */
  function NotesParts(assessment: string, strengths: seq<string>, weaknesses: seq<string>): seq<string>
  {
    (if assessment != [] then [assessment] else []) +
    (if strengths != [] then ["Strengths: " + Join(strengths, "; ")] else []) +
    (if weaknesses != [] then ["Areas to improve: " + Join(weaknesses, "; ")] else [])
  }

  /** `get_analysis_notes(analysis)`, over the summary's assessment, strengths
      and weaknesses (absent ones as empty). */
  function AnalysisNotes(assessment: string, strengths: seq<string>, weaknesses: seq<string>): string
  {
    var parts := NotesParts(assessment, strengths, weaknesses);
    if parts == [] then "Analysis complete" else Join(parts, " | ")
  }

  /** The notes fall back to "Analysis complete" when the summary is empty;
      otherwise the assessment leads, the strengths follow it, the areas to
      improve close the notes, and an assessment alone is the whole note. */
  lemma AnalysisNotesSpec(assessment: string, strengths: seq<string>, weaknesses: seq<string>)
    ensures var notes := AnalysisNotes(assessment, strengths, weaknesses);
      var s := "Strengths: " + Join(strengths, "; ");
      var w := "Areas to improve: " + Join(weaknesses, "; ");
      (assessment == [] && strengths == [] && weaknesses == [] ==> notes == "Analysis complete") &&
      (assessment != [] ==> StartsWith(notes, assessment)) &&
      (assessment != [] && strengths == [] && weaknesses == [] ==> notes == assessment) &&
      (assessment == [] && strengths != [] ==> StartsWith(notes, s)) &&
      (assessment != [] && strengths != [] ==> StartsWith(notes, assessment + " | " + s)) &&
      (weaknesses != [] ==> EndsWith(notes, w))
  {
    var s := "Strengths: " + Join(strengths, "; ");
    var w := "Areas to improve: " + Join(weaknesses, "; ");
    var parts := NotesParts(assessment, strengths, weaknesses);
    if parts != [] {
      JoinStartsWith(parts, " | ");
      JoinEndsWith(parts, " | ");
      if assessment != [] && strengths != [] {
        JoinStartsWithTwo(parts, " | ");
      }
    }
  }

  /** The notes exactly, for each combination of present and absent parts:
      the present parts in the order assessment, strengths, areas to
      improve, separated by " | ". */
  lemma AnalysisNotesCases(assessment: string, strengths: seq<string>, weaknesses: seq<string>)
    ensures var a, notes := assessment, AnalysisNotes(assessment, strengths, weaknesses);
      var s := "Strengths: " + Join(strengths, "; ");
      var w := "Areas to improve: " + Join(weaknesses, "; ");
      (a == [] && strengths == [] && weaknesses == [] ==> notes == "Analysis complete") &&
      (a != [] && strengths == [] && weaknesses == [] ==> notes == a) &&
      (a == [] && strengths != [] && weaknesses == [] ==> notes == s) &&
      (a == [] && strengths == [] && weaknesses != [] ==> notes == w) &&
      (a != [] && strengths != [] && weaknesses == [] ==> notes == a + " | " + s) &&
      (a != [] && strengths == [] && weaknesses != [] ==> notes == a + " | " + w) &&
      (a == [] && strengths != [] && weaknesses != [] ==> notes == s + " | " + w) &&
      (a != [] && strengths != [] && weaknesses != [] ==> notes == a + " | " + s + " | " + w)
  {
    var s := "Strengths: " + Join(strengths, "; ");
    var w := "Areas to improve: " + Join(weaknesses, "; ");
    var parts := NotesParts(assessment, strengths, weaknesses);
    if |parts| == 2 {
      JoinCons(parts[0], parts[1..], " | ");
      assert [parts[0]] + parts[1..] == parts;
    } else if |parts| == 3 {
      JoinCons(parts[1], parts[2..], " | ");
      assert [parts[1]] + parts[2..] == parts[1..];
      JoinCons(parts[0], parts[1..], " | ");
      assert [parts[0]] + parts[1..] == parts;
      assert parts == [assessment, s, w];
    }
  }

  /** The analyser's summary of an article, as far as the batch page reads it. */
  datatype Analysis = Analysis(
    scores: Scoring.Scores,
    tier2: map<string, MessageEntry>,
    assessment: string,
    strengths: seq<string>,
    weaknesses: seq<string>)

  /** What `analyze_article` returned: its error (when given) or the analysis. */
  datatype AnalysisOutcome = AnalysisFailed(error: Option<string>) | Analysed(analysis: Analysis)

  /** What `fetch_article(url)` returned: the success flag, the content or
      error message, and the metadata fields read here (absent ones empty). */
  datatype FetchOutcome = FetchOutcome(
    success: bool,
    contentOrError: string,
    httpStatus: Option<int>,
    domain: string,
    title: string,
    fetchErrors: seq<string>)

  /** One row of the results table. */
  datatype ArticleResult = ArticleResult(
    url: string,
    status: string,
    score: Option<real>,
    grade: Option<string>,
    keyMessagesFound: seq<string>,
    analysisNotes: string,
    headline: string,
    outlet: string,
    error: Option<string>,
    httpStatus: Option<int>,
    spreadsheetHeadline: string,
    spreadsheetOutlet: string)

  /** Whether the outlet's domain and the URL's domain contain one another,
      ignoring case. */
  predicate DomainsOverlap(outletDomain: string, urlDomain: string)
  {
    Contains(Lower(urlDomain), Lower(outletDomain)) || Contains(Lower(outletDomain), Lower(urlDomain))
  }

  /** The outlet-matching loop of `process_single_article`: the first outlet
      whose domain overlaps the URL's. */
  method MatchOutlet(outlets: seq<GoogleSheets.Outlet>, urlDomain: string) returns (info: Option<GoogleSheets.Outlet>)
    ensures info == Storage.FirstWhere(outlets, (o: GoogleSheets.Outlet) => DomainsOverlap(o.domain, urlDomain))
  {
    info := None;
    for i := 0 to |outlets|
      invariant Storage.FirstWhere(outlets, (o: GoogleSheets.Outlet) => DomainsOverlap(o.domain, urlDomain)) ==
        Storage.FirstWhere(outlets[i..], (o: GoogleSheets.Outlet) => DomainsOverlap(o.domain, urlDomain))
    {
      assert outlets[i..][1..] == outlets[i + 1..];
      if DomainsOverlap(outlets[i].domain, urlDomain) {
        info := Some(outlets[i]);
        return;
      }
    }
  }

  lemma ContainsEmpty(s: string)
    ensures Contains(s, [])
  {
    assert OccursAt(s, [], 0);
  }

  lemma ContainsItself(s: string)
    ensures Contains(s, s)
  {
    assert OccursAt(s, s, 0);
  }

  /** An outlet with an empty domain matches every URL, and so does every
      outlet when the URL's domain is empty; a domain always matches itself. */
  lemma DomainsOverlapCases(outletDomain: string, urlDomain: string)
    ensures outletDomain == [] ==> DomainsOverlap(outletDomain, urlDomain)
    ensures urlDomain == [] ==> DomainsOverlap(outletDomain, urlDomain)
    ensures Lower(outletDomain) == Lower(urlDomain) ==> DomainsOverlap(outletDomain, urlDomain)
  {
    ContainsEmpty(Lower(urlDomain));
    ContainsEmpty(Lower(outletDomain));
    ContainsItself(Lower(urlDomain));
  }

  /** An outlet with an empty domain wins over every outlet listed after it,
      even one whose domain is exactly the URL's. */
  lemma EmptyDomainShadowsLaterOutlets(outlets: seq<GoogleSheets.Outlet>, urlDomain: string, k: nat)
    requires k < |outlets| && outlets[k].domain == []
    requires forall j | 0 <= j < k :: !DomainsOverlap(outlets[j].domain, urlDomain)
    ensures Storage.FirstWhere(outlets, (o: GoogleSheets.Outlet) => DomainsOverlap(o.domain, urlDomain)) == Some(outlets[k])
  {
    DomainsOverlapCases(outlets[k].domain, urlDomain);
    var p := (o: GoogleSheets.Outlet) => DomainsOverlap(o.domain, urlDomain);
    Storage.FirstWhereIsFirst(outlets, p);
    var found := Storage.FirstWhere(outlets, p);
    assert p(outlets[k]);
    var m :| 0 <= m < |outlets| && outlets[m] == found.value && p(outlets[m]) && forall j | 0 <= j < m :: !p(outlets[j]);
    assert m == k;
  }

  /** The "FETCH FAILED" note: the HTTP status when there is one, the error,
      and every attempt's error when there was more than one. */
  function FetchFailureNotes(httpStatus: Option<int>, error: string, fetchErrors: seq<string>): string
  {
    "FETCH FAILED: " + Join(FailureParts(httpStatus, error, fetchErrors), " | ")
  }

  /** The parts of the "FETCH FAILED" note, in order. */
  function FailureParts(httpStatus: Option<int>, error: string, fetchErrors: seq<string>): seq<string>
  {
    (if httpStatus.Some? && httpStatus.value != 0 then ["HTTP " + IntToString(httpStatus.value)] else []) + [error] +
    (if |fetchErrors| > 1 then ["Attempts: " + Join(fetchErrors, "; ")] else [])
  }

  /** Without a status the error follows the prefix directly, and a single
      attempt leaves it alone in the note. */
  lemma FetchFailureNotesWithoutStatus(httpStatus: Option<int>, error: string, fetchErrors: seq<string>)
    requires httpStatus.None? || httpStatus.value == 0
    ensures StartsWith(FetchFailureNotes(httpStatus, error, fetchErrors), "FETCH FAILED: " + error)
    ensures |fetchErrors| <= 1 ==> FetchFailureNotes(httpStatus, error, fetchErrors) == "FETCH FAILED: " + error
  {
    var parts := FailureParts(httpStatus, error, fetchErrors);
    assert parts[0] == error;
    JoinStartsWith(parts, " | ");
    StartsWithPrepend("FETCH FAILED: ", Join(parts, " | "), error);
    if |fetchErrors| <= 1 {
      assert parts == [error];
    }
  }

  /** With a status the note opens with "HTTP n" and then the error. */
  lemma FetchFailureNotesWithStatus(httpStatus: Option<int>, error: string, fetchErrors: seq<string>)
    requires httpStatus.Some? && httpStatus.value != 0
    ensures StartsWith(FetchFailureNotes(httpStatus, error, fetchErrors),
                       "FETCH FAILED: " + ("HTTP " + IntToString(httpStatus.value) + " | " + error))
  {
    var parts := FailureParts(httpStatus, error, fetchErrors);
    assert parts[0] == "HTTP " + IntToString(httpStatus.value) && parts[1] == error;
    JoinStartsWithTwo(parts, " | ");
    StartsWithPrepend("FETCH FAILED: ", Join(parts, " | "), parts[0] + " | " + parts[1]);
  }

  /** Retries are listed at the end of the note. */
  lemma FetchFailureNotesAttempts(httpStatus: Option<int>, error: string, fetchErrors: seq<string>)
    requires |fetchErrors| > 1
    ensures EndsWith(FetchFailureNotes(httpStatus, error, fetchErrors), "Attempts: " + Join(fetchErrors, "; "))
  {
    var parts := FailureParts(httpStatus, error, fetchErrors);
    JoinEndsWith(parts, " | ");
    EndsWithPrepend("FETCH FAILED: ", Join(parts, " | "), parts[|parts| - 1]);
  }

  /** The result row that `process_single_article` starts from. */
  function Pending(url: string, httpStatus: Option<int>): ArticleResult
  {
    ArticleResult(url, "pending", None, None, [], "", "", "", None, httpStatus, "", "")
  }

  /** `fallback_outlet or metadata.get("domain", "")`. */
  function OutletName(fallbackOutlet: string, domain: string): string
  {
    if fallbackOutlet != [] then fallbackOutlet else domain
  }

  /** The result of `process_single_article` for one URL, given what the
      fetch returned and what the analyser returns for the matched outlet. */
  function ProcessSpec(url: string, outlets: seq<GoogleSheets.Outlet>, fallbackOutlet: string, fetched: FetchOutcome,
                       urlDomain: string, analyze: Option<GoogleSheets.Outlet> -> AnalysisOutcome): ArticleResult
  {
    var pending := Pending(url, fetched.httpStatus);
    if !fetched.success then
      pending.(status := "failed",
               error := Some(fetched.contentOrError),
               outlet := OutletName(fallbackOutlet, fetched.domain),
               analysisNotes := FetchFailureNotes(fetched.httpStatus, fetched.contentOrError, fetched.fetchErrors))
    else
      var named := pending.(headline := fetched.title, outlet := OutletName(fallbackOutlet, fetched.domain));
      var outletInfo := Storage.FirstWhere(outlets, (o: GoogleSheets.Outlet) => DomainsOverlap(o.domain, urlDomain));
      match analyze(outletInfo)
      case AnalysisFailed(e) =>
        var message := if e.Some? then e.value else "Analysis failed";
        named.(status := "failed", error := Some(message), analysisNotes := "ANALYSIS FAILED: " + message)
      case Analysed(a) =>
        var total := Scoring.TotalScore(a.scores);
        named.(status := "success",
               score := Some(total),
               grade := Some(Styles.ScoreGrade(total)),
               keyMessagesFound := FoundUnder(a.tier2, "key_messages_high") + FoundUnder(a.tier2, "key_messages_medium") +
                 FoundUnder(a.tier2, "key_messages_low"),
               analysisNotes := AnalysisNotes(a.assessment, a.strengths, a.weaknesses))
  }

  /** `process_single_article(api_key, url, client, outlets, fallback_outlet)`. */
  method ProcessSingleArticle(url: string, outlets: seq<GoogleSheets.Outlet>, fallbackOutlet: string, fetched: FetchOutcome,
                              urlDomain: string, analyze: Option<GoogleSheets.Outlet> -> AnalysisOutcome)
    returns (result: ArticleResult)
    ensures result == ProcessSpec(url, outlets, fallbackOutlet, fetched, urlDomain, analyze)
  {
    result := Pending(url, fetched.httpStatus);
    if !fetched.success {
      result := result.(status := "failed", error := Some(fetched.contentOrError),
                        outlet := OutletName(fallbackOutlet, fetched.domain));
      var parts: seq<string> := [];
      if fetched.httpStatus.Some? && fetched.httpStatus.value != 0 {
        parts := parts + ["HTTP " + IntToString(fetched.httpStatus.value)];
      }
      parts := parts + [fetched.contentOrError];
      if |fetched.fetchErrors| > 1 {
        parts := parts + ["Attempts: " + Join(fetched.fetchErrors, "; ")];
      }
      assert parts == FailureParts(fetched.httpStatus, fetched.contentOrError, fetched.fetchErrors);
      result := result.(analysisNotes := "FETCH FAILED: " + Join(parts, " | "));
      return;
    }
    result := result.(headline := fetched.title, outlet := OutletName(fallbackOutlet, fetched.domain));
    var outletInfo := MatchOutlet(outlets, urlDomain);
    var outcome := analyze(outletInfo);
    if outcome.AnalysisFailed? {
      var message := if outcome.error.Some? then outcome.error.value else "Analysis failed";
      result := result.(status := "failed", error := Some(message), analysisNotes := "ANALYSIS FAILED: " + message);
      return;
    }
    var analysis := outcome.analysis;
    var total := Scoring.TotalScore(analysis.scores);
    var found := KeyMessagesFound(analysis.tier2);
    result := result.(status := "success", score := Some(total), grade := Some(Styles.ScoreGrade(total)),
                      keyMessagesFound := found,
                      analysisNotes := AnalysisNotes(analysis.assessment, analysis.strengths, analysis.weaknesses));
  }

  /** What the fetch-failure branch promises: a failed row carrying the error,
      named after the spreadsheet's outlet or else the fetched domain, with
      no score and a "FETCH FAILED" note. */
  lemma FetchFailureResult(url: string, outlets: seq<GoogleSheets.Outlet>, fallbackOutlet: string, fetched: FetchOutcome,
                           urlDomain: string, analyze: Option<GoogleSheets.Outlet> -> AnalysisOutcome)
    requires !fetched.success
    ensures var r := ProcessSpec(url, outlets, fallbackOutlet, fetched, urlDomain, analyze);
      r.status == "failed" && r.error == Some(fetched.contentOrError) && r.score.None? && r.grade.None? &&
      r.url == url && r.httpStatus == fetched.httpStatus &&
      (fallbackOutlet != [] ==> r.outlet == fallbackOutlet) &&
      (fallbackOutlet == [] ==> r.outlet == fetched.domain) &&
      StartsWith(r.analysisNotes, "FETCH FAILED: ")
  {
    var notes := FetchFailureNotes(fetched.httpStatus, fetched.contentOrError, fetched.fetchErrors);
    StartsWithPrepend("FETCH FAILED: ", Join(FailureParts(fetched.httpStatus, fetched.contentOrError, fetched.fetchErrors), " | "), []);
  }

  /** The result rows the batch keeps in its summary: every processed article
      ends "success" with a score or "failed" without one, and a successful
      one is graded by its score. */
  predicate WellFormed(r: ArticleResult)
  {
    (r.status == "success" || r.status == "failed" || r.status == "skipped") &&
    (r.score.Some? <==> r.status == "success")
  }

  lemma ProcessedWellFormed(url: string, outlets: seq<GoogleSheets.Outlet>, fallbackOutlet: string, fetched: FetchOutcome,
                            urlDomain: string, analyze: Option<GoogleSheets.Outlet> -> AnalysisOutcome)
    ensures var r := ProcessSpec(url, outlets, fallbackOutlet, fetched, urlDomain, analyze);
      WellFormed(r) && r.status != "skipped" &&
      (r.status == "success" ==> r.grade == Some(Styles.ScoreGrade(r.score.value)) && 0.0 <= r.score.value <= Scoring.MaxTotal)
  {
  }

  /** One row of the spreadsheet: the URL column's cell and the `str()` of the
      outlet and headline columns (empty when not mapped). */
  datatype Row = Row(urlCell: CellValue, outletText: string, headlineText: string)

  /** The batch run's inputs besides the rows: the mapped URL column, the
      workbook's hyperlinks, the outlets, and per URL the fetch outcome, the
      URL's host and the analyser's answer for a matched outlet. */
  datatype Context = Context(
    urlCol: string,
    hyperlinks: map<(int, string), string>,
    outlets: seq<GoogleSheets.Outlet>,
    fetch: string -> FetchOutcome,
    hostOf: string -> string,
    analyze: (string, Option<GoogleSheets.Outlet>) -> AnalysisOutcome)

  /** `extract_domain(url)`: the URL's host (parsed by `urlparse`, which is
      not part of this model) with the occurrences of "www." found left to
      right removed. */
  function DomainOf(ctx: Context, url: string): string
  {
    Fetching.ExtractDomain(ctx.hostOf(url))
  }

  /** The result row the loop appends for row `idx`. */
  function RowResult(ctx: Context, idx: int, row: Row): ArticleResult
  {
    var url := UrlFromCell(idx, ctx.urlCol, row.urlCell, ctx.hyperlinks);
    if url == [] then
      ArticleResult("", "skipped", None, None, [], "No URL provided", row.headlineText, row.outletText,
                    Some("No URL"), None, row.headlineText, row.outletText)
    else
      var r := ProcessSpec(url, ctx.outlets, row.outletText, ctx.fetch(url), DomainOf(ctx, url),
                           (o: Option<GoogleSheets.Outlet>) => ctx.analyze(url, o));
      r.(spreadsheetHeadline := row.headlineText, spreadsheetOutlet := row.outletText)
  }

  /** The result rows of the first `n` spreadsheet rows. */
  function BatchResults(ctx: Context, rows: seq<Row>, n: nat): (results: seq<ArticleResult>)
    requires n <= |rows|
    ensures |results| == n
  {
    if n == 0 then [] else BatchResults(ctx, rows, n - 1) + [RowResult(ctx, n - 1, rows[n - 1])]
  }

  /** How many result rows have the given status. */
  function CountResults(results: seq<ArticleResult>, status: string): (n: nat)
    ensures n <= |results|
  {
    if results == [] then 0
    else CountResults(results[..|results| - 1], status) + (if results[|results| - 1].status == status then 1 else 0)
  }

  /** `[r["score"] for r in results if r["score"] is not None]`. */
  function ResultScores(results: seq<ArticleResult>): seq<real>
  {
    if results == [] then []
    else
      var last := results[|results| - 1];
      ResultScores(results[..|results| - 1]) + (if last.score.Some? then [last.score.value] else [])
  }

  /** The loop of `main()` from "Start Batch Analysis" to the last row: it
      processes each row with a URL, skips the others, and counts. */
  method RunBatch(ctx: Context, rows: seq<Row>) returns (results: seq<ArticleResult>, successful: nat, failed: nat)
    ensures results == BatchResults(ctx, rows, |rows|)
    ensures successful == CountResults(results, "success")
    ensures failed == CountResults(results, "failed")
  {
    results := [];
    successful := 0;
    failed := 0;
    for idx := 0 to |rows|
      invariant results == BatchResults(ctx, rows, idx)
      invariant successful == CountResults(results, "success")
      invariant failed == CountResults(results, "failed")
    {
      var row := rows[idx];
      var url := UrlFromCell(idx, ctx.urlCol, row.urlCell, ctx.hyperlinks);
      if url == [] {
        results := results + [ArticleResult("", "skipped", None, None, [], "No URL provided", row.headlineText,
                                            row.outletText, Some("No URL"), None, row.headlineText, row.outletText)];
        assert results[..|results| - 1] == BatchResults(ctx, rows, idx);
        continue;
      }
      var result := ProcessSingleArticle(url, ctx.outlets, row.outletText, ctx.fetch(url), DomainOf(ctx, url),
                                         (o: Option<GoogleSheets.Outlet>) => ctx.analyze(url, o));
      ProcessedWellFormed(url, ctx.outlets, row.outletText, ctx.fetch(url), DomainOf(ctx, url),
                          (o: Option<GoogleSheets.Outlet>) => ctx.analyze(url, o));
      result := result.(spreadsheetHeadline := row.headlineText, spreadsheetOutlet := row.outletText);
      results := results + [result];
      assert results[..|results| - 1] == BatchResults(ctx, rows, idx);
      if result.status == "success" {
        successful := successful + 1;
      } else {
        failed := failed + 1;
      }
    }
  }

  /** Every row of a batch's results is well formed. */
  lemma {:induction false} BatchResultsWellFormed(ctx: Context, rows: seq<Row>, n: nat)
    requires n <= |rows|
    ensures forall k | 0 <= k < n :: WellFormed(BatchResults(ctx, rows, n)[k])
  {
    if n > 0 {
      BatchResultsWellFormed(ctx, rows, n - 1);
      RowResultWellFormed(ctx, n - 1, rows[n - 1]);
      var before := BatchResults(ctx, rows, n - 1);
      var after := BatchResults(ctx, rows, n);
      assert after == before + [RowResult(ctx, n - 1, rows[n - 1])];
      assert forall k | 0 <= k < n - 1 :: after[k] == before[k];
    }
  }

  /** Each row's result is well formed. */
  lemma RowResultWellFormed(ctx: Context, idx: int, row: Row)
    ensures WellFormed(RowResult(ctx, idx, row))
  {
    var url := UrlFromCell(idx, ctx.urlCol, row.urlCell, ctx.hyperlinks);
    if url != [] {
      ProcessedWellFormed(url, ctx.outlets, row.outletText, ctx.fetch(url), DomainOf(ctx, url),
                          (o: Option<GoogleSheets.Outlet>) => ctx.analyze(url, o));
    }
  }

  /** Every well-formed row is counted under exactly one of the three statuses. */
  lemma {:induction false} CountsPartition(results: seq<ArticleResult>)
    requires forall k | 0 <= k < |results| :: WellFormed(results[k])
    ensures CountResults(results, "success") + CountResults(results, "failed") + CountResults(results, "skipped") == |results|
  {
    if results != [] {
      CountsPartition(results[..|results| - 1]);
    }
  }

  /** successful + failed + skipped == article_count, and one result per row. */
  lemma BatchCountsAddUp(ctx: Context, rows: seq<Row>)
    ensures var results := BatchResults(ctx, rows, |rows|);
      |results| == |rows| &&
      CountResults(results, "success") + CountResults(results, "failed") + CountResults(results, "skipped") == |rows|
  {
    BatchResultsWellFormed(ctx, rows, |rows|);
    CountsPartition(BatchResults(ctx, rows, |rows|));
  }

  /** The article stored in the batch summary for a result row. */
  function ArticleOf(r: ArticleResult): Storage.Article
  {
    if r.status == "success" then
      Storage.Article(Some("success"), r.score, map["headline" := r.headline, "outlet" := r.outlet, "url" := r.url,
                                                   "analysis_notes" := r.analysisNotes])
    else
      Storage.Article(Some("failed"), None, map["headline" := r.spreadsheetHeadline,
                                                "outlet" := (if r.spreadsheetOutlet != [] then r.spreadsheetOutlet else r.outlet),
                                                "url" := r.url,
                                                "error" := (if r.error.Some? then r.error.value else "Unknown error")])
  }

  /** The stored articles: the successful and failed rows, skipped ones left out. */
  function ArticlesOf(results: seq<ArticleResult>): seq<Storage.Article>
  {
    if results == [] then []
    else
      var last := results[|results| - 1];
      ArticlesOf(results[..|results| - 1]) +
        (if last.status == "success" || last.status == "failed" then [ArticleOf(last)] else [])
  }

  /** The batch summary handed to `add_batch`. */
  function Summary(batchName: string, clientName: string, results: seq<ArticleResult>): Storage.Batch
  {
    Storage.Batch(None, batchName, None, clientName, |results|,
                  CountResults(results, "success"), CountResults(results, "failed"), CountResults(results, "skipped"),
                  Storage.Mean(ResultScores(results)), Some(ArticlesOf(results)))
  }

  /** The stored articles carry the same counts and scores as the result rows. */
  lemma {:induction false} ArticlesAgree(results: seq<ArticleResult>)
    requires forall k | 0 <= k < |results| :: WellFormed(results[k])
    ensures Storage.CountStatus(ArticlesOf(results), "success") == CountResults(results, "success")
    ensures Storage.CountStatus(ArticlesOf(results), "failed") == CountResults(results, "failed")
    ensures Storage.Scores(ArticlesOf(results)) == ResultScores(results)
  {
    if results != [] {
      var init := results[..|results| - 1];
      var last := results[|results| - 1];
      ArticlesAgree(init);
      var before := ArticlesOf(init);
      if last.status == "success" || last.status == "failed" {
        var after := before + [ArticleOf(last)];
        assert after[..|after| - 1] == before;
      } else {
        assert ArticlesOf(results) == before;
      }
    }
  }

  /** The summary saved for a batch holds the statistics that
      `update_batch_article` would recompute from its own articles, and its
      counts add up to its article count. */
  lemma SummaryMatchesRecount(ctx: Context, rows: seq<Row>, batchName: string, clientName: string)
    ensures var b := Summary(batchName, clientName, BatchResults(ctx, rows, |rows|));
      var articles := b.articles.value;
      b.successfulCount == Storage.CountStatus(articles, "success") &&
      b.failedCount == Storage.CountStatus(articles, "failed") &&
      b.avgScore == Storage.Mean(Storage.Scores(articles)) &&
      b.successfulCount + b.failedCount + b.skippedCount == b.articleCount == |rows|
  {
    var results := BatchResults(ctx, rows, |rows|);
    BatchResultsWellFormed(ctx, rows, |rows|);
    ArticlesAgree(results);
    CountsPartition(results);
  }

  /** The whole batch run: the loop, then the summary saved in front of the
      stored batches under the clock's id. */
  method AnalyseBatch(store: Storage.BatchStore, ctx: Context, rows: seq<Row>, batchName: string, clientName: string,
                      stampId: string, isoNow: string)
    returns (results: seq<ArticleResult>, batchId: string)
    modifies store
    ensures results == BatchResults(ctx, rows, |rows|)
    ensures batchId == stampId
    ensures store.batches ==
      [Summary(batchName, clientName, results).(batchId := Some(stampId), createdAt := Some(isoNow))] + old(store.batches)
    ensures store.saves == old(store.saves) + 1
  {
    var successful, failed;
    results, successful, failed := RunBatch(ctx, rows);
    var skipped := CountResults(results, "skipped");
    var summary := Storage.Batch(None, batchName, None, clientName, |results|, successful, failed, skipped,
                                 Storage.Mean(ResultScores(results)), Some(ArticlesOf(results)));
    batchId := store.AddBatch(summary, stampId, isoNow);
  }
}
