/** What `fetch_article` and `fetch_with_playwright` of utils/article_fetcher.py
    compute, as functions of what the network answers. The imperative code that
    follows these definitions step by step is in module ArticleFetcher. */
module Fetching {
  import opened Optional
  import opened Text
  import opened ArticleExtractor

  /** `MAX_RETRIES`: the HTTP tier makes at most this many requests. */
  const MaxRetries: nat := 2
  /** `MIN_CONTENT_CHARS_FOR_SUCCESS`. */
  const MinContentChars: nat := 500
  /** `DEFAULT_TIMEOUT`, in seconds. */
  const DefaultTimeout: int := 30

  const JsHeavyDomains: seq<string> := ["coindesk.com", "msn.com", "bloomberg.com", "forbes.com", "businessinsider.com"]

  const PaywallIndicators: seq<string> := ["paywall", "subscribe-wall", "subscription-required", "premium-content"]

  /** What one `requests.get` call ends in: a response (its status, the size of
      its body and the page that body parses to) or one of the exceptions the
      HTTP tier tells apart. */
  datatype Attempt =
    | Responded(status: int, bodySize: nat, page: Doc)
    | TimedOut
    | SslFailure(detail: string)
    | ConnectionFailure(detail: string)
    | Raised(typeName: string, detail: string)

  /** What the headless browser does with the page: `page.goto` returns (with
      the response status when there is a response) and the page renders, or
      the browser raises. */
  datatype HeadlessOutcome =
    | Navigated(status: Option<int>, rendered: Doc)
    | BrowserRaised(typeName: string, detail: string)

  /** A URL as the fetcher sees it: the host part `urlparse` finds, the query
      parameters `parse_qs` decodes (in order), the answer to each successive
      HTTP request, and what the headless browser renders. */
  datatype Site = Site(
    netloc: string,
    query: seq<(string, string)>,
    respond: nat -> Attempt,
    headless: HeadlessOutcome)

  /** The world a fetch runs in: what each URL leads to, and whether the
      headless browser package is installed (`check_playwright_available`). */
  datatype Web = Web(sites: string -> Site, headlessInstalled: bool)

  /** The `(success, content_or_error, metadata)` triple. */
  datatype FetchResult = FetchResult(success: bool, text: string, metadata: Metadata)

  // ---------------------------------------------------------------- hosts

  /** `extract_domain`: the host with the occurrences of "www." found in one
      left-to-right pass removed (case kept), as `str.replace` does. */
  function ExtractDomain(netloc: string): (d: string)
    ensures |d| <= |netloc|
  {
    RemoveAll(netloc, "www.")
  }

  /** Some domain of the list occurs in `host`. */
  predicate AnyOccurs(host: string, domains: seq<string>)
  {
    exists k | 0 <= k < |domains| :: Contains(host, domains[k])
  }

  /** `is_js_heavy_domain`: a listed domain occurs in the lower-cased host once "www." is removed. */
  predicate IsJsHeavyDomain(netloc: string)
  {
    AnyOccurs(RemoveAll(Lower(netloc), "www."), JsHeavyDomains)
  }

  /** `is_bloomberg_url`. */
  predicate IsBloombergHost(netloc: string)
  {
    Contains(Lower(netloc), "bloomberg.com")
  }

  /** The redirect-aggregator test made by `fetch_article` and `extract_original_url_from_msn`. */
  predicate IsMsnHost(netloc: string)
  {
    Contains(Lower(netloc), "msn.com")
  }

  /** `parse_qs(query)[key][0]`: the first value given for `key` (blank values
      are dropped by `parse_qs`), when there is one. */
  function FirstParam(query: seq<(string, string)>, key: string): (r: Option<string>)
    ensures r.Some? ==> r.value != [] && exists k | 0 <= k < |query| :: query[k] == (key, r.value)
    ensures r.None? <==> forall k | 0 <= k < |query| :: query[k].0 != key || query[k].1 == []
  {
    if query == [] then None
    else if query[0].0 == key && query[0].1 != [] then Some(query[0].1)
    else
      var r := FirstParam(query[1..], key);
      assert forall k | 1 <= k < |query| :: query[k] == query[1..][k - 1];
      r
  }

  /** `extract_original_url_from_msn`: on an MSN host, the `url` parameter, else the `originalUrl` one. */
  function OriginalUrlFromMsn(site: Site): (r: Option<string>)
    ensures r.Some? ==> IsMsnHost(site.netloc) && r.value != []
    ensures IsMsnHost(site.netloc) && FirstParam(site.query, "url").Some? ==> r == FirstParam(site.query, "url")
    ensures IsMsnHost(site.netloc) && FirstParam(site.query, "url").None? ==> r == FirstParam(site.query, "originalUrl")
    ensures !IsMsnHost(site.netloc) ==> r.None?
  {
    if !IsMsnHost(site.netloc) then None
    else if FirstParam(site.query, "url").Some? then FirstParam(site.query, "url")
    else FirstParam(site.query, "originalUrl")
  }

  // ------------------------------------------------------------ messages

  const ForbiddenMessage := "HTTP 403 Forbidden - Site is blocking access"
  const NotFoundMessage := "HTTP 404 Not Found - Article does not exist"
  const RateLimitedMessage := "HTTP 429 Rate Limited - Too many requests"
  const EmptyResponseMessage := "Empty response - No content received"
  const JsThinMessage := "JS-heavy domain returned thin content"
  const NotInstalledMessage := "Playwright not installed - cannot use headless browser"
  const UnknownError := "Unknown error"
  const DnsErrorMessage := "DNS Error - Domain not found"
  const ConnectionRefusedMessage := "Connection Refused - Server not accepting connections"

  // The fixed parts of the composed messages, named so that proofs need not unfold them.
  const PaywallTail := ") - Content behind subscription"
  const InsufficientLead := "Requests fetch returned insufficient content: "
  const ExtractionFailedLead := "Content extraction failed: "
  const TimeoutTail := "s - Site too slow to respond"
  const SslLead := "SSL/TLS Error - Certificate problem: "
  const ErrorStatusTail := " - Page returned error status"
  const BloombergShortLead := "Bloomberg content too short ("
  const BloombergShortTail := " words) - may need manual review"

  function ServerErrorMessage(status: int): string
  {
    "HTTP " + IntToString(status) + " Server Error"
  }

  function UnexpectedStatusMessage(status: int): string
  {
    "HTTP " + IntToString(status) + " - Unexpected status"
  }

  function PaywallMessage(indicator: string): string
  {
    "Paywall detected (" + indicator + PaywallTail
  }

  function InsufficientMessage(chars: nat): string
  {
    InsufficientLead + NatToString(chars) + " chars"
  }

  function ExtractionFailedMessage(e: ExtractError): string
  {
    ExtractionFailedLead + e.Message()
  }

  /** The message recorded for an attempt that raised instead of answering:
      a timeout names the timeout; a name-resolution failure takes precedence
      over a refused connection; the other kinds quote at most 80 characters
      of the exception's text. */
  function ExceptionMessage(a: Attempt, timeout: int): (m: string)
    requires !a.Responded?
    ensures a.TimedOut? ==> m == "Timeout after " + IntToString(timeout) + TimeoutTail
    ensures a.SslFailure? ==> m == SslLead + Take(a.detail, 80)
    ensures a.ConnectionFailure? && (Contains(a.detail, "Name or service not known") || Contains(a.detail, "getaddrinfo failed"))
            ==> m == DnsErrorMessage
    ensures a.ConnectionFailure? && Contains(a.detail, "Connection refused") &&
            !Contains(a.detail, "Name or service not known") && !Contains(a.detail, "getaddrinfo failed")
            ==> m == ConnectionRefusedMessage
    ensures a.ConnectionFailure? && !Contains(a.detail, "Connection refused") &&
            !Contains(a.detail, "Name or service not known") && !Contains(a.detail, "getaddrinfo failed")
            ==> m == "Connection Error: " + Take(a.detail, 80)
    ensures a.Raised? ==> m == "Unexpected Error (" + a.typeName + "): " + Take(a.detail, 80)
  {
    match a
    case TimedOut => "Timeout after " + IntToString(timeout) + TimeoutTail
    case SslFailure(d) => SslLead + Take(d, 80)
    case ConnectionFailure(d) =>
      if Contains(d, "Name or service not known") || Contains(d, "getaddrinfo failed") then DnsErrorMessage
      else if Contains(d, "Connection refused") then ConnectionRefusedMessage
      else "Connection Error: " + Take(d, 80)
    case Raised(t, d) => "Unexpected Error (" + t + "): " + Take(d, 80)
  }

  /** `"Playwright error: {type}: {str(e)[:100]}"`. */
  function BrowserErrorMessage(typeName: string, detail: string): string
  {
    "Playwright error: " + typeName + ": " + Take(detail, 100)
  }

  function HeadlessStatusMessage(status: int): string
  {
    "HTTP " + IntToString(status) + ErrorStatusTail
  }

  /** `all_errors[-1] if all_errors else "Unknown error"`. */
  function LastOr(errors: seq<string>): (m: string)
    ensures errors != [] ==> m == errors[|errors| - 1]
    ensures errors == [] ==> m == UnknownError
  {
    if errors == [] then UnknownError else errors[|errors| - 1]
  }

  // ------------------------------------------------------------- pieces

  /** The first paywall indicator, in list order, that occurs in `text`. */
  function FirstIndicator(text: string, indicators: seq<string>): (r: Option<string>)
    ensures r.Some? ==> r.value in indicators && Contains(text, r.value)
    ensures r.None? <==> forall k | 0 <= k < |indicators| :: !Contains(text, indicators[k])
  {
    if indicators == [] then None
    else if Contains(text, indicators[0]) then Some(indicators[0])
    else
      var r := FirstIndicator(text, indicators[1..]);
      assert forall k | 1 <= k < |indicators| :: indicators[k] == indicators[1..][k - 1];
      r
  }

  /** The paywall verdict on a parsed page: an indicator in the lower-cased
      markup and fewer than five paragraphs. */
  function PaywallOf(page: Doc): (r: Option<string>)
    ensures r.Some? ==> page.paragraphCount < 5 && r.value in PaywallIndicators
  {
    var found := FirstIndicator(Lower(page.markup), PaywallIndicators);
    if found.Some? && page.paragraphCount < 5 then found else None
  }

  /** `handle_bloomberg_content`: text under 1000 characters is flagged as partial. */
  function HandleBloomberg(content: string, metadata: Metadata): (m: Metadata)
    ensures m.partial.Some? <==> |content| < 1000 || metadata.partial.Some?
    ensures m == metadata.(partial := m.partial)
    ensures |content| >= 1000 ==> m == metadata
  {
    if |content| < 1000 then
      metadata.(partial := Some(BloombergShortLead + NatToString(|content|) + " chars, "
                                 + NatToString(CountWords(content)) + BloombergShortTail))
    else metadata
  }

  /** The metadata a fetch starts from. */
  function InitialMetadata(url: string, site: Site, fetchMethod: string): (m: Metadata)
    ensures m.fetchErrors == [] && m.httpStatus.None? && m.partial.None?
    ensures m.url == url && m.domain == ExtractDomain(site.netloc) && m.fetchMethod == fetchMethod
  {
    Metadata(url, ExtractDomain(site.netloc), "", "", [], None, fetchMethod, None)
  }

  /** A failed result whose recorded errors are `errors`. */
  function Failed(message: string, errors: seq<string>, metadata: Metadata): (r: FetchResult)
    ensures !r.success && r.text == message && r.metadata.fetchErrors == errors
  {
    FetchResult(false, message, metadata.(fetchErrors := errors))
  }

  /** The extractor's title and author written into the metadata. */
  function WithHeadings(page: Doc, metadata: Metadata): Metadata
  {
    metadata.(title := ExtractedTitle(page, metadata.title), author := ExtractedAuthor(page, metadata.author))
  }

  // -------------------------------------------------------- headless tier

  /** `fetch_with_playwright(url)`. */
  function HeadlessSpec(url: string, site: Site, installed: bool): (r: FetchResult)
    ensures r.success ==> site.headless.Navigated? && Classify(site.headless.rendered) == Extracted(r.text)
    ensures !r.success ==> |r.metadata.fetchErrors| == 1 && r.text == r.metadata.fetchErrors[0]
    ensures r.success ==> r.metadata.fetchErrors == []
    ensures r.metadata.fetchMethod == "playwright" && r.metadata.partial.None?
  {
    var metadata := InitialMetadata(url, site, "playwright");
    if !installed then Failed(NotInstalledMessage, [NotInstalledMessage], metadata)
    else
      match site.headless
      case BrowserRaised(t, d) =>
        var m := BrowserErrorMessage(t, d);
        Failed(m, [m], metadata)
      case Navigated(status, page) => NavigatedSpec(status, page, metadata)
  }

  /** What `fetch_with_playwright` does once the page has loaded. */
  function NavigatedSpec(status: Option<int>, page: Doc, metadata: Metadata): (r: FetchResult)
    requires metadata.fetchErrors == [] && metadata.partial.None?
    ensures r.success ==> Classify(page) == Extracted(r.text) && r.metadata.fetchErrors == []
    ensures !r.success ==> |r.metadata.fetchErrors| == 1 && r.text == r.metadata.fetchErrors[0]
    ensures r.metadata.fetchMethod == metadata.fetchMethod && r.metadata.partial.None?
  {
    var seen := metadata.(httpStatus := status);
    if status.Some? && status.value >= 400 then
      var m := HeadlessStatusMessage(status.value);
      Failed(m, [m], seen)
    else HeadlessExtracted(page, seen)
  }

  /** The headless tier's verdict on a page that loaded without an error status. */
  function HeadlessExtracted(page: Doc, seen: Metadata): (r: FetchResult)
    requires seen.fetchErrors == [] && seen.partial.None?
    ensures r.success ==> Classify(page) == Extracted(r.text) && r.metadata.fetchErrors == []
    ensures !r.success ==> r.metadata.fetchErrors == [r.text]
    ensures r.metadata.fetchMethod == seen.fetchMethod && r.metadata.partial.None?
  {
    var extracted := WithHeadings(page, seen);
    match Classify(page)
    case Extracted(c) => FetchResult(true, c, extracted)
    case ExtractFailed(e) =>
      var m := ExtractionFailedMessage(e);
      Failed(m, [m], extracted)
  }

  // ------------------------------------------------------------ HTTP tier

  /** How the retry loop is left. */
  datatype LoopExit =
    // a `return` inside the loop
    | Returned(result: FetchResult)
    // a `break` that asks for the headless browser
    | Escalate(errors: seq<string>, metadata: Metadata)
    // the loop ran out of attempts
    | Exhausted(errors: seq<string>, metadata: Metadata)
  {
    /** The error list the exit carries. */
    function Errors(): seq<string>
    {
      match this
      case Returned(r) => r.metadata.fetchErrors
      case Escalate(e, _) => e
      case Exhausted(e, _) => e
    }
  }

  /** What one pass through the loop body does. */
  datatype Step = Next(errors: seq<string>, metadata: Metadata) | Exit(exit: LoopExit)

  /** A retryable failure: retried unless this is the last attempt. */
  function Retry(message: string, last: bool, errors: seq<string>, metadata: Metadata): (s: Step)
    ensures s.Next? <==> !last
    ensures s.Next? ==> s.errors == errors + [message]
    ensures s.Exit? ==> s.exit == Returned(Failed(message, errors + [message], metadata))
  {
    var errors' := errors + [message];
    if last then Exit(Returned(Failed(message, errors', metadata))) else Next(errors', metadata)
  }

  /** The part of the loop body after the status checks: the empty-body check,
      the paywall check, the extraction and the thin-content checks. */
  function BodyStep(netloc: string, last: bool, size: nat, page: Doc, errors: seq<string>, metadata: Metadata): Step
  {
    if size == 0 then Retry(EmptyResponseMessage, last, errors, metadata)
    else
      match PaywallOf(page)
      case Some(indicator) =>
        var m := PaywallMessage(indicator);
        Exit(Returned(Failed(m, errors + [m], metadata)))
      case None => ExtractionStep(netloc, last, Classify(page), errors, WithHeadings(page, metadata))
  }

  /** What the loop body does with the extractor's verdict. */
  function ExtractionStep(netloc: string, last: bool, x: Extraction, errors: seq<string>, metadata: Metadata): Step
  {
    match x
    case Extracted(c) => AcceptStep(netloc, c, errors, metadata)
    case ExtractFailed(e) =>
      var errors' := errors + [ExtractionFailedMessage(e)];
      if e.JsRendered? || last then Exit(Escalate(errors', metadata)) else Next(errors', metadata)
  }

  /** Extracted text: too short, or thin on a JavaScript-heavy host, asks for
      the headless browser; otherwise it is the result. */
  function AcceptStep(netloc: string, content: string, errors: seq<string>, metadata: Metadata): Step
  {
    if |content| < MinContentChars then Exit(Escalate(errors + [InsufficientMessage(|content|)], metadata))
    else if IsJsHeavyDomain(netloc) && (|content| < 1000 || CountWords(content) < 200) then
      Exit(Escalate(errors + [JsThinMessage], metadata))
    else
      var flagged := if IsBloombergHost(netloc) then HandleBloomberg(content, metadata) else metadata;
      Exit(Returned(FetchResult(true, content, flagged.(fetchMethod := "requests"))))
  }

  /** One pass through the loop body: what it does depends on the host, the
      answer to this attempt's request and whether this is the last attempt. */
  function AttemptStep(netloc: string, answer: Attempt, timeout: int, last: bool,
                       errors: seq<string>, metadata: Metadata): Step
  {
    match answer
    case Responded(status, size, page) =>
      var seen := metadata.(httpStatus := Some(status));
      if status == 403 then Retry(ForbiddenMessage, last, errors, seen)
      else if status == 404 then Exit(Returned(Failed(NotFoundMessage, errors + [NotFoundMessage], seen)))
      else if status == 429 then Retry(RateLimitedMessage, last, errors, seen)
      else if status >= 500 then Retry(ServerErrorMessage(status), last, errors, seen)
      else if status != 200 && !last then Next(errors + [UnexpectedStatusMessage(status)], seen)
      else
        var errors' := if status != 200 then errors + [UnexpectedStatusMessage(status)] else errors;
        BodyStep(netloc, last, size, page, errors', seen)
    case _ => Next(errors + [ExceptionMessage(answer, timeout)], metadata)
  }

  /** The retry loop from attempt `attempt` on. */
  function HttpTier(site: Site, timeout: int, attempt: nat, errors: seq<string>, metadata: Metadata): LoopExit
    requires attempt <= MaxRetries
    decreases MaxRetries - attempt
  {
    if attempt == MaxRetries then Exhausted(errors, metadata)
    else
      match AttemptStep(site.netloc, site.respond(attempt), timeout, attempt == MaxRetries - 1, errors, metadata)
      case Next(errors', metadata') => HttpTier(site, timeout, attempt + 1, errors', metadata')
      case Exit(exit) => exit
  }

  /** What follows the retry loop: the headless fallback when it was asked
      for, enabled and installed, then the failure report. */
  function AfterLoop(url: string, site: Site, installed: bool, usePlaywright: bool, exit: LoopExit): FetchResult
  {
    match exit
    case Returned(r) => r
    case Escalate(errors, metadata) => Fallback(url, site, installed, usePlaywright, true, errors, metadata)
    case Exhausted(errors, metadata) => Fallback(url, site, installed, usePlaywright, false, errors, metadata)
  }

  function Fallback(url: string, site: Site, installed: bool, usePlaywright: bool, shouldTry: bool,
                    errors: seq<string>, metadata: Metadata): FetchResult
  {
    if usePlaywright && shouldTry && installed then
      var pw := HeadlessSpec(url, site, installed);
      if pw.success then
        var merged := pw.metadata.(fetchMethod := "playwright",
                                   fetchErrors := errors + pw.metadata.fetchErrors,
                                   partial := metadata.partial);
        var flagged := if IsBloombergHost(site.netloc) then HandleBloomberg(pw.text, merged) else merged;
        FetchResult(true, pw.text, flagged)
      else
        var errors' := errors + pw.metadata.fetchErrors;
        Failed(LastOr(errors'), errors', metadata)
    else Failed(LastOr(errors), errors, metadata)
  }

  /** `fetch_article(url)` once redirect unwrapping is over: the HTTP tier on
      the site `url` leads to, then what follows it. */
  function DirectSpec(url: string, site: Site, installed: bool, timeout: int, usePlaywright: bool): FetchResult
  {
    AfterLoop(url, site, installed, usePlaywright,
              HttpTier(site, timeout, 0, [], InitialMetadata(url, site, "requests")))
  }

  /** `fetch_article(url, timeout, use_playwright_fallback)`. An MSN link
      first tries the article it wraps (with the headless fallback enabled,
      as the recursive call does not pass the flag on); the wrapped address
      is part of the link's query, so it is shorter than the link. */
  function FetchSpec(url: string, web: Web, timeout: int, usePlaywright: bool): FetchResult
    decreases |url|
  {
    var site := web.sites(url);
    var original := OriginalUrlFromMsn(site);
    if original.Some? && |original.value| < |url| then
      var inner := FetchSpec(original.value, web, timeout, true);
      if inner.success then inner else DirectSpec(url, site, web.headlessInstalled, timeout, usePlaywright)
    else DirectSpec(url, site, web.headlessInstalled, timeout, usePlaywright)
  }
}
