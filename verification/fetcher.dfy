/** `fetch_article` and `fetch_with_playwright` of utils/article_fetcher.py as
    the step-by-step code they are: an error list that grows attempt by
    attempt, a retry loop left by `continue`, `break` or `return`, and the
    headless fallback after it. Each method is proved to compute the function
    of module Fetching that states its outcome. */
module ArticleFetcher {
  import opened Optional
  import opened Text
  import opened ArticleExtractor
  import opened Fetching

  /** `fetch_with_playwright(url)`. */
  method FetchWithHeadless(url: string, site: Site, installed: bool) returns (r: FetchResult)
    ensures r == HeadlessSpec(url, site, installed)
  {
    var metadata := InitialMetadata(url, site, "playwright");
    if !installed {
      var message := NotInstalledMessage;
      metadata := metadata.(fetchErrors := metadata.fetchErrors + [message]);
      return FetchResult(false, message, metadata);
    }
    match site.headless {
      case BrowserRaised(typeName, detail) =>
        var message := BrowserErrorMessage(typeName, detail);
        metadata := metadata.(fetchErrors := metadata.fetchErrors + [message]);
        return FetchResult(false, message, metadata);
      case Navigated(status, page) =>
        r := HeadlessLoaded(status, page, metadata);
    }
  }

  /** The rest of `fetch_with_playwright` once the page has loaded. */
  method HeadlessLoaded(status: Option<int>, page: Doc, metadata: Metadata) returns (r: FetchResult)
    requires metadata.fetchErrors == [] && metadata.partial.None? && metadata.httpStatus.None?
    ensures r == NavigatedSpec(status, page, metadata)
  {
    var current := metadata;
    if status.Some? {
      current := current.(httpStatus := status);
      if status.value >= 400 {
        var message := HeadlessStatusMessage(status.value);
        current := current.(fetchErrors := current.fetchErrors + [message]);
        return FetchResult(false, message, current);
      }
    }
    r := HeadlessExtract(page, current);
  }

  /** `fetch_with_playwright` once the status has passed: the extractor's verdict. */
  method HeadlessExtract(page: Doc, metadata: Metadata) returns (r: FetchResult)
    requires metadata.fetchErrors == [] && metadata.partial.None?
    ensures r == HeadlessExtracted(page, metadata)
  {
    var outcome, updated := ExtractContent(page, metadata);
    assert updated == WithHeadings(page, metadata);
    if outcome.Extracted? {
      assert HeadlessExtracted(page, metadata) == FetchResult(true, outcome.content, updated);
      return FetchResult(true, outcome.content, updated);
    }
    var message := ExtractionFailedMessage(outcome.error);
    assert HeadlessExtracted(page, metadata) == Failed(message, [message], updated);
    assert updated.fetchErrors + [message] == [message];
    return FetchResult(false, message, updated.(fetchErrors := updated.fetchErrors + [message]));
  }

  /** The paywall-indicator loop: the first indicator found in the lower-cased page. */
  method DetectPaywall(pageTextLower: string) returns (detected: Option<string>)
    ensures detected == FirstIndicator(pageTextLower, PaywallIndicators)
  {
    var indicators := PaywallIndicators;
    for i := 0 to |indicators|
      invariant FirstIndicator(pageTextLower, indicators) == FirstIndicator(pageTextLower, indicators[i..])
    {
      assert indicators[i..][1..] == indicators[i + 1..];
      if Contains(pageTextLower, indicators[i]) {
        return Some(indicators[i]);
      }
    }
    return None;
  }

  /** The part of the loop body after the status checks. */
  method HandleBody(netloc: string, last: bool, size: nat, page: Doc, errors: seq<string>, metadata: Metadata)
    returns (step: Step)
    ensures step == BodyStep(netloc, last, size, page, errors, metadata)
  {
    var allErrors := errors;
    if size == 0 {
      var message := EmptyResponseMessage;
      allErrors := allErrors + [message];
      if !last {
        return Next(allErrors, metadata);
      }
      return Exit(Returned(FetchResult(false, message, metadata.(fetchErrors := allErrors))));
    }
    var detected := DetectPaywall(Lower(page.markup));
    if detected.Some? && page.paragraphCount < 5 {
      var message := PaywallMessage(detected.value);
      allErrors := allErrors + [message];
      return Exit(Returned(FetchResult(false, message, metadata.(fetchErrors := allErrors))));
    }
    var outcome, updated := ExtractContent(page, metadata);
    step := HandleExtraction(netloc, last, outcome, allErrors, updated);
  }

  /** What the loop body does with the extractor's verdict. */
  method HandleExtraction(netloc: string, last: bool, outcome: Extraction, errors: seq<string>, metadata: Metadata)
    returns (step: Step)
    ensures step == ExtractionStep(netloc, last, outcome, errors, metadata)
  {
    var allErrors := errors;
    var updated := metadata;
    if outcome.Extracted? {
      var content := outcome.content;
      var wordCount := CountWords(content);
      var charCount := |content|;
      if charCount < MinContentChars {
        allErrors := allErrors + [InsufficientMessage(charCount)];
        return Exit(Escalate(allErrors, updated));
      }
      if IsJsHeavyDomain(netloc) && (charCount < 1000 || wordCount < 200) {
        allErrors := allErrors + [JsThinMessage];
        return Exit(Escalate(allErrors, updated));
      }
      if IsBloombergHost(netloc) {
        updated := HandleBloomberg(content, updated);
      }
      updated := updated.(fetchMethod := "requests");
      return Exit(Returned(FetchResult(true, content, updated)));
    }
    allErrors := allErrors + [ExtractionFailedMessage(outcome.error)];
    if outcome.error.JsRendered? {
      return Exit(Escalate(allErrors, updated));
    }
    if !last {
      return Next(allErrors, updated);
    }
    return Exit(Escalate(allErrors, updated));
  }

  /** One pass through the retry loop's body, given the answer to its request. */
  method TryAttempt(netloc: string, answer: Attempt, timeout: int, last: bool, errors: seq<string>, metadata: Metadata)
    returns (step: Step)
    ensures step == AttemptStep(netloc, answer, timeout, last, errors, metadata)
  {
    if !answer.Responded? {
      return Next(errors + [ExceptionMessage(answer, timeout)], metadata);
    }
    var status := answer.status;
    var seen := metadata.(httpStatus := Some(status));
    if status == 403 {
      return Retry(ForbiddenMessage, last, errors, seen);
    }
    if status == 404 {
      var allErrors := errors + [NotFoundMessage];
      return Exit(Returned(FetchResult(false, NotFoundMessage, seen.(fetchErrors := allErrors))));
    }
    if status == 429 {
      return Retry(RateLimitedMessage, last, errors, seen);
    }
    if status >= 500 {
      return Retry(ServerErrorMessage(status), last, errors, seen);
    }
    var allErrors := errors;
    if status != 200 {
      allErrors := allErrors + [UnexpectedStatusMessage(status)];
      if !last {
        return Next(allErrors, seen);
      }
    }
    step := HandleBody(netloc, last, answer.bodySize, answer.page, allErrors, seen);
  }

  /** The retry loop of `fetch_article`. */
  method RequestsTier(site: Site, timeout: int, metadata: Metadata) returns (exit: LoopExit)
    ensures exit == HttpTier(site, timeout, 0, [], metadata)
  {
    var allErrors: seq<string> := [];
    var current := metadata;
    for attempt := 0 to MaxRetries
      invariant HttpTier(site, timeout, 0, [], metadata) == HttpTier(site, timeout, attempt, allErrors, current)
    {
      var answer := site.respond(attempt);
      var step := TryAttempt(site.netloc, answer, timeout, attempt == MaxRetries - 1, allErrors, current);
      if step.Exit? {
        return step.exit;
      }
      allErrors, current := step.errors, step.metadata;
    }
    return Exhausted(allErrors, current);
  }

  /** `fetch_article(url, timeout, use_playwright_fallback)`. */
  method FetchArticle(url: string, web: Web, timeout: int, usePlaywright: bool) returns (r: FetchResult)
    ensures r == FetchSpec(url, web, timeout, usePlaywright)
    decreases |url|
  {
    var site := web.sites(url);
    var original := OriginalUrlFromMsn(site);
    if original.Some? && |original.value| < |url| {
      var inner := FetchArticle(original.value, web, timeout, true);
      if inner.success {
        return inner;
      }
    }
    var metadata := InitialMetadata(url, site, "requests");
    var exit := RequestsTier(site, timeout, metadata);
    r := Finish(url, site, web.headlessInstalled, usePlaywright, exit);
  }

  /** What follows the retry loop: the headless fallback, then the failure report. */
  method Finish(url: string, site: Site, installed: bool, usePlaywright: bool, exit: LoopExit) returns (r: FetchResult)
    ensures r == AfterLoop(url, site, installed, usePlaywright, exit)
  {
    if exit.Returned? {
      return exit.result;
    }
    var allErrors := exit.errors;
    var metadata := exit.metadata.(fetchErrors := allErrors);
    var shouldTry := exit.Escalate?;
    if usePlaywright && shouldTry && installed {
      var pw := FetchWithHeadless(url, site, installed);
      if pw.success {
        var merged := pw.metadata.(fetchMethod := "playwright",
                                   fetchErrors := allErrors + pw.metadata.fetchErrors,
                                   partial := metadata.partial);
        if IsBloombergHost(site.netloc) {
          merged := HandleBloomberg(pw.text, merged);
        }
        return FetchResult(true, pw.text, merged);
      }
      allErrors := allErrors + pw.metadata.fetchErrors;
      metadata := metadata.(fetchErrors := allErrors);
    }
    var finalError := if allErrors != [] then allErrors[|allErrors| - 1] else UnknownError;
    return FetchResult(false, finalError, metadata);
  }
}
