/** What the fetch pipeline of utils/article_fetcher.py guarantees, proved
    about the functions of module Fetching that state its outcome. */
module FetchProperties {
  import opened Optional
  import opened Text
  import opened ArticleExtractor
  import opened Fetching

  // ------------------------------------------------ host-name facts

  /** Removing "www." leaves a leading text alone when none of its characters
      could start an occurrence of the removed pattern. */
  lemma {:induction false} RemoveAllKeepsPrefix(s: string, p: string, q: string)
    requires p != [] && StartsWith(s, q)
    requires forall k | 0 <= k < |q| :: q[k] != p[0]
    ensures StartsWith(RemoveAll(s, p), q)
    decreases |s|
  {
    if q != [] && |s| >= |p| {
      assert s[0] == q[0];
      assert s[..|p|][0] != p[0];
      var rest := RemoveAll(s[1..], p);
      assert StartsWith(s[1..], q[1..]) by {
        assert s[1..][..|q| - 1] == s[..|q|][1..];
      }
      RemoveAllKeepsPrefix(s[1..], p, q[1..]);
      assert RemoveAll(s, p) == [s[0]] + rest;
      assert ([s[0]] + rest)[..|q|] == [q[0]] + rest[..|q| - 1];
      assert [q[0]] + q[1..] == q;
    }
  }

  /** An occurrence at `i` is an occurrence at `i - k` of the text without its first `k` characters. */
  lemma OccursAtDrop(s: string, t: string, i: nat, k: nat)
    requires k <= i && OccursAt(s, t, i)
    ensures OccursAt(s[k..], t, i - k)
  {
    assert s[k..][i - k..i - k + |t|] == s[i..i + |t|];
  }

  /** An occurrence survives a character put in front, one place later. */
  lemma OccursAtCons(c: char, r: string, t: string, j: nat)
    requires OccursAt(r, t, j)
    ensures OccursAt([c] + r, t, j + 1)
  {
    assert ([c] + r)[j + 1..j + 1 + |t|] == r[j..j + |t|];
  }

  /** An occurrence at the start is a prefix, and back. */
  lemma OccursAtStart(s: string, t: string)
    ensures OccursAt(s, t, 0) <==> StartsWith(s, t)
  {
    if |t| <= |s| {
      assert s[0..0 + |t|] == s[..|t|];
    }
  }

  /** Removing the occurrences of "www." found left to right cannot destroy
      an occurrence of a text that has no
      'w' and does not start with a character of "www.". */
  lemma {:induction false} RemoveAllKeepsOccurrence(s: string, p: string, t: string)
    requires p != [] && t != [] && t[0] !in p
    requires forall k | 0 <= k < |t| :: t[k] != p[0]
    requires Contains(s, t)
    ensures Contains(RemoveAll(s, p), t)
    decreases |s|
  {
    var i :| 0 <= i <= |s| - |t| && OccursAt(s, t, i);
    assert s[i] == s[i..i + |t|][0] == t[0];
    if |s| < |p| {
    } else if s[..|p|] == p {
      assert forall j | 0 <= j < |p| :: s[j] == s[..|p|][j];
      assert s[i] !in p;
      OccursAtDrop(s, t, i, |p|);
      RemoveAllKeepsOccurrence(s[|p|..], p, t);
    } else if i == 0 {
      OccursAtStart(s, t);
      RemoveAllKeepsPrefix(s, p, t);
      OccursAtStart(RemoveAll(s, p), t);
    } else {
      OccursAtDrop(s, t, i, 1);
      RemoveAllKeepsOccurrence(s[1..], p, t);
      var rest := RemoveAll(s[1..], p);
      var j :| 0 <= j <= |rest| - |t| && OccursAt(rest, t, j);
      assert RemoveAll(s, p) == [s[0]] + rest;
      OccursAtCons(s[0], rest, t, j);
    }
  }

  /** A text in which the pattern does not occur is left as it is. */
  lemma {:induction false} RemoveAllAbsent(s: string, p: string)
    requires p != [] && !Contains(s, p)
    ensures RemoveAll(s, p) == s
    decreases |s|
  {
    if |s| >= |p| {
      assert !OccursAt(s, p, 0);
      assert s[..|p|] != p;
      assert [s[0]] + s[1..] == s;
      if Contains(s[1..], p) {
        var j :| 0 <= j <= |s[1..]| - |p| && OccursAt(s[1..], p, j);
        OccursAtCons(s[0], s[1..], p, j);
        assert false;
      }
      RemoveAllAbsent(s[1..], p);
    }
  }

  /** `extract_domain` keeps a host without "www." and drops a leading
      "www." from one. */
  lemma ExtractDomainCases(host: string)
    requires !Contains(host, "www.")
    ensures ExtractDomain(host) == host
    ensures ExtractDomain("www." + host) == host
  {
    RemoveAllAbsent(host, "www.");
    var s := "www." + host;
    assert s[..4] == "www." && s[4..] == host;
  }

  /** The removal is one left-to-right pass, not repeated: removing the
      "www." in "wwwww.w." brings a new "www." together, which stays. */
  lemma ExtractDomainSinglePass()
    ensures ExtractDomain("wwwww.w.") == "www."
  {
    var s := "wwwww.w.";
    assert s[..4][3] != "www."[3];
    assert s[1..][..4][3] != "www."[3];
    assert s[2..][..4] == "www.";
    assert RemoveAll(s[2..][4..], "www.") == "w.";
  }

  /** Every Bloomberg host is on the JavaScript-heavy list. */
  lemma BloombergIsJsHeavy(netloc: string)
    requires IsBloombergHost(netloc)
    ensures IsJsHeavyDomain(netloc)
  {
    var t := "bloomberg.com";
    assert forall k | 0 <= k < |t| :: t[k] != 'w';
    RemoveAllKeepsOccurrence(Lower(netloc), "www.", t);
    assert JsHeavyDomains[2] == t;
  }

  // ------------------------------------------------ the retry loop

  /** What every way of leaving the retry loop guarantees, given the errors and
      the metadata the loop had before: a failure adds to the error list and
      reports its last entry; a success keeps the metadata's error list and
      partial flag and clears the HTTP tier's floors. */
  predicate ExitSound(netloc: string, errors: seq<string>, metadata: Metadata, x: LoopExit)
  {
    match x
    case Returned(r) =>
      if r.success then
        r.metadata.fetchErrors == metadata.fetchErrors && r.metadata.partial == metadata.partial &&
        r.metadata.fetchMethod == "requests" &&
        |r.text| >= MinContentChars && CountWords(r.text) >= 50 &&
        (IsJsHeavyDomain(netloc) ==> |r.text| >= 1000 && CountWords(r.text) >= 200)
      else
        errors < r.metadata.fetchErrors && r.text == r.metadata.fetchErrors[|r.metadata.fetchErrors| - 1]
    case Escalate(e, _) => errors < e
    case Exhausted(e, _) => errors < e
  }

  /** What a pass through the loop body that goes on guarantees: one more
      error, the metadata's own error field untouched. */
  predicate StepSound(netloc: string, errors: seq<string>, metadata: Metadata, s: Step)
  {
    if s.Next? then
      errors < s.errors && |s.errors| == |errors| + 1 &&
      s.metadata.fetchErrors == metadata.fetchErrors && s.metadata.partial == metadata.partial
    else ExitSound(netloc, errors, metadata, s.exit)
  }

  /** A sound exit after more errors, from metadata with the same error list
      and partial flag, is sound from the earlier state too. */
  lemma ExitSoundFromLater(netloc: string, errors: seq<string>, metadata: Metadata,
                           later: seq<string>, laterMetadata: Metadata, x: LoopExit)
    requires errors < later
    requires laterMetadata.fetchErrors == metadata.fetchErrors && laterMetadata.partial == metadata.partial
    requires ExitSound(netloc, later, laterMetadata, x)
    ensures ExitSound(netloc, errors, metadata, x)
  {
  }

  lemma AcceptStepSound(netloc: string, content: string, errors: seq<string>, metadata: Metadata)
    requires CountWords(content) >= 50
    ensures StepSound(netloc, errors, metadata, AcceptStep(netloc, content, errors, metadata))
  {
    if |content| >= MinContentChars && !(IsJsHeavyDomain(netloc) && (|content| < 1000 || CountWords(content) < 200)) {
      if IsBloombergHost(netloc) {
        BloombergIsJsHeavy(netloc);
        assert HandleBloomberg(content, metadata) == metadata;
      }
    }
  }

  lemma BodyStepSound(netloc: string, last: bool, size: nat, page: Doc, errors: seq<string>, metadata: Metadata)
    ensures StepSound(netloc, errors, metadata, BodyStep(netloc, last, size, page, errors, metadata))
  {
    if size != 0 && PaywallOf(page).None? {
      var extracted := WithHeadings(page, metadata);
      var x := Classify(page);
      assert BodyStep(netloc, last, size, page, errors, metadata) == ExtractionStep(netloc, last, x, errors, extracted);
      if x.Extracted? {
        AcceptStepSound(netloc, x.content, errors, extracted);
        assert ExtractionStep(netloc, last, x, errors, extracted) == AcceptStep(netloc, x.content, errors, extracted);
      }
    }
  }

  /** One attempt either goes on with one more error or leaves the loop soundly. */
  lemma AttemptStepSound(netloc: string, answer: Attempt, timeout: int, last: bool, errors: seq<string>, metadata: Metadata)
    ensures StepSound(netloc, errors, metadata, AttemptStep(netloc, answer, timeout, last, errors, metadata))
  {
    if answer.Responded? {
      var status := answer.status;
      var seen := metadata.(httpStatus := Some(status));
      if status != 403 && status != 404 && status != 429 && status < 500 && (status == 200 || last) {
        var errors' := if status != 200 then errors + [UnexpectedStatusMessage(status)] else errors;
        BodyStepSound(netloc, last, answer.bodySize, answer.page, errors', seen);
        assert AttemptStep(netloc, answer, timeout, last, errors, metadata)
            == BodyStep(netloc, last, answer.bodySize, answer.page, errors', seen);
      }
    }
  }

  /** The loop from any attempt that is not past the last: errors only grow,
      and the exit is sound. */
  lemma {:induction false} HttpTierSound(site: Site, timeout: int, attempt: nat, errors: seq<string>, metadata: Metadata)
    requires attempt < MaxRetries
    ensures ExitSound(site.netloc, errors, metadata, HttpTier(site, timeout, attempt, errors, metadata))
    decreases MaxRetries - attempt
  {
    var last := attempt == MaxRetries - 1;
    AttemptStepSound(site.netloc, site.respond(attempt), timeout, last, errors, metadata);
    var step := AttemptStep(site.netloc, site.respond(attempt), timeout, last, errors, metadata);
    var x := HttpTier(site, timeout, attempt, errors, metadata);
    if step.Exit? {
      assert x == step.exit;
    } else {
      assert x == HttpTier(site, timeout, attempt + 1, step.errors, step.metadata);
      if attempt + 1 < MaxRetries {
        HttpTierSound(site, timeout, attempt + 1, step.errors, step.metadata);
        ExitSoundFromLater(site.netloc, errors, metadata, step.errors, step.metadata, x);
      }
    }
  }

  /** The HTTP tier reads nothing but the host and the first `MaxRetries`
      answers: neither the headless browser nor any later request. */
  lemma {:induction false} HttpTierReadsOnlyRetries(s1: Site, s2: Site, timeout: int, attempt: nat,
                                                    errors: seq<string>, metadata: Metadata)
    requires attempt <= MaxRetries
    requires s1.netloc == s2.netloc
    requires forall k | attempt <= k < MaxRetries :: s1.respond(k) == s2.respond(k)
    ensures HttpTier(s1, timeout, attempt, errors, metadata) == HttpTier(s2, timeout, attempt, errors, metadata)
    decreases MaxRetries - attempt
  {
    if attempt < MaxRetries {
      var step := AttemptStep(s1.netloc, s1.respond(attempt), timeout, attempt == MaxRetries - 1, errors, metadata);
      if step.Next? {
        HttpTierReadsOnlyRetries(s1, s2, timeout, attempt + 1, step.errors, step.metadata);
      }
    }
  }

  // ------------------------------------------------ whole fetches

  /** What every fetch result guarantees: a failure carries a non-empty error
      list and reports its last entry; a success returns text the extractor
      accepted; a success on the HTTP tier carries at least 500 characters
      (1000 characters and 200 words on a JavaScript-heavy host), an empty
      error list and no partial-content flag. */
  predicate ResultSound(netloc: string, r: FetchResult)
  {
    && (!r.success ==> r.metadata.fetchErrors != [] && r.text == r.metadata.fetchErrors[|r.metadata.fetchErrors| - 1])
    && (r.success ==> |r.text| >= 200 && CountWords(r.text) >= 50)
    && (r.success && r.metadata.fetchMethod == "requests" ==>
          |r.text| >= MinContentChars &&
          (IsJsHeavyDomain(netloc) ==> |r.text| >= 1000 && CountWords(r.text) >= 200) &&
          r.metadata.fetchErrors == [] && r.metadata.partial.None?)
  }

  /** The headless fallback, given a non-empty error list from the HTTP tier. */
  lemma FallbackSound(url: string, site: Site, installed: bool, usePlaywright: bool, shouldTry: bool,
                      errors: seq<string>, metadata: Metadata)
    requires errors != []
    ensures ResultSound(site.netloc, Fallback(url, site, installed, usePlaywright, shouldTry, errors, metadata))
  {
    var r := Fallback(url, site, installed, usePlaywright, shouldTry, errors, metadata);
    if usePlaywright && shouldTry && installed {
      var pw := HeadlessSpec(url, site, installed);
      if pw.success {
        var merged := pw.metadata.(fetchMethod := "playwright",
                                   fetchErrors := errors + pw.metadata.fetchErrors,
                                   partial := metadata.partial);
        var flagged := if IsBloombergHost(site.netloc) then HandleBloomberg(pw.text, merged) else merged;
        assert r == FetchResult(true, pw.text, flagged);
        assert flagged.fetchMethod == "playwright";
      } else {
        var errors' := errors + pw.metadata.fetchErrors;
        assert r == Failed(LastOr(errors'), errors', metadata);
      }
    } else {
      assert r == Failed(LastOr(errors), errors, metadata);
    }
  }

  /** Every fetch of a site once redirect unwrapping is over is sound. */
  lemma DirectSound(url: string, site: Site, installed: bool, timeout: int, usePlaywright: bool)
    ensures ResultSound(site.netloc, DirectSpec(url, site, installed, timeout, usePlaywright))
  {
    var meta := InitialMetadata(url, site, "requests");
    HttpTierSound(site, timeout, 0, [], meta);
    var x := HttpTier(site, timeout, 0, [], meta);
    match x
    case Returned(r) =>
    case Escalate(errors, m) => FallbackSound(url, site, installed, usePlaywright, true, errors, m);
    case Exhausted(errors, m) => FallbackSound(url, site, installed, usePlaywright, false, errors, m);
  }

  /** A failed fetch always carries a non-empty error list and reports its
      last entry, so the "Unknown error" fallback is never reached; redirect
      unwrapping included. */
  lemma FailureReportsLastError(url: string, web: Web, timeout: int, usePlaywright: bool)
    ensures var r := FetchSpec(url, web, timeout, usePlaywright);
      !r.success ==> r.metadata.fetchErrors != [] && r.text == r.metadata.fetchErrors[|r.metadata.fetchErrors| - 1]
  {
    var r := FetchSpec(url, web, timeout, usePlaywright);
    if UnwrapSucceeds(url, web, timeout) {
      MsnUnwrapReturnsInner(url, web, timeout, usePlaywright);
      assert r.success;
    } else {
      OtherwiseDirect(url, web, timeout, usePlaywright);
      DirectSound(url, web.sites(url), web.headlessInstalled, timeout, usePlaywright);
      assert ResultSound(web.sites(url).netloc, r);
    }
  }

  /** Every successful fetch returns text the extractor accepted (at least 200
      characters and 50 words); a success on the HTTP tier also clears that
      tier's floors, carries no errors and is never flagged partial, because
      every Bloomberg host is JavaScript-heavy. */
  lemma {:induction false} SuccessMeetsFloors(url: string, web: Web, timeout: int, usePlaywright: bool)
    ensures var r := FetchSpec(url, web, timeout, usePlaywright);
      r.success ==> (|r.text| >= 200 && CountWords(r.text) >= 50 &&
        (r.metadata.fetchMethod == "requests" ==> |r.text| >= MinContentChars && r.metadata.fetchErrors == [] && r.metadata.partial.None?))
    decreases |url|
  {
    if UnwrapSucceeds(url, web, timeout) {
      MsnUnwrapReturnsInner(url, web, timeout, usePlaywright);
      SuccessMeetsFloors(OriginalUrlFromMsn(web.sites(url)).value, web, timeout, true);
    } else {
      OtherwiseDirect(url, web, timeout, usePlaywright);
      DirectSound(url, web.sites(url), web.headlessInstalled, timeout, usePlaywright);
    }
  }

  /** With the fallback disabled, or the browser not installed, what the
      headless browser would render makes no difference. */
  lemma HeadlessUnusedWhenOff(url: string, site: Site, installed: bool, timeout: int, usePlaywright: bool,
                              other: HeadlessOutcome)
    requires !usePlaywright || !installed
    ensures DirectSpec(url, site, installed, timeout, usePlaywright)
         == DirectSpec(url, site.(headless := other), installed, timeout, usePlaywright)
  {
    var meta := InitialMetadata(url, site, "requests");
    HttpTierReadsOnlyRetries(site, site.(headless := other), timeout, 0, [], meta);
  }

  /** Two sites that answer the first two requests alike and have the same
      host and headless rendering are fetched alike: no third request is made. */
  lemma AtMostTwoRequests(url: string, s1: Site, s2: Site, installed: bool, timeout: int, usePlaywright: bool)
    requires s1.netloc == s2.netloc && s1.headless == s2.headless
    requires s1.respond(0) == s2.respond(0) && s1.respond(1) == s2.respond(1)
    ensures DirectSpec(url, s1, installed, timeout, usePlaywright) == DirectSpec(url, s2, installed, timeout, usePlaywright)
  {
    var meta := InitialMetadata(url, s1, "requests");
    HttpTierReadsOnlyRetries(s1, s2, timeout, 0, [], meta);
  }

  // ------------------------------------------------ scenarios

  /** A 404 on any attempt ends the loop at once, whatever came before: the
      errors so far plus the not-found message, status 404, no retry and no
      headless attempt. */
  lemma NotFoundIsTerminal(site: Site, timeout: int, attempt: nat, errors: seq<string>, metadata: Metadata)
    requires attempt < MaxRetries
    requires site.respond(attempt).Responded? && site.respond(attempt).status == 404
    ensures HttpTier(site, timeout, attempt, errors, metadata)
         == Returned(Failed(NotFoundMessage, errors + [NotFoundMessage], metadata.(httpStatus := Some(404))))
  {
  }

  /** A 404 on the first attempt: the fetch fails with that one error. */
  lemma NotFoundOnFirstAttempt(url: string, site: Site, installed: bool, timeout: int, usePlaywright: bool)
    requires site.respond(0).Responded? && site.respond(0).status == 404
    ensures DirectSpec(url, site, installed, timeout, usePlaywright)
         == Failed(NotFoundMessage, [NotFoundMessage], InitialMetadata(url, site, "requests").(httpStatus := Some(404)))
  {
    NotFoundIsTerminal(site, timeout, 0, [], InitialMetadata(url, site, "requests"));
  }

  /** A 404 on the second attempt, after a first attempt that went on to
      retry: the fetch fails with the first attempt's errors and the
      not-found message, and the headless browser is not tried. */
  lemma NotFoundAfterRetry(url: string, site: Site, installed: bool, timeout: int, usePlaywright: bool)
    requires AttemptStep(site.netloc, site.respond(0), timeout, false, [], InitialMetadata(url, site, "requests")).Next?
    requires site.respond(1).Responded? && site.respond(1).status == 404
    ensures var first := AttemptStep(site.netloc, site.respond(0), timeout, false, [], InitialMetadata(url, site, "requests"));
      DirectSpec(url, site, installed, timeout, usePlaywright)
      == Failed(NotFoundMessage, first.errors + [NotFoundMessage], first.metadata.(httpStatus := Some(404)))
  {
    var first := AttemptStep(site.netloc, site.respond(0), timeout, false, [], InitialMetadata(url, site, "requests"));
    NotFoundIsTerminal(site, timeout, 1, first.errors, first.metadata);
  }

  /** Statuses the loop retries and then gives up on: 403, 429 and 5xx. */
  predicate Retryable(status: int)
  {
    status == 403 || status == 429 || status >= 500
  }

  function RetryMessage(status: int): string
    requires Retryable(status)
  {
    if status == 403 then ForbiddenMessage
    else if status == 429 then RateLimitedMessage
    else ServerErrorMessage(status)
  }

  /** Two retryable answers: the fetch fails with both messages, the last one
      as its error and the last status recorded; the headless browser is not tried. */
  lemma RetryableTwiceFails(url: string, site: Site, installed: bool, timeout: int, usePlaywright: bool)
    requires site.respond(0).Responded? && Retryable(site.respond(0).status)
    requires site.respond(1).Responded? && Retryable(site.respond(1).status)
    ensures var s0, s1 := site.respond(0).status, site.respond(1).status;
      DirectSpec(url, site, installed, timeout, usePlaywright)
      == Failed(RetryMessage(s1), [RetryMessage(s0), RetryMessage(s1)],
                InitialMetadata(url, site, "requests").(httpStatus := Some(s1)))
  {
    var meta := InitialMetadata(url, site, "requests");
    var s0 := site.respond(0).status;
    var step := AttemptStep(site.netloc, site.respond(0), timeout, false, [], meta);
    assert step == Next([RetryMessage(s0)], meta.(httpStatus := Some(s0)));
  }

  /** A non-empty page with a paywall marker and fewer than five paragraphs
      ends the loop at once on any attempt, whatever came before, when its
      body is examined at all: a 200, or on the last attempt any status that
      is neither retryable nor 404 (that status's message is recorded first). */
  lemma PaywallIsTerminal(site: Site, timeout: int, attempt: nat, errors: seq<string>, metadata: Metadata)
    requires attempt < MaxRetries
    requires site.respond(attempt).Responded? && site.respond(attempt).bodySize > 0
    requires PaywallOf(site.respond(attempt).page).Some?
    requires var status := site.respond(attempt).status;
      status == 200 || (attempt == MaxRetries - 1 && status != 404 && !Retryable(status))
    ensures var a := site.respond(attempt);
      var m := PaywallMessage(PaywallOf(a.page).value);
      var before := if a.status == 200 then errors else errors + [UnexpectedStatusMessage(a.status)];
      HttpTier(site, timeout, attempt, errors, metadata)
      == Returned(Failed(m, before + [m], metadata.(httpStatus := Some(a.status))))
  {
  }

  /** A paywalled 200 on the first attempt: the fetch fails with the
      paywall message as its only error. */
  lemma PaywallOnFirstAttempt(url: string, site: Site, installed: bool, timeout: int, usePlaywright: bool)
    requires site.respond(0).Responded? && site.respond(0).status == 200 && site.respond(0).bodySize > 0
    requires PaywallOf(site.respond(0).page).Some?
    ensures var m := PaywallMessage(PaywallOf(site.respond(0).page).value);
      DirectSpec(url, site, installed, timeout, usePlaywright)
      == Failed(m, [m], InitialMetadata(url, site, "requests").(httpStatus := Some(200)))
  {
    PaywallIsTerminal(site, timeout, 0, [], InitialMetadata(url, site, "requests"));
  }

  /** Requests that raise on both attempts end the fetch without the headless
      browser, whatever it would render. */
  lemma RaisingTwiceFails(url: string, site: Site, installed: bool, timeout: int, usePlaywright: bool)
    requires !site.respond(0).Responded? && !site.respond(1).Responded?
    ensures var m0, m1 := ExceptionMessage(site.respond(0), timeout), ExceptionMessage(site.respond(1), timeout);
      DirectSpec(url, site, installed, timeout, usePlaywright)
      == Failed(m1, [m0, m1], InitialMetadata(url, site, "requests"))
  {
    var meta := InitialMetadata(url, site, "requests");
    var step := AttemptStep(site.netloc, site.respond(0), timeout, false, [], meta);
    assert step == Next([ExceptionMessage(site.respond(0), timeout)], meta);
  }

  /** On the last attempt an unexpected status is not final: the body is
      still examined, so an empty body records a second error for the same
      attempt. */
  lemma UnexpectedStatusThenEmptyBody(url: string, site: Site, installed: bool, timeout: int, usePlaywright: bool)
    requires !site.respond(0).Responded?
    requires site.respond(1).Responded? && site.respond(1).bodySize == 0
    requires var s := site.respond(1).status; s != 200 && s != 403 && s != 404 && s != 429 && s < 500
    ensures var s := site.respond(1).status;
      DirectSpec(url, site, installed, timeout, usePlaywright)
      == Failed(EmptyResponseMessage,
                [ExceptionMessage(site.respond(0), timeout), UnexpectedStatusMessage(s), EmptyResponseMessage],
                InitialMetadata(url, site, "requests").(httpStatus := Some(s)))
  {
    var meta := InitialMetadata(url, site, "requests");
    var step := AttemptStep(site.netloc, site.respond(0), timeout, false, [], meta);
    assert step == Next([ExceptionMessage(site.respond(0), timeout)], meta);
  }

  /** The loop is left at the first attempt when that attempt's step exits. */
  lemma HttpTierExitsAtFirst(site: Site, timeout: int, errors: seq<string>, metadata: Metadata)
    requires AttemptStep(site.netloc, site.respond(0), timeout, false, errors, metadata).Exit?
    ensures HttpTier(site, timeout, 0, errors, metadata)
            == AttemptStep(site.netloc, site.respond(0), timeout, false, errors, metadata).exit
  {
  }

  /** A JavaScript-rendered verdict leaves the loop at once, with one more error. */
  lemma JsRenderedVerdictEscalates(netloc: string, last: bool, e: ExtractError, errors: seq<string>, metadata: Metadata)
    requires e.JsRendered?
    ensures ExtractionStep(netloc, last, ExtractFailed(e), errors, metadata)
            == Exit(Escalate(errors + [ExtractionFailedMessage(e)], metadata))
  {
  }

  /** A non-empty body without a paywall is judged by the extractor. */
  lemma BodyWithoutPaywall(netloc: string, last: bool, size: nat, page: Doc, errors: seq<string>, metadata: Metadata)
    requires size > 0 && PaywallOf(page).None?
    ensures BodyStep(netloc, last, size, page, errors, metadata)
            == ExtractionStep(netloc, last, Classify(page), errors, WithHeadings(page, metadata))
  {
  }

  /** A non-empty body of a JavaScript-rendered page without a paywall asks
      for the headless browser, with the extraction error as its one error. */
  lemma JsRenderedBodyEscalates(netloc: string, size: nat, page: Doc, metadata: Metadata)
    requires size > 0 && PaywallOf(page).None? && LooksJsRendered(page)
    ensures BodyStep(netloc, false, size, page, [], metadata)
            == Exit(Escalate([ExtractionFailedMessage(JsRendered(page.scriptCount, page.paragraphCount))],
                             WithHeadings(page, metadata)))
  {
    var e := JsRendered(page.scriptCount, page.paragraphCount);
    assert Classify(page) == ExtractFailed(e);
    BodyWithoutPaywall(netloc, false, size, page, [], metadata);
    JsRenderedVerdictEscalates(netloc, false, e, [], WithHeadings(page, metadata));
    var none: seq<string> := [];
    assert none + [ExtractionFailedMessage(e)] == [ExtractionFailedMessage(e)];
  }

  /** A JavaScript-rendered first page leaves the retry loop at once, asking
      for the headless browser with the extraction error as the only error. */
  lemma JsRenderedLeavesLoop(url: string, site: Site, timeout: int)
    requires site.respond(0).Responded? && site.respond(0).status == 200 && site.respond(0).bodySize > 0
    requires PaywallOf(site.respond(0).page).None? && LooksJsRendered(site.respond(0).page)
    ensures var page := site.respond(0).page;
      var start := InitialMetadata(url, site, "requests");
      HttpTier(site, timeout, 0, [], start)
      == Escalate([ExtractionFailedMessage(JsRendered(page.scriptCount, page.paragraphCount))],
                  WithHeadings(page, start.(httpStatus := Some(200))))
  {
    var answer := site.respond(0);
    var start := InitialMetadata(url, site, "requests");
    var meta := start.(httpStatus := Some(200));
    JsRenderedBodyEscalates(site.netloc, answer.bodySize, answer.page, meta);
    assert AttemptStep(site.netloc, answer, timeout, false, [], start)
        == BodyStep(site.netloc, false, answer.bodySize, answer.page, [], meta);
    HttpTierExitsAtFirst(site, timeout, [], start);
  }

  /** Extracted text of a page whose body is examined on attempt `attempt`
      is thin: shorter than `MinContentChars`, or on a JavaScript-heavy host
      shorter than 1000 characters or 200 words. */
  predicate ThinAt(site: Site, attempt: nat)
  {
    var a := site.respond(attempt);
    a.Responded? && a.bodySize > 0 && PaywallOf(a.page).None? && Classify(a.page).Extracted? &&
    var c := Classify(a.page).content;
    |c| < MinContentChars || (IsJsHeavyDomain(site.netloc) && (|c| < 1000 || CountWords(c) < 200))
  }

  /** The message the loop records for thin text. */
  function ThinMessage(netloc: string, c: string): string
  {
    if |c| < MinContentChars then InsufficientMessage(|c|) else JsThinMessage
  }

  /** Thin extracted text on any attempt whose body is examined ends the
      loop at once, whatever came before: no further request is made, the
      thin-content message (the character count when under
      `MinContentChars`, else the JavaScript-heavy message) is appended, and
      the headless browser is asked for. */
  lemma ThinContentIsTerminal(site: Site, timeout: int, attempt: nat, errors: seq<string>, metadata: Metadata)
    requires attempt < MaxRetries
    requires ThinAt(site, attempt)
    requires var status := site.respond(attempt).status;
      status == 200 || (attempt == MaxRetries - 1 && status != 404 && !Retryable(status))
    ensures var a := site.respond(attempt);
      var c := Classify(a.page).content;
      var before := if a.status == 200 then errors else errors + [UnexpectedStatusMessage(a.status)];
      HttpTier(site, timeout, attempt, errors, metadata)
      == Escalate(before + [ThinMessage(site.netloc, c)], WithHeadings(a.page, metadata.(httpStatus := Some(a.status))))
  {
    var a := site.respond(attempt);
    var c := Classify(a.page).content;
    var seen := metadata.(httpStatus := Some(a.status));
    var before := if a.status == 200 then errors else errors + [UnexpectedStatusMessage(a.status)];
    BodyWithoutPaywall(site.netloc, attempt == MaxRetries - 1, a.bodySize, a.page, before, seen);
    assert AttemptStep(site.netloc, a, timeout, attempt == MaxRetries - 1, errors, metadata)
        == BodyStep(site.netloc, attempt == MaxRetries - 1, a.bodySize, a.page, before, seen);
  }

  /** Text under `MinContentChars` on a first 200 leaves the loop with the
      character count as the only error, asking for the headless browser. */
  lemma ThinContentLeavesLoop(url: string, site: Site, timeout: int)
    requires site.respond(0).Responded? && site.respond(0).status == 200 && site.respond(0).bodySize > 0
    requires PaywallOf(site.respond(0).page).None? && Classify(site.respond(0).page).Extracted?
    requires |Classify(site.respond(0).page).content| < MinContentChars
    ensures var page := site.respond(0).page;
      var start := InitialMetadata(url, site, "requests");
      HttpTier(site, timeout, 0, [], start)
      == Escalate([InsufficientMessage(|Classify(page).content|)], WithHeadings(page, start.(httpStatus := Some(200))))
  {
    var start := InitialMetadata(url, site, "requests");
    ThinContentIsTerminal(site, timeout, 0, [], start);
    var none: seq<string> := [];
    assert none + [InsufficientMessage(|Classify(site.respond(0).page).content|)]
        == [InsufficientMessage(|Classify(site.respond(0).page).content|)];
  }

  /** On a JavaScript-heavy host, text of at least `MinContentChars` but
      under 1000 characters or 200 words on a first 200 leaves the loop with
      the JavaScript-heavy message as the only error. */
  lemma JsThinLeavesLoop(url: string, site: Site, timeout: int)
    requires site.respond(0).Responded? && site.respond(0).status == 200 && site.respond(0).bodySize > 0
    requires PaywallOf(site.respond(0).page).None? && Classify(site.respond(0).page).Extracted?
    requires var c := Classify(site.respond(0).page).content;
      IsJsHeavyDomain(site.netloc) && |c| >= MinContentChars && (|c| < 1000 || CountWords(c) < 200)
    ensures var page := site.respond(0).page;
      var start := InitialMetadata(url, site, "requests");
      HttpTier(site, timeout, 0, [], start) == Escalate([JsThinMessage], WithHeadings(page, start.(httpStatus := Some(200))))
  {
    var start := InitialMetadata(url, site, "requests");
    ThinContentIsTerminal(site, timeout, 0, [], start);
    var none: seq<string> := [];
    assert none + [JsThinMessage] == [JsThinMessage];
  }

  /** With the headless fallback disabled or not installed, thin text on a
      first 200 is a failed fetch: the thin-content message is its text and
      its only recorded error. */
  lemma ThinContentFailsWhenOff(url: string, site: Site, installed: bool, timeout: int, usePlaywright: bool)
    requires ThinAt(site, 0) && site.respond(0).status == 200
    requires !usePlaywright || !installed
    ensures var page := site.respond(0).page;
      var m := ThinMessage(site.netloc, Classify(page).content);
      var r := DirectSpec(url, site, installed, timeout, usePlaywright);
      !r.success && r.text == m && r.metadata.fetchErrors == [m]
  {
    var page := site.respond(0).page;
    var m := ThinMessage(site.netloc, Classify(page).content);
    var start := InitialMetadata(url, site, "requests");
    ThinContentIsTerminal(site, timeout, 0, [], start);
    var none: seq<string> := [];
    assert none + [m] == [m];
  }

  /** When the headless browser succeeds, the fallback returns its text,
      marked as a headless fetch, with the HTTP tier's errors in front. */
  lemma HeadlessSuccessReturned(url: string, site: Site, shouldTry: bool, errors: seq<string>, metadata: Metadata)
    requires shouldTry && HeadlessSpec(url, site, true).success
    ensures var r := Fallback(url, site, true, true, shouldTry, errors, metadata);
      r.success && r.text == HeadlessSpec(url, site, true).text &&
      r.metadata.fetchMethod == "playwright" && r.metadata.fetchErrors == errors
  {
    var pw := HeadlessSpec(url, site, true);
    assert errors + pw.metadata.fetchErrors == errors;
  }

  /** A JavaScript-rendered first page goes straight to the headless browser
      (the second request is never made); when the browser succeeds, its text
      is returned with the extraction error as the only recorded error. */
  lemma JsRenderedEscalates(url: string, site: Site, timeout: int)
    requires site.respond(0).Responded? && site.respond(0).status == 200 && site.respond(0).bodySize > 0
    requires PaywallOf(site.respond(0).page).None? && LooksJsRendered(site.respond(0).page)
    requires HeadlessSpec(url, site, true).success
    ensures var page := site.respond(0).page;
      var r := DirectSpec(url, site, true, timeout, true);
      r.success && r.text == HeadlessSpec(url, site, true).text &&
      r.metadata.fetchMethod == "playwright" &&
      r.metadata.fetchErrors == [ExtractionFailedMessage(JsRendered(page.scriptCount, page.paragraphCount))]
  {
    var page := site.respond(0).page;
    var start := InitialMetadata(url, site, "requests");
    var errors := [ExtractionFailedMessage(JsRendered(page.scriptCount, page.paragraphCount))];
    var extracted := WithHeadings(page, start.(httpStatus := Some(200)));
    JsRenderedLeavesLoop(url, site, timeout);
    var exit := HttpTier(site, timeout, 0, [], start);
    assert exit == Escalate(errors, extracted);
    assert DirectSpec(url, site, true, timeout, true) == AfterLoop(url, site, true, true, exit);
    HeadlessSuccessReturned(url, site, true, errors, extracted);
  }

  /** Thin text on a first 200 goes to the headless browser with the
      fallback on and installed; when the browser succeeds, its text is
      returned with the thin-content message as the only recorded error. */
  lemma ThinContentEscalates(url: string, site: Site, timeout: int)
    requires ThinAt(site, 0) && site.respond(0).status == 200
    requires HeadlessSpec(url, site, true).success
    ensures var m := ThinMessage(site.netloc, Classify(site.respond(0).page).content);
      var r := DirectSpec(url, site, true, timeout, true);
      r.success && r.text == HeadlessSpec(url, site, true).text &&
      r.metadata.fetchMethod == "playwright" && r.metadata.fetchErrors == [m]
  {
    var page := site.respond(0).page;
    var m := ThinMessage(site.netloc, Classify(page).content);
    var start := InitialMetadata(url, site, "requests");
    var extracted := WithHeadings(page, start.(httpStatus := Some(200)));
    ThinContentIsTerminal(site, timeout, 0, [], start);
    var none: seq<string> := [];
    assert none + [m] == [m];
    var exit := HttpTier(site, timeout, 0, [], start);
    assert exit == Escalate([m], extracted);
    assert DirectSpec(url, site, true, timeout, true) == AfterLoop(url, site, true, true, exit);
    HeadlessSuccessReturned(url, site, true, [m], extracted);
  }

  /** The link is an MSN wrapper whose wrapped article is fetched successfully. */
  predicate UnwrapSucceeds(url: string, web: Web, timeout: int)
  {
    var original := OriginalUrlFromMsn(web.sites(url));
    original.Some? && |original.value| < |url| && FetchSpec(original.value, web, timeout, true).success
  }

  /** An MSN link whose wrapped article can be fetched returns exactly that fetch. */
  lemma MsnUnwrapReturnsInner(url: string, web: Web, timeout: int, usePlaywright: bool)
    requires UnwrapSucceeds(url, web, timeout)
    ensures FetchSpec(url, web, timeout, usePlaywright)
         == FetchSpec(OriginalUrlFromMsn(web.sites(url)).value, web, timeout, true)
  {
  }

  /** Any other link is fetched directly: a wrapped article that fails to
      fetch leaves no trace in the result. */
  lemma OtherwiseDirect(url: string, web: Web, timeout: int, usePlaywright: bool)
    requires !UnwrapSucceeds(url, web, timeout)
    ensures FetchSpec(url, web, timeout, usePlaywright)
         == DirectSpec(url, web.sites(url), web.headlessInstalled, timeout, usePlaywright)
  {
  }
}
