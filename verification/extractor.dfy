/** The HTML content extractor of utils/article_fetcher.py
    (`extract_content_from_html`) over an abstract summary of the parsed page,
    together with the fetch metadata record it fills in. */
module ArticleExtractor {
  import opened Optional
  import opened Text

  /** The metadata dict built by `fetch_article` and `fetch_with_playwright`.
      `partial` holds the `partial_content_reason` when `partial_content` is set. */
  datatype Metadata = Metadata(
    url: string,
    domain: string,
    title: string,
    author: string,
    fetchErrors: seq<string>,
    httpStatus: Option<int>,
    fetchMethod: string,
    partial: Option<string>)

  /** What the extractor reads from a parsed page. The HTML parser and its CSS
      selector engine are not modelled; a page is given by what they report. */
  datatype Doc = Doc(
    // text of the <title> element, when the page has one
    title: Option<string>,
    // text of the first element a CSS selector matches in the page as parsed
    selectText: string -> Option<string>,
    // number of <script> and <p> elements in the page as parsed
    scriptCount: nat,
    paragraphCount: nat,
    // length of the page's visible text (joined with ' ', pieces stripped)
    textLength: nat,
    // the same length once script/style/nav/header/footer/aside/iframe/noscript/form are removed
    cleanedTextLength: nat,
    // after that removal: the texts of the <p> elements inside the first element
    // a CSS selector matches, when it matches one
    selectParagraphs: string -> Option<seq<string>>,
    // after that removal: the texts of all <p> elements of the page
    paragraphs: seq<string>,
    // the page serialised back to HTML (`str(soup)`)
    markup: string)

  /** Why an extraction failed; `Message` is the text the extractor returns. */
  datatype ExtractError =
    | JsRendered(scripts: nat, paragraphs: nat)
    | NoMeaningfulContent(chars: nat)
    | TooFewChars(chars: nat)
    | TooFewWords(words: nat)
  {
    function Message(): string
    {
      match this
      case JsRendered(s, p) => JsRenderedLead + NatToString(s) + " scripts, " + NatToString(p) + " paragraphs)"
      case NoMeaningfulContent(n) => NoContentLead + NatToString(n) + " chars of text)"
      case TooFewChars(n) => TooShortLead + NatToString(n) + " chars, need 200+)"
      case TooFewWords(n) => TooShortLead + NatToString(n) + " words, need 50+)"
    }
  }

  // The fixed parts of the messages, named so that proofs need not unfold them.
  const JsRenderedLead: string := "JavaScript-rendered page (React/Vue/etc.) - requires browser to access content ("
  const NoContentLead: string := "Page has no meaningful content (only "
  const TooShortLead: string := "Content too short ("

  datatype Extraction = Extracted(content: string) | ExtractFailed(error: ExtractError)

  const HeadlineSelectors: seq<string> := [
    "h1.headline", "h1.article-title", "h1.post-title",
    "h1[class*=\"headline\"]", "h1[class*=\"title\"]",
    "article h1", ".article-header h1", "h1"]

  const AuthorSelectors: seq<string> := [
    "[class*=\"author\"] a", "[class*=\"byline\"]",
    "a[rel=\"author\"]", "[class*=\"author-name\"]",
    "span[class*=\"author\"]", ".author", ".byline"]

  const ContentSelectors: seq<string> := [
    "article", "[class*=\"article-body\"]", "[class*=\"article-content\"]",
    "[class*=\"post-content\"]", "[class*=\"entry-content\"]",
    "[class*=\"story-body\"]", "[class*=\"story-content\"]",
    "[class*=\"main-content\"]", "[class*=\"page-content\"]",
    ".content", "main", "[role=\"main\"]"]

  /** The JavaScript-rendered-page test, made on the page before clean-up. */
  predicate LooksJsRendered(doc: Doc)
  {
    doc.scriptCount > 20 && doc.paragraphCount < 3 && doc.textLength < 500
  }

  /** Text of the first selector, in list order, that matches an element. */
  function FirstMatch(sels: seq<string>, select: string -> Option<string>): Option<string>
  {
    if sels == [] then None
    else if select(sels[0]).Some? then select(sels[0])
    else FirstMatch(sels[1..], select)
  }

  /** `FirstMatch` finds nothing exactly when no selector matches, and
      otherwise the text of a selector that no earlier one precedes. */
  lemma {:induction false} FirstMatchIsFirst(sels: seq<string>, select: string -> Option<string>)
    ensures FirstMatch(sels, select).None? <==> forall k | 0 <= k < |sels| :: select(sels[k]).None?
    ensures FirstMatch(sels, select).Some? ==> exists k | 0 <= k < |sels| ::
      select(sels[k]) == FirstMatch(sels, select) && forall j | 0 <= j < k :: select(sels[j]).None?
  {
    if sels != [] && select(sels[0]).None? {
      FirstMatchIsFirst(sels[1..], select);
      assert forall k | 1 <= k < |sels| :: sels[k] == sels[1..][k - 1];
      if FirstMatch(sels, select).Some? {
        var k :| 0 <= k < |sels[1..]| && select(sels[1..][k]) == FirstMatch(sels, select) &&
                 forall j | 0 <= j < k :: select(sels[1..][j]).None?;
        assert select(sels[k + 1]) == FirstMatch(sels, select);
      }
    }
  }

  /** `re.sub(r'^(By|Written by|Author:)\s*', '', s, flags=re.IGNORECASE)`. */
  function CleanByline(s: string): string
  {
    var l := Lower(s);
    var n := if StartsWith(l, "by") then 2
             else if StartsWith(l, "written by") then 10
             else if StartsWith(l, "author:") then 7
             else 0;
    if n == 0 then s else TrimStart(s[n..])
  }

  /** The cleaned byline is a suffix of the byline, and either the byline
      itself or a suffix that starts with a non-space character. */
  lemma CleanBylineIsSuffix(s: string)
    ensures var r := CleanByline(s); |r| <= |s| && r == s[|s| - |r|..]
    ensures var r := CleanByline(s); r == s || r == [] || !IsSpace(r[0])
  {
    var l := Lower(s);
    var n := if StartsWith(l, "by") then 2
             else if StartsWith(l, "written by") then 10
             else if StartsWith(l, "author:") then 7
             else 0;
    if n != 0 {
      var r := TrimStart(s[n..]);
      TrimStartIsSuffix(s[n..]);
      assert s[n..][|s[n..]| - |r|..] == s[|s| - |r|..];
    }
  }

  /** The title the extractor leaves in the metadata: the first headline
      selector's text, else the <title> text, else what was there before. */
  function ExtractedTitle(doc: Doc, previous: string): string
  {
    match FirstMatch(HeadlineSelectors, doc.selectText)
    case Some(h) => Strip(h)
    case None => if doc.title.Some? then Strip(doc.title.value) else previous
  }

  /** The author the extractor leaves in the metadata. */
  function ExtractedAuthor(doc: Doc, previous: string): string
  {
    match FirstMatch(AuthorSelectors, doc.selectText)
    case Some(a) => CleanByline(Strip(a))
    case None => previous
  }

  /** The stripped, non-empty paragraph texts, in order. */
  function NonEmptyStripped(ps: seq<string>): (r: seq<string>)
    ensures |r| <= |ps|
    ensures forall k | 0 <= k < |r| :: r[k] != []
  {
    if ps == [] then []
    else if Strip(ps[0]) == [] then NonEmptyStripped(ps[1..])
    else [Strip(ps[0])] + NonEmptyStripped(ps[1..])
  }

  /** `"\n\n".join(p.get_text().strip() for p in ps if p.get_text().strip())`. */
  function ParagraphText(ps: seq<string>): string
  {
    Join(NonEmptyStripped(ps), "\n\n")
  }

  predicate RichContainer(doc: Doc, sel: string)
  {
    doc.selectParagraphs(sel).Some? && CountWords(ParagraphText(doc.selectParagraphs(sel).value)) >= 100
  }

  /** The text of the first container selector, in list order, whose
      paragraphs reach 100 words. */
  function FirstRich(sels: seq<string>, doc: Doc): (r: Option<string>)
    ensures r.Some? ==> CountWords(r.value) >= 100
  {
    if sels == [] then None
    else if RichContainer(doc, sels[0]) then Some(ParagraphText(doc.selectParagraphs(sels[0]).value))
    else FirstRich(sels[1..], doc)
  }

  /** `FirstRich` finds nothing exactly when no container is rich, and
      otherwise the text of a rich container that no earlier rich one precedes. */
  lemma {:induction false} FirstRichIsFirst(sels: seq<string>, doc: Doc)
    ensures FirstRich(sels, doc).None? <==> forall k | 0 <= k < |sels| :: !RichContainer(doc, sels[k])
    ensures FirstRich(sels, doc).Some? ==> exists k | 0 <= k < |sels| ::
      RichContainer(doc, sels[k]) && FirstRich(sels, doc).value == ParagraphText(doc.selectParagraphs(sels[k]).value) &&
      forall j | 0 <= j < k :: !RichContainer(doc, sels[j])
  {
    if sels != [] && !RichContainer(doc, sels[0]) {
      FirstRichIsFirst(sels[1..], doc);
      assert forall k | 1 <= k < |sels| :: sels[k] == sels[1..][k - 1];
      if FirstRich(sels, doc).Some? {
        var k :| 0 <= k < |sels[1..]| && RichContainer(doc, sels[1..][k]) &&
                 FirstRich(sels, doc).value == ParagraphText(doc.selectParagraphs(sels[1..][k]).value) &&
                 forall j | 0 <= j < k :: !RichContainer(doc, sels[1..][j]);
        assert RichContainer(doc, sels[k + 1]);
      }
    }
  }

  /** The article body: the first rich container, else every paragraph of the page. */
  function Body(doc: Doc): string
  {
    match FirstRich(ContentSelectors, doc)
    case Some(c) => c
    case None => ParagraphText(doc.paragraphs)
  }

  /** The outcome of `extract_content_from_html`: the ordered validation cascade. */
  function Classify(doc: Doc): (x: Extraction)
    ensures x.Extracted? ==> |x.content| >= 200 && CountWords(x.content) >= 50
  {
    if LooksJsRendered(doc) then ExtractFailed(JsRendered(doc.scriptCount, doc.paragraphCount))
    else if doc.cleanedTextLength < 100 then ExtractFailed(NoMeaningfulContent(doc.cleanedTextLength))
    else
      var c := Body(doc);
      if |c| < 200 then ExtractFailed(TooFewChars(|c|))
      else if CountWords(c) < 50 then ExtractFailed(TooFewWords(CountWords(c)))
      else Extracted(c)
  }

  /** The validation cascade in order: a JavaScript-rendered page is reported
      first, then a page with almost no text, then a body short in characters,
      then one short in words; the body is returned exactly when every check passes. */
  lemma ClassifyCascade(doc: Doc)
    ensures var x := Classify(doc);
      && (x.Extracted? <==>
           !LooksJsRendered(doc) && doc.cleanedTextLength >= 100 && |Body(doc)| >= 200 && CountWords(Body(doc)) >= 50)
      && (x.Extracted? ==> x.content == Body(doc))
      && (LooksJsRendered(doc) <==> x == ExtractFailed(JsRendered(doc.scriptCount, doc.paragraphCount)))
      && (!LooksJsRendered(doc) && doc.cleanedTextLength < 100 <==> x == ExtractFailed(NoMeaningfulContent(doc.cleanedTextLength)))
      && (x.ExtractFailed? && x.error.TooFewChars? <==>
           !LooksJsRendered(doc) && doc.cleanedTextLength >= 100 && |Body(doc)| < 200)
  {
  }

  /** The first loop of `extract_content_from_html`: the first headline
      selector that matches overrides the <title> text. */
  method FindHeadline(doc: Doc, previous: string) returns (title: string)
    ensures title == ExtractedTitle(doc, previous)
  {
    title := if doc.title.Some? then Strip(doc.title.value) else previous;
    for i := 0 to |HeadlineSelectors|
      invariant FirstMatch(HeadlineSelectors, doc.selectText) == FirstMatch(HeadlineSelectors[i..], doc.selectText)
      invariant title == if doc.title.Some? then Strip(doc.title.value) else previous
    {
      assert HeadlineSelectors[i..][1..] == HeadlineSelectors[i + 1..];
      var headline := doc.selectText(HeadlineSelectors[i]);
      if headline.Some? {
        title := Strip(headline.value);
        return;
      }
    }
  }

  /** The second loop: the first byline selector that matches gives the author. */
  method FindAuthor(doc: Doc, previous: string) returns (author: string)
    ensures author == ExtractedAuthor(doc, previous)
  {
    author := previous;
    for i := 0 to |AuthorSelectors|
      invariant FirstMatch(AuthorSelectors, doc.selectText) == FirstMatch(AuthorSelectors[i..], doc.selectText)
      invariant author == previous
    {
      assert AuthorSelectors[i..][1..] == AuthorSelectors[i + 1..];
      var byline := doc.selectText(AuthorSelectors[i]);
      if byline.Some? {
        author := CleanByline(Strip(byline.value));
        return;
      }
    }
  }

  /** The container loop over `sels`: the first container whose paragraphs
      reach 100 words. */
  method ScanContainers(sels: seq<string>, doc: Doc) returns (found: Option<string>)
    ensures found == FirstRich(sels, doc)
  {
    for i := 0 to |sels|
      invariant FirstRich(sels, doc) == FirstRich(sels[i..], doc)
    {
      assert sels[i..][1..] == sels[i + 1..];
      var paragraphs := doc.selectParagraphs(sels[i]);
      if paragraphs.Some? {
        var content := ParagraphText(paragraphs.value);
        if CountWords(content) >= 100 {
          return Some(content);
        }
      }
    }
    return None;
  }

  /** The container loop and its all-paragraphs fallback. */
  method ChooseBody(doc: Doc) returns (content: string)
    ensures content == Body(doc)
  {
    var found := ScanContainers(ContentSelectors, doc);
    content := if found.Some? then found.value else ParagraphText(doc.paragraphs);
  }

  /** `extract_content_from_html(soup, metadata)`: writes the title and author
      into the metadata, then validates and extracts the body. */
  method ExtractContent(doc: Doc, metadata: Metadata) returns (x: Extraction, updated: Metadata)
    ensures updated == metadata.(title := ExtractedTitle(doc, metadata.title),
                                 author := ExtractedAuthor(doc, metadata.author))
    ensures x == Classify(doc)
  {
    var title := FindHeadline(doc, metadata.title);
    var author := FindAuthor(doc, metadata.author);
    updated := metadata.(title := title, author := author);

    if doc.scriptCount > 20 && doc.paragraphCount < 3 {
      if doc.textLength < 500 {
        x := ExtractFailed(JsRendered(doc.scriptCount, doc.paragraphCount));
        return;
      }
    }
    assert !LooksJsRendered(doc);
    if doc.cleanedTextLength < 100 {
      x := ExtractFailed(NoMeaningfulContent(doc.cleanedTextLength));
      return;
    }
    var content := ChooseBody(doc);
    var charCount := |content|;
    var wordCount := CountWords(content);
    if charCount < 200 {
      x := ExtractFailed(TooFewChars(charCount));
      return;
    }
    if wordCount < 50 {
      x := ExtractFailed(TooFewWords(wordCount));
      return;
    }
    x := Extracted(content);
  }
}
