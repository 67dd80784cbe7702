/** utils/document_parser.py: the line parser that turns the extracted key
    messages into records, and the file-extension dispatch of
    `extract_text_from_file`. The PDF and Word extractors and UTF-8
    decoding are outside the model: their outcomes are parameters. */
module DocumentParser {
  import opened Text

  /** The bullet prefixes tried, in order; at most one is removed. */
  const BulletPrefixes: seq<string> := ["- ", "• ", "* ", "– ", "— "]

  /** The first prefix, in list order, that the line starts with. */
  function FirstPrefix(line: string, prefixes: seq<string>): (p: string)
    ensures p == [] || (p in prefixes && StartsWith(line, p))
  {
    if prefixes == [] then []
    else if StartsWith(line, prefixes[0]) then prefixes[0]
    else FirstPrefix(line, prefixes[1..])
  }

  /** The line without its first matching bullet prefix. */
  function DropBullet(line: string): (r: string)
  {
    var p := FirstPrefix(line, BulletPrefixes);
    line[|p|..]
  }

  /** The prefix loop of `parse_extracted_messages`: removes the first
      matching prefix and stops. */
  method RemoveBullet(line: string) returns (r: string)
    ensures r == DropBullet(line)
  {
    var prefixes := BulletPrefixes;
    for j := 0 to |prefixes|
      invariant FirstPrefix(line, prefixes) == FirstPrefix(line, prefixes[j..])
    {
      assert prefixes[j..][1..] == prefixes[j + 1..];
      if StartsWith(line, prefixes[j]) {
        return line[|prefixes[j]|..];
      }
    }
    return line;
  }

  /** Exactly one prefix comes off: the first in list order that matches, or
      none when no prefix matches. */
  lemma {:induction false} DropBulletOnce(line: string, prefixes: seq<string>)
    requires forall k | 0 <= k < |prefixes| :: prefixes[k] != []
    ensures var p := FirstPrefix(line, prefixes);
      (p == [] <==> forall k | 0 <= k < |prefixes| :: !StartsWith(line, prefixes[k])) &&
      (p != [] ==> (exists k | 0 <= k < |prefixes| :: (p == prefixes[k] &&
         forall j | 0 <= j < k :: !StartsWith(line, prefixes[j]))))
  {
    if prefixes != [] && !StartsWith(line, prefixes[0]) {
      DropBulletOnce(line, prefixes[1..]);
      assert forall k | 1 <= k < |prefixes| :: prefixes[k] == prefixes[1..][k - 1];
      var p := FirstPrefix(line, prefixes);
      if p != [] {
        var k :| 0 <= k < |prefixes[1..]| && p == prefixes[1..][k] &&
          forall j | 0 <= j < k :: !StartsWith(line, prefixes[1..][j]);
        assert p == prefixes[k + 1];
      }
    }
  }

  /** A doubled bullet loses only its first marker. */
  lemma DoubledBulletKeepsSecond()
    ensures DropBullet("- - point") == "- point"
  {
    assert StartsWith("- - point", "- ");
  }

  /** The number of leading ASCII digits: the longest run of digits that
      starts `s`. */
  function LeadingDigits(s: string): (n: nat)
    ensures n <= |s|
    ensures forall k | 0 <= k < n :: IsDigit(s[k])
    ensures n < |s| ==> !IsDigit(s[n])
  {
    if s != [] && IsDigit(s[0]) then 1 + LeadingDigits(s[1..]) else 0
  }

  /** `re.sub(r'^\d+[\.\)]\s*', '', line)`: a leading number followed by
      `.` or `)`, and the whitespace after it, is removed. */
  function DropNumbering(line: string): (r: string)
    ensures |r| <= |line|
  {
    var n := LeadingDigits(line);
    if 1 <= n < |line| && (line[n] == '.' || line[n] == ')') then TrimStart(line[n + 1..]) else line
  }

  /** The substitution changes a line exactly when the line opens with one
      or more digits followed by `.` or `)`. */
  lemma DropNumberingWhen(line: string)
    ensures var n := LeadingDigits(line);
      DropNumbering(line) == line <==> !(1 <= n < |line| && (line[n] == '.' || line[n] == ')'))
  {
    var n := LeadingDigits(line);
    if 1 <= n < |line| && (line[n] == '.' || line[n] == ')') {
      assert |DropNumbering(line)| < |line|;
    }
  }

  /** What the substitution removes, for every line: when it removes
      anything (the result is a suffix, so a shorter result is a changed
      line), it removes a prefix made of the
      leading digits, the `.` or `)` after them and the whitespace after
      that, so that what is left is a suffix of the line that does not open
      with whitespace. */
  lemma DropNumberingSpec(line: string)
    ensures EndsWith(line, DropNumbering(line))
    ensures var n := LeadingDigits(line);
      |DropNumbering(line)| < |line| ==> 1 <= n < |line| && (line[n] == '.' || line[n] == ')')
    ensures |DropNumbering(line)| < |line| ==> forall k | 0 <= k < LeadingDigits(line) :: IsDigit(line[k])
    ensures var r, n := DropNumbering(line), LeadingDigits(line);
      |r| < |line| ==> n < |line| - |r| && AllSpace(line[n + 1..|line| - |r|])
    ensures var r := DropNumbering(line);
      |r| < |line| ==> r == [] || !IsSpace(r[0])
  {
    var n := LeadingDigits(line);
    if 1 <= n < |line| && (line[n] == '.' || line[n] == ')') {
      NumberedDrop(line, n);
      TrimmedTailIsSuffix(line, n + 1);
      NumberingGap(line);
    } else {
      assert line[|line| - |line|..] == line;
    }
  }

  /** A numbered line loses its number, the mark and the whitespace after it. */
  lemma NumberedDrop(line: string, n: nat)
    requires n == LeadingDigits(line) && 1 <= n < |line| && (line[n] == '.' || line[n] == ')')
    ensures DropNumbering(line) == TrimStart(line[n + 1..])
  {
  }

  /** What lies between the `.` or `)` and the result of a changed line is
      whitespace. */
  lemma NumberingGap(line: string)
    ensures var r, n := DropNumbering(line), LeadingDigits(line);
      |r| < |line| ==> n < |line| - |r| && AllSpace(line[n + 1..|line| - |r|])
  {
    var n := LeadingDigits(line);
    if 1 <= n < |line| && (line[n] == '.' || line[n] == ')') {
      NumberedDrop(line, n);
      TrimmedTailIsSpace(line, n + 1);
    } else {
      assert DropNumbering(line) == line;
    }
  }

  /** Trimming the whitespace off a tail of a line leaves a suffix of the line. */
  lemma TrimmedTailIsSuffix(line: string, i: nat)
    requires i <= |line|
    ensures EndsWith(line, TrimStart(line[i..]))
  {
    var rest := line[i..];
    TrimStartIsSuffix(rest);
    var r := TrimStart(rest);
    assert rest[|rest| - |r|..] == line[|line| - |r|..];
  }

  /** What trimming the tail of a line drops is whitespace. */
  lemma TrimmedTailIsSpace(line: string, i: nat)
    requires i <= |line|
    ensures var r := TrimStart(line[i..]);
      i <= |line| - |r| && AllSpace(line[i..|line| - |r|])
  {
    var rest := line[i..];
    TrimStartIsSuffix(rest);
    var r := TrimStart(rest);
    assert rest[..|rest| - |r|] == line[i..|line| - |r|];
  }

  /** A number closed by `)` and the space after it are removed. */
  lemma NumberedItemExample()
    ensures DropNumbering("12) Launch") == "Launch"
  {
    var line := "12) Launch";
    assert LeadingDigits(line[2..]) == 0;
    assert LeadingDigits(line[1..]) == 1;
    assert TrimStart(line[3..][1..]) == "Launch";
  }

  /** A number alone is no numbering: it needs a `.` or `)` after it. */
  lemma YearIsKeptExample()
    ensures DropNumbering("2024 plan") == "2024 plan"
  {
    var line := "2024 plan";
    assert LeadingDigits(line[4..]) == 0;
    assert LeadingDigits(line[3..]) == 1;
    assert LeadingDigits(line[1..]) == 3;
  }

  /** A message that opens with a decimal number has the same shape as a
      numbered item and loses its integer part and point. */
  lemma LeadingDecimalExample()
    ensures DropNumbering("3.5 million") == "5 million"
  {
    var line := "3.5 million";
    assert LeadingDigits(line[1..]) == 0;
    assert TrimStart(line[2..]) == "5 million";
  }

  /** One message record; the parser gives every record priority "medium". */
  datatype KeyMessage = KeyMessage(message: string, priority: string)

  const DefaultPriority: string := "medium"

  /** What a line becomes: stripped, one bullet off, one number off. */
  function CleanLine(line: string): string
  {
    DropNumbering(DropBullet(Strip(line)))
  }

  /** The records a line contributes: one, or none when it is blank or
      nothing is left of it. */
  function LineMessages(line: string): (r: seq<KeyMessage>)
    ensures |r| <= 1
    ensures |r| == 1 ==> r[0].message != [] && r[0].priority == DefaultPriority
  {
    if Strip(line) == [] then []
    else
      var cleaned := CleanLine(line);
      if cleaned == [] then [] else [KeyMessage(cleaned, DefaultPriority)]
  }

  /** The records of each line in turn, accumulated front to back. */
  function Collect(perLine: string -> seq<KeyMessage>, lines: seq<string>): seq<KeyMessage>
  {
    if lines == [] then []
    else Collect(perLine, lines[..|lines| - 1]) + perLine(lines[|lines| - 1])
  }

  /** The records parsed from `lines`. */
  function ParseLines(lines: seq<string>): seq<KeyMessage>
  {
    Collect(LineMessages, lines)
  }

  /** No record has an empty message, every record has priority "medium",
      and there are never more records than lines. */
  lemma {:induction false} ParsedMessagesWellFormed(lines: seq<string>)
    ensures var r := ParseLines(lines);
      |r| <= |lines| && forall k | 0 <= k < |r| :: r[k].message != [] && r[k].priority == DefaultPriority
    decreases |lines|
  {
    if lines != [] {
      var init := lines[..|lines| - 1];
      ParsedMessagesWellFormed(init);
      var last := LineMessages(lines[|lines| - 1]);
      assert ParseLines(lines) == ParseLines(init) + last;
    }
  }

  /** `raw_messages.strip().split('\n')`. */
  function Lines(raw: string): seq<string>
  {
    Split(Strip(raw), '\n')
  }

  /** `parse_extracted_messages(raw_messages)`. */
  method ParseExtractedMessages(raw: string) returns (messages: seq<KeyMessage>)
    ensures messages == ParseLines(Lines(raw))
  {
    messages := [];
    var lines := Lines(raw);
    for i := 0 to |lines|
      invariant messages == ParseLines(lines[..i])
    {
      assert lines[..i + 1][..i] == lines[..i];
      var line := Strip(lines[i]);
      if line == [] {
        continue;
      }
      line := RemoveBullet(line);
      line := DropNumbering(line);
      if line != [] {
        messages := messages + [KeyMessage(line, DefaultPriority)];
      }
    }
    assert lines[..|lines|] == lines;
  }

  /** Lines are handled independently: the records of two runs of lines
      are the records of the first run followed by those of the second. */
  lemma {:induction false} CollectAppend(perLine: string -> seq<KeyMessage>, a: seq<string>, b: seq<string>)
    ensures Collect(perLine, a + b) == Collect(perLine, a) + Collect(perLine, b)
    decreases |b|
  {
    if b != [] {
      var init := b[..|b| - 1];
      assert (a + b)[..|a + b| - 1] == a + init;
      assert (a + b)[|a + b| - 1] == b[|b| - 1];
      CollectAppend(perLine, a, init);
      assert Collect(perLine, b) == Collect(perLine, init) + perLine(b[|b| - 1]);
    } else {
      assert a + b == a;
    }
  }

  /** Each record comes from one line, in order: the records of `lines` are
      those of the lines before line `i`, then line `i`'s, then the rest's. */
  lemma ParseLinesByLine(lines: seq<string>, i: nat)
    requires i < |lines|
    ensures ParseLines(lines) == ParseLines(lines[..i]) + LineMessages(lines[i]) + ParseLines(lines[i + 1..])
  {
    assert lines == lines[..i] + [lines[i]] + lines[i + 1..];
    CollectAppend(LineMessages, lines[..i] + [lines[i]], lines[i + 1..]);
    CollectAppend(LineMessages, lines[..i], [lines[i]]);
    assert ParseLines([lines[i]]) == LineMessages(lines[i]) by {
      assert [lines[i]][..0] == [];
    }
  }

  /** What an external extractor produced: text, or an exception's message. */
  datatype Extracted = Text(text: string) | Raised(message: string)

  const LegacyDocMessage: string := "Legacy .doc format not supported. Please convert to .docx or PDF."
  const NoTextMessage: string := "No text could be extracted from the file."

  /** The index of the last occurrence of `c` in `s`, if any. */
  function LastIndex(s: string, c: char): (i: int)
    ensures -1 <= i < |s|
    ensures i >= 0 ==> s[i] == c
  {
    if s == [] then -1
    else if s[|s| - 1] == c then |s| - 1
    else LastIndex(s[..|s| - 1], c)
  }

  /** `Path(filename).suffix`: from the last dot of the final path component,
      unless that dot starts or ends the component. */
  function Suffix(filename: string): (r: string)
    ensures r == [] || (|r| >= 2 && r[0] == '.')
  {
    var slash := LastIndex(filename, '/');
    var name := filename[slash + 1..];
    var dot := LastIndex(name, '.');
    if 0 < dot < |name| - 1 then name[dot..] else []
  }

  const SupportedSuffixes: seq<string> := [".pdf", ".docx", ".doc", ".txt"]

  /** `extract_text_from_file`: dispatch on the lower-cased name, then refuse
      text that is only whitespace. */
  function ExtractTextFromFile(filename: string, pdf: Extracted, docx: Extracted, utf8: Extracted): (r: (bool, string))
  {
    var name := Lower(filename);
    var extracted :=
      if EndsWith(name, ".pdf") then pdf
      else if EndsWith(name, ".docx") then docx
      else if EndsWith(name, ".doc") then Raised(LegacyDocMessage)
      else if EndsWith(name, ".txt") then utf8
      else Raised("Unsupported file format: " + Suffix(name));
    match extracted
    case Raised(message) => (false, message)
    case Text(text) => if Strip(text) == [] then (false, NoTextMessage) else (true, text)
  }

  /** What one extractor's outcome reports: its exception's message, the
      no-text message for text that is all whitespace, or the text itself. */
  function Reported(e: Extracted): (bool, string)
  {
    match e
    case Raised(message) => (false, message)
    case Text(text) => if AllSpace(text) then (false, NoTextMessage) else (true, text)
  }

  /** Each supported extension selects its own extractor, and the file's
      outcome is that extractor's: non-blank text succeeds unchanged, blank
      text fails with the no-text message, an exception fails with its message. */
  lemma ExtractorByExtension(filename: string, pdf: Extracted, docx: Extracted, utf8: Extracted)
    ensures EndsWith(Lower(filename), ".pdf") ==> ExtractTextFromFile(filename, pdf, docx, utf8) == Reported(pdf)
    ensures EndsWith(Lower(filename), ".docx") ==> ExtractTextFromFile(filename, pdf, docx, utf8) == Reported(docx)
    ensures EndsWith(Lower(filename), ".txt") ==> ExtractTextFromFile(filename, pdf, docx, utf8) == Reported(utf8)
  {
    var name := Lower(filename);
    if pdf.Text? { StripEmptyIff(pdf.text); }
    if docx.Text? { StripEmptyIff(docx.text); }
    if utf8.Text? { StripEmptyIff(utf8.text); }
    if |name| > 0 {
      var last := name[|name| - 1];
      assert EndsWith(name, ".pdf") ==> last == 'f';
      assert EndsWith(name, ".docx") ==> last == 'x';
      assert EndsWith(name, ".doc") ==> last == 'c';
      assert EndsWith(name, ".txt") ==> last == 't';
    }
  }

  /** A `.doc` file always fails with the legacy-format message. */
  lemma LegacyDocRefused(filename: string, pdf: Extracted, docx: Extracted, utf8: Extracted)
    requires EndsWith(Lower(filename), ".doc")
    ensures ExtractTextFromFile(filename, pdf, docx, utf8) == (false, LegacyDocMessage)
  {
    var name := Lower(filename);
    assert name[|name| - 1] == ".doc"[3];
  }

  /** A name with none of the four extensions fails, naming its suffix. */
  lemma UnknownExtensionRefused(filename: string, pdf: Extracted, docx: Extracted, utf8: Extracted)
    requires forall k | 0 <= k < |SupportedSuffixes| :: !EndsWith(Lower(filename), SupportedSuffixes[k])
    ensures ExtractTextFromFile(filename, pdf, docx, utf8) == (false, "Unsupported file format: " + Suffix(Lower(filename)))
  {
    assert SupportedSuffixes[0] == ".pdf" && SupportedSuffixes[1] == ".docx";
    assert SupportedSuffixes[2] == ".doc" && SupportedSuffixes[3] == ".txt";
  }

  /** Success carries one extractor's text unchanged, and that text is not
      all whitespace. */
  lemma ExtractedTextNotBlank(filename: string, pdf: Extracted, docx: Extracted, utf8: Extracted)
    ensures var r := ExtractTextFromFile(filename, pdf, docx, utf8);
      r.0 ==> !AllSpace(r.1) && (Text(r.1) == pdf || Text(r.1) == docx || Text(r.1) == utf8)
  {
    var r := ExtractTextFromFile(filename, pdf, docx, utf8);
    StripEmptyIff(r.1);
  }
}
