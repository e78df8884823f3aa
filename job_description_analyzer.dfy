/** The analysis tab (src/components/job-description-analyzer.tsx): the
    regex-based line classifier that also un-escapes literal `\n`, the
    50-character input rule and the loading/result state of the panel. */
module JobDescriptionAnalyzer {
  import opened Common
  import opened JsText
  import D = JobDescriptionDisplay

  type Block = D.Block

  // ---------------------------------------------------------------------------
  // `text.replace(/\\n/g, '\n')`

  /** No backslash is immediately followed by the letter `n`. */
  predicate NoEscapedNewline(s: string) {
    forall i :: 0 <= i < |s| - 1 ==> !(s[i] == '\\' && s[i + 1] == 'n')
  }

  /** Replaces every two-character sequence backslash-`n`, scanning left to
      right without overlap, by a newline. No such sequence remains, and a
      text without a backslash is left as it is. */
  function UnescapeNewlines(s: string): (r: string)
    ensures NoEscapedNewline(r)
    ensures |r| <= |s|
    ensures s != [] ==> r != [] && r[0] == (if |s| >= 2 && s[0] == '\\' && s[1] == 'n' then '\n' else s[0])
    ensures '\\' !in s ==> r == s
    decreases |s|
  {
    if |s| >= 2 && s[0] == '\\' && s[1] == 'n' then
      var u := UnescapeNewlines(s[2..]);
      assert forall i :: 1 <= i < |u| + 1 ==> ("\n" + u)[i] == u[i - 1];
      "\n" + u
    else if s == [] then []
    else
      var u := UnescapeNewlines(s[1..]);
      assert forall i :: 1 <= i < |u| + 1 ==> ([s[0]] + u)[i] == u[i - 1];
      assert '\\' !in s ==> s == [s[0]] + s[1..];
      [s[0]] + u
  }

  /** The reverse direction, which the source does not have: writes every
      newline as backslash-`n`. */
  function EscapeNewlines(s: string): (r: string)
    ensures s != [] ==> r != [] && r[0] == (if s[0] == '\n' then '\\' else s[0])
  {
    if s == [] then []
    else (if s[0] == '\n' then "\\n" else [s[0]]) + EscapeNewlines(s[1..])
  }

  lemma NoEscapedNewlineSuffix(s: string, k: nat)
    requires NoEscapedNewline(s) && k <= |s|
    ensures NoEscapedNewline(s[k..])
  {
    assert forall i :: 0 <= i < |s| - k ==> s[k..][i] == s[k + i];
  }

  /** Un-escaping undoes escaping for every text in which no backslash is
      followed by `n` (for such a pair, escaping and un-escaping turn it into
      a newline). */
  lemma {:induction false} UnescapeEscape(s: string)
    requires NoEscapedNewline(s)
    ensures UnescapeNewlines(EscapeNewlines(s)) == s
    decreases |s|
  {
    if s != [] {
      var rest := s[1..];
      NoEscapedNewlineSuffix(s, 1);
      UnescapeEscape(rest);
      var e := EscapeNewlines(rest);
      if s[0] == '\n' {
        assert EscapeNewlines(s) == "\\n" + e;
        assert ("\\n" + e)[2..] == e;
      } else {
        assert EscapeNewlines(s) == [s[0]] + e;
        assert ([s[0]] + e)[1..] == e;
        if s[0] == '\\' && rest != [] {
          assert s[1] != 'n';
        }
      }
    }
  }

  // ---------------------------------------------------------------------------
  // The line patterns `^##\s`, `^[-*]\s` and `^\d+\.\s`

  /** The regex class `\d`: ASCII digits only. */
  predicate IsAsciiDigit(c: char) {
    '0' <= c <= '9'
  }

  /** The length of the run of digits at the start of `t`. */
  function LeadingDigits(t: string): (n: nat)
    ensures n <= |t|
    ensures forall k :: 0 <= k < n ==> IsAsciiDigit(t[k])
    ensures n < |t| ==> !IsAsciiDigit(t[n])
  {
    if t != [] && IsAsciiDigit(t[0]) then 1 + LeadingDigits(t[1..]) else 0
  }

  /** `/^##\s/` */
  predicate MatchesHeading(t: string) {
    |t| >= 3 && t[0] == '#' && t[1] == '#' && IsWhitespace(t[2])
  }

  /** `/^[-*]\s/` */
  predicate MatchesBullet(t: string) {
    |t| >= 2 && (t[0] == '-' || t[0] == '*') && IsWhitespace(t[1])
  }

  /** `/^\d+\.\s/`, decided on the greedy digit run. */
  predicate MatchesNumbered(t: string) {
    var n := LeadingDigits(t);
    n >= 1 && n + 1 < |t| && t[n] == '.' && IsWhitespace(t[n + 1])
  }

  lemma {:induction false} DigitRunBelowLeadingDigits(t: string, k: nat)
    requires k <= |t| && forall j :: 0 <= j < k ==> IsAsciiDigit(t[j])
    ensures k <= LeadingDigits(t)
    decreases k
  {
    if k > 0 {
      DigitRunBelowLeadingDigits(t[1..], k - 1);
    }
  }

  lemma {:induction false} NonDigitBoundsLeadingDigits(t: string, k: nat)
    requires k < |t| && !IsAsciiDigit(t[k])
    ensures LeadingDigits(t) <= k
    decreases k
  {
    if IsAsciiDigit(t[0]) {
      NonDigitBoundsLeadingDigits(t[1..], k - 1);
    }
  }

  /** `\d+\.\s` matched with the dot at index `k`. */
  predicate NumberedAt(t: string, k: int) {
    1 <= k && k + 1 < |t| && (forall j :: 0 <= j < k ==> IsAsciiDigit(t[j]))
    && t[k] == '.' && IsWhitespace(t[k + 1])
  }

  /** The pattern's own meaning: some non-empty run of digits, then a dot,
      then whitespace. The dot can only sit right after the greedy digit
      run, so deciding the match on that run loses nothing. */
  lemma MatchesNumberedIsRegex(t: string)
    ensures MatchesNumbered(t) <==> exists k :: NumberedAt(t, k)
    ensures forall k :: NumberedAt(t, k) ==> k == LeadingDigits(t)
  {
    var n := LeadingDigits(t);
    forall k | NumberedAt(t, k) ensures k == n {
      DigitRunBelowLeadingDigits(t, k);
      NonDigitBoundsLeadingDigits(t, k);
    }
    if MatchesNumbered(t) {
      assert NumberedAt(t, n);
    }
  }

  /** `t.substring(t.indexOf(' ') + 1)`: what follows the first space of the
      line, or the whole line when it has no space. */
  function AfterFirstSpace(t: string): (r: string)
    ensures ' ' !in t ==> r == t
    ensures ' ' in t ==>
      var k := |t| - |r| - 1;
      0 <= k && t[k] == ' ' && ' ' !in t[..k] && r == t[k + 1..]
  {
    Substring(t, IndexOf(t, ' ') + 1)
  }

  /** The analyzer's classifier for one trimmed line; the tests run in the
      order heading, bullet, numbered item. */
  function ClassifyLine(t: string): (b: Block)
    ensures b.Heading? <==> MatchesHeading(t)
    ensures b.Bullet? <==> !MatchesHeading(t) && MatchesBullet(t)
    ensures b.Numbered? <==> !MatchesHeading(t) && !MatchesBullet(t) && MatchesNumbered(t)
    ensures b.Paragraph? ==> b.text == t
    ensures !b.Paragraph? ==> b.text == AfterFirstSpace(t)
  {
    if MatchesHeading(t) then D.Heading(AfterFirstSpace(t))
    else if MatchesBullet(t) then D.Bullet(AfterFirstSpace(t))
    else if MatchesNumbered(t) then D.Numbered(AfterFirstSpace(t))
    else D.Paragraph(t)
  }

  lemma IndexOfAt(s: string, c: char, k: nat)
    requires k < |s| && s[k] == c
    requires forall j :: 0 <= j < k ==> s[j] != c
    ensures IndexOf(s, c) == k
  {
    assert s[k] in s;
    var r := IndexOf(s, c);
    assert forall j :: 0 <= j < r ==> s[..r][j] == s[j];
  }

  /** `## x` is the heading `x`. */
  lemma HeadingFollowedBySpace(t: string)
    requires StartsWith(t, "## ")
    ensures ClassifyLine(t) == D.Heading(t[3..])
  {
    assert t[..3][0] == '#' && t[..3][1] == '#' && t[..3][2] == ' ';
    IndexOfAt(t, ' ', 2);
  }

  /** `- x` and `* x` are the bullet `x`. */
  lemma BulletFollowedBySpace(t: string)
    requires |t| >= 2 && (t[0] == '-' || t[0] == '*') && t[1] == ' '
    ensures ClassifyLine(t) == D.Bullet(t[2..])
  {
    IndexOfAt(t, ' ', 1);
  }

  /** `12. x` is the numbered item `x`. */
  lemma NumberFollowedBySpace(t: string, n: nat)
    requires n == LeadingDigits(t) && n >= 1 && n + 1 < |t| && t[n] == '.' && t[n + 1] == ' '
    ensures ClassifyLine(t) == D.Numbered(t[n + 2..])
  {
    NumberedLineFacts(t, n);
    IndexOfAt(t, ' ', n + 1);
  }

  lemma NumberedLineFacts(t: string, n: nat)
    requires n == LeadingDigits(t) && n >= 1 && n + 1 < |t| && t[n] == '.' && t[n + 1] == ' '
    ensures !MatchesHeading(t) && !MatchesBullet(t) && MatchesNumbered(t)
    ensures forall j :: 0 <= j < n + 1 ==> t[j] != ' '
  {
    assert IsAsciiDigit(t[0]);
  }

  /** The two dialects agree wherever the exact-prefix one finds a marker,
      and a line the analyzer leaves as a paragraph is a paragraph in both. */
  lemma DialectsAgree(t: string)
    ensures !D.ClassifyLine(t).Paragraph? ==> ClassifyLine(t) == D.ClassifyLine(t)
    ensures ClassifyLine(t).Paragraph? ==> D.ClassifyLine(t) == ClassifyLine(t)
  {
    if StartsWith(t, D.HeadingMarker) {
      HeadingFollowedBySpace(t);
    } else if StartsWith(t, D.BulletMarker) {
      assert t[..2][0] == '-' && t[..2][1] == ' ';
      BulletFollowedBySpace(t);
    }
  }

  // ---------------------------------------------------------------------------
  // `renderFormattedText`

  /** The lines that are rendered: un-escape, split on newlines, drop blank lines. */
  function AnalyzerLines(text: string): seq<string>
  {
    D.KeepNonBlank(Split(UnescapeNewlines(text), '\n'))
  }

  /** `lines.map(line => classify(line.trim()))` in the analyzer's dialect. */
  function RenderAnalyzerLines(lines: seq<string>): (blocks: seq<Block>)
  {
    seq(|lines|, i requires 0 <= i < |lines| => ClassifyLine(Trim(lines[i])))
  }

  /** `renderFormattedText`: one block per non-blank line of the un-escaped
      text, in order, each classified after trimming. */
  function RenderFormattedText(text: string): (blocks: seq<Block>)
    ensures var lines := AnalyzerLines(text);
      |blocks| == |lines| && forall i :: 0 <= i < |lines| ==> blocks[i] == ClassifyLine(Trim(lines[i]))
  {
    RenderAnalyzerLines(AnalyzerLines(text))
  }

  lemma NoEscapedNewlineSlice(s: string, i: nat, j: nat)
    requires NoEscapedNewline(s) && i <= j <= |s|
    ensures NoEscapedNewline(s[i..j])
  {
    assert forall k :: 0 <= k < j - i ==> s[i..j][k] == s[i + k];
  }

  lemma {:induction false} SplitKeepsNoEscapedNewline(s: string, sep: char)
    requires NoEscapedNewline(s)
    ensures forall i :: 0 <= i < |Split(s, sep)| ==> NoEscapedNewline(Split(s, sep)[i])
    decreases |s|
  {
    var k := IndexOf(s, sep);
    if k != -1 {
      NoEscapedNewlineSlice(s, 0, k);
      NoEscapedNewlineSlice(s, k + 1, |s|);
      SplitKeepsNoEscapedNewline(s[k + 1..], sep);
    }
  }

  lemma TrimKeepsNoEscapedNewline(line: string)
    requires NoEscapedNewline(line) && '\n' !in line
    ensures NoEscapedNewline(Trim(line)) && '\n' !in Trim(line)
  {
    var t := Trim(line);
    var lead := LeadingWhitespace(line);
    NoEscapedNewlineSlice(line, lead, lead + |t|);
    assert forall j :: 0 <= j < |t| ==> t[j] == line[lead + j];
  }

  /** A line's classified text is a slice of the trimmed line. */
  lemma ClassifiedTextKeepsNoEscapedNewline(t: string)
    requires NoEscapedNewline(t) && '\n' !in t
    ensures NoEscapedNewline(ClassifyLine(t).text) && '\n' !in ClassifyLine(t).text
  {
    var x := ClassifyLine(t).text;
    if x != t {
      NoEscapedNewlineSuffix(t, |t| - |x|);
      assert x == t[|t| - |x|..];
      assert forall j :: 0 <= j < |x| ==> x[j] == t[|t| - |x| + j];
    }
  }

  /** Every literal backslash-`n` of the model's reply became a line break:
      no rendered text contains one, nor a newline. */
  lemma RenderedTextHasNoEscapes(text: string)
    ensures forall i :: 0 <= i < |RenderFormattedText(text)| ==>
      NoEscapedNewline(RenderFormattedText(text)[i].text) && '\n' !in RenderFormattedText(text)[i].text
  {
    var u := UnescapeNewlines(text);
    var parts := Split(u, '\n');
    SplitKeepsNoEscapedNewline(u, '\n');
    var lines := AnalyzerLines(text);
    var blocks := RenderFormattedText(text);
    forall i | 0 <= i < |lines|
      ensures NoEscapedNewline(blocks[i].text) && '\n' !in blocks[i].text
    {
      assert lines[i] in parts;
      TrimKeepsNoEscapedNewline(lines[i]);
      ClassifiedTextKeepsNoEscapedNewline(Trim(lines[i]));
    }
  }

  /** Un-escaping changes nothing in a text without a backslash-`n` pair. */
  lemma {:induction false} UnescapeUnescaped(s: string)
    requires NoEscapedNewline(s)
    ensures UnescapeNewlines(s) == s
    decreases |s|
  {
    if s != [] {
      NoEscapedNewlineSuffix(s, 1);
      UnescapeUnescaped(s[1..]);
      assert s == [s[0]] + s[1..];
    }
  }

  /** Two texts without the escape stay without it when put side by side,
      unless the first ends with a backslash and the second starts with `n`. */
  lemma NoEscapedNewlineConcat(a: string, c: string)
    requires NoEscapedNewline(a) && NoEscapedNewline(c)
    requires a != [] && c != [] ==> !(a[|a| - 1] == '\\' && c[0] == 'n')
    ensures NoEscapedNewline(a + c)
  {
    var s := a + c;
    forall i | 0 <= i < |s| - 1 ensures !(s[i] == '\\' && s[i + 1] == 'n') {
      if i + 1 < |a| {
        assert s[i] == a[i] && s[i + 1] == a[i + 1];
      } else if i >= |a| {
        assert s[i] == c[i - |a|] && s[i + 1] == c[i + 1 - |a|];
      }
    }
  }

  /** Lines without the escape, joined by newlines, give a text without it. */
  lemma {:induction false} JoinKeepsNoEscapedNewline(lines: seq<string>)
    requires forall i :: 0 <= i < |lines| ==> NoEscapedNewline(lines[i])
    ensures NoEscapedNewline(Join(lines, '\n'))
    decreases |lines|
  {
    if |lines| >= 2 {
      JoinKeepsNoEscapedNewline(lines[1..]);
      JoinCons(lines[0], lines[1..], '\n');
      NoEscapedNewlineConcat("\n", Join(lines[1..], '\n'));
      NoEscapedNewlineConcat(lines[0], "\n" + Join(lines[1..], '\n'));
      assert lines[0] + "\n" + Join(lines[1..], '\n') == lines[0] + ("\n" + Join(lines[1..], '\n'));
    }
  }

  /** A block the analyzer renders back from its markdown line: a non-empty,
      one-line text without the escape that does not end in whitespace; a
      paragraph also starts with no whitespace and matches none of the three
      patterns. */
  predicate AnalyzerCanonical(b: Block) {
    && b.text != "" && '\n' !in b.text && NoEscapedNewline(b.text)
    && !IsWhitespace(b.text[|b.text| - 1])
    && (b.Paragraph? ==>
          !IsWhitespace(b.text[0]) && !MatchesHeading(b.text) && !MatchesBullet(b.text) && !MatchesNumbered(b.text))
  }

  /** The markdown line for a block in the analyzer's dialect; a numbered
      item is written as item `1.`, since a block does not keep its number. */
  function AnalyzerMarkup(b: Block): string
  {
    match b
    case Heading(x) => "## " + x
    case Bullet(x) => "- " + x
    case Numbered(x) => "1. " + x
    case Paragraph(x) => x
  }

  /** The markdown lines of a sequence of blocks. */
  function AnalyzerMarkupLines(blocks: seq<Block>): (lines: seq<string>)
    ensures |lines| == |blocks|
  {
    seq(|blocks|, i requires 0 <= i < |blocks| => AnalyzerMarkup(blocks[i]))
  }

  /** The text a sequence of blocks stands for, one markdown line each. */
  function AnalyzerDocument(blocks: seq<Block>): string
  {
    Join(AnalyzerMarkupLines(blocks), '\n')
  }

  /** A marker without backslashes and ending in a space, followed by a
      canonical text, is one trimmed line without the escape. */
  lemma MarkedLineShape(marker: string, x: string)
    requires marker != [] && '\\' !in marker && '\n' !in marker && !IsWhitespace(marker[0])
    requires x != "" && '\n' !in x && NoEscapedNewline(x) && !IsWhitespace(x[|x| - 1])
    ensures var line := marker + x;
      line != [] && '\n' !in line && NoEscapedNewline(line) && Trim(line) == line
  {
    var line := marker + x;
    assert forall i :: 0 <= i < |marker| - 1 ==> marker[i] != '\\';
    NoEscapedNewlineConcat(marker, x);
    assert line[0] == marker[0] && line[|line| - 1] == x[|x| - 1];
    TrimOfTrimmed(line);
  }

  /** The markdown line of a canonical block is one trimmed line without the
      escape. */
  lemma AnalyzerMarkupShape(b: Block)
    requires AnalyzerCanonical(b)
    ensures var line := AnalyzerMarkup(b);
      line != [] && '\n' !in line && NoEscapedNewline(line) && Trim(line) == line
  {
    match b
    case Heading(x) => MarkedLineShape("## ", x);
    case Bullet(x) => MarkedLineShape("- ", x);
    case Numbered(x) => MarkedLineShape("1. ", x);
    case Paragraph(x) => TrimOfTrimmed(x);
  }

  lemma NumberedMarkupClassifies(x: string)
    ensures ClassifyLine("1. " + x) == D.Numbered(x)
  {
    var line := "1. " + x;
    assert line[1..][0] == '.';
    assert LeadingDigits(line) == 1;
    NumberFollowedBySpace(line, 1);
    assert line[3..] == x;
  }

  /** The markdown line of a canonical block classifies back to the block. */
  lemma AnalyzerMarkupClassifies(b: Block)
    requires AnalyzerCanonical(b)
    ensures ClassifyLine(AnalyzerMarkup(b)) == b
  {
    match b
    case Heading(x) =>
      assert ("## " + x)[..3] == "## " && ("## " + x)[3..] == x;
      HeadingFollowedBySpace("## " + x);
    case Bullet(x) =>
      assert ("- " + x)[2..] == x;
      BulletFollowedBySpace("- " + x);
    case Numbered(x) => NumberedMarkupClassifies(x);
    case Paragraph(x) =>
  }

  /** The markdown lines of canonical blocks render back to the blocks. */
  lemma RenderMarkupLines(blocks: seq<Block>)
    requires forall i :: 0 <= i < |blocks| ==> AnalyzerCanonical(blocks[i])
    ensures RenderAnalyzerLines(AnalyzerMarkupLines(blocks)) == blocks
  {
    var lines := AnalyzerMarkupLines(blocks);
    forall i | 0 <= i < |lines| ensures ClassifyLine(Trim(lines[i])) == blocks[i] {
      AnalyzerMarkupShape(blocks[i]);
      AnalyzerMarkupClassifies(blocks[i]);
    }
  }

  /** The document of canonical blocks has no escape, and its kept lines are
      the markdown lines. */
  lemma DocumentLines(blocks: seq<Block>)
    requires forall i :: 0 <= i < |blocks| ==> AnalyzerCanonical(blocks[i])
    ensures NoEscapedNewline(AnalyzerDocument(blocks))
    ensures D.KeptLines(AnalyzerDocument(blocks)) == AnalyzerMarkupLines(blocks)
  {
    var lines := AnalyzerMarkupLines(blocks);
    var doc := AnalyzerDocument(blocks);
    forall i | 0 <= i < |lines|
      ensures lines[i] != [] && '\n' !in lines[i] && NoEscapedNewline(lines[i]) && Trim(lines[i]) == lines[i]
    {
      AnalyzerMarkupShape(blocks[i]);
    }
    JoinKeepsNoEscapedNewline(lines);
    if blocks == [] {
      assert Split(doc, '\n') == [""];
    } else {
      SplitJoin(lines, '\n');
      forall i | 0 <= i < |lines| ensures !IsBlank(lines[i]) {
        assert !IsWhitespace(lines[i][0]);
      }
      D.KeepAllNonBlank(lines);
    }
  }

  /** Rendering the markdown of analyzer-canonical blocks gives those blocks
      back, whether the lines are joined by newlines or by the escaped
      backslash-`n` the model often returns. */
  lemma AnalyzerDocumentRoundTrip(blocks: seq<Block>)
    requires forall i :: 0 <= i < |blocks| ==> AnalyzerCanonical(blocks[i])
    ensures RenderFormattedText(AnalyzerDocument(blocks)) == blocks
    ensures RenderFormattedText(EscapeNewlines(AnalyzerDocument(blocks))) == blocks
  {
    var doc := AnalyzerDocument(blocks);
    DocumentLines(blocks);
    UnescapeUnescaped(doc);
    UnescapeEscape(doc);
    RenderMarkupLines(blocks);
  }

  /** A line whose analyzer reading is the display's: either the display
      finds a marker, or the analyzer sees a paragraph. */
  predicate DisplayMarkedLine(line: string) {
    !D.ClassifyLine(Trim(line)).Paragraph? || ClassifyLine(Trim(line)).Paragraph?
  }

  /** Every kept line of the text is read alike by both dialects. */
  predicate UsesDisplayMarkers(text: string) {
    var lines := D.KeptLines(text);
    forall i :: 0 <= i < |lines| ==> DisplayMarkedLine(lines[i])
  }

  lemma AnalyzerLinesOfUnescaped(text: string)
    requires NoEscapedNewline(text)
    ensures AnalyzerLines(text) == D.KeptLines(text)
  {
    UnescapeUnescaped(text);
  }

  /** Lines both dialects read alike render alike. */
  lemma RenderLinesAgree(lines: seq<string>)
    requires forall i :: 0 <= i < |lines| ==> DisplayMarkedLine(lines[i])
    ensures RenderAnalyzerLines(lines) == D.RenderLines(lines)
  {
    forall i | 0 <= i < |lines| ensures ClassifyLine(Trim(lines[i])) == D.ClassifyLine(Trim(lines[i])) {
      DialectsAgree(Trim(lines[i]));
    }
  }

  /** On a text without the two-character escape whose lines use only the
      display's markers, the analyzer renders exactly what the display card
      renders. */
  lemma AgreesWithDisplay(text: string)
    requires NoEscapedNewline(text) && UsesDisplayMarkers(text)
    ensures D.RenderFormattedDescription(Some(text)) == if text == "" then None else Some(RenderFormattedText(text))
  {
    AnalyzerLinesOfUnescaped(text);
    RenderLinesAgree(D.KeptLines(text));
  }

  // ---------------------------------------------------------------------------
  // The form and the panel's state

  const MinimumLength: nat := 50
  const TooShortMessage: string := "Job description must be at least 50 characters."

  /** `formSchema`: the description must have at least 50 characters. */
  function FormErrors(jobDescription: string): (errors: seq<FieldError>)
    ensures errors == [] <==> |jobDescription| >= MinimumLength
    ensures errors != [] ==> errors == [FieldError("jobDescription", TooShortMessage)]
  {
    if |jobDescription| < MinimumLength then [FieldError("jobDescription", TooShortMessage)] else []
  }

  datatype AnalysisRequest = AnalysisRequest(jobDescription: string)
  datatype AnalysisResult = AnalysisResult(structuredContent: string, recommendations: string)

  /** The results card: spinner while loading, placeholder without an
      analysis, otherwise both rendered texts. */
  function AnalysisPanels(isLoading: bool, analysis: Option<AnalysisResult>): (r: set<Panel>)
    ensures |r| == 1
    ensures Content in r <==> !isLoading && analysis.Some?
  {
    ShownPanels(isLoading, analysis.Some?)
  }

  class AnalyzerState {
    var analysis: Option<AnalysisResult>
    var isLoading: bool

    constructor ()
      ensures analysis == None && !isLoading
    {
      analysis := None;
      isLoading := false;
    }

    /** `onSubmit` up to the `await`: loading on, previous analysis cleared,
        the form data sent as it is. */
    method BeginAnalysis(jobDescription: string) returns (request: AnalysisRequest)
      modifies this
      ensures isLoading && analysis == None
      ensures request == AnalysisRequest(jobDescription)
    {
      isLoading := true;
      analysis := None;
      request := AnalysisRequest(jobDescription);
    }

    /** `onSubmit` after the `await`: the result is stored on success; on
        failure the analysis is left as it was; loading ends either way. */
    method CompleteAnalysis(outcome: Outcome<AnalysisResult>)
      modifies this
      ensures !isLoading
      ensures analysis == if outcome.Resolved? then Some(outcome.value) else old(analysis)
    {
      if outcome.Resolved? {
        analysis := Some(outcome.value);
      }
      isLoading := false;
    }

    /** `form.handleSubmit(onSubmit)`: a too-short description changes
        nothing; otherwise the analysis ends as the call's result, or empty. */
    method Submit(jobDescription: string, outcome: Outcome<AnalysisResult>) returns (request: Option<AnalysisRequest>)
      modifies this
      ensures request.Some? <==> FormErrors(jobDescription) == []
      ensures request.None? ==> analysis == old(analysis) && isLoading == old(isLoading)
      ensures request.Some? ==>
        && request.value == AnalysisRequest(jobDescription)
        && !isLoading
        && analysis == (if outcome.Resolved? then Some(outcome.value) else None)
    {
      if FormErrors(jobDescription) != [] {
        return None;
      }
      var sent := BeginAnalysis(jobDescription);
      CompleteAnalysis(outcome);
      request := Some(sent);
    }
  }
}
