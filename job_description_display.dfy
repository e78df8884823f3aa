/** The generated-description card (src/components/job-description-display.tsx):
    the exact-prefix line classifier that turns a generated description into
    headings, bullets and paragraphs, and the card's choice of panel. */
module JobDescriptionDisplay {
  import opened Common
  import opened JsText

  /** One rendered element: `<h2>`, a bulleted `<li>`, a numbered `<li>` or
      `<p>`. The analyzer shares this type; this card's classifier never
      produces `Numbered`, so the functions here that take or give a block
      of this card say so in their contracts. */
  datatype Block = Heading(text: string) | Bullet(text: string) | Numbered(text: string) | Paragraph(text: string)

  const HeadingMarker: string := "## "
  const BulletMarker: string := "- "

  /** The markdown line a heading, bullet or paragraph stands for. */
  function Unparse(b: Block): (line: string)
    requires !b.Numbered?
  {
    match b
    case Heading(x) => HeadingMarker + x
    case Bullet(x) => BulletMarker + x
    case Paragraph(x) => x
  }

  /** Classifies one trimmed line by its exact prefix. Nothing is lost: the
      line is the block's markdown, and only `## ` and `- ` make a heading
      or a bullet (`##x` and `-x` stay paragraphs). */
  function ClassifyLine(line: string): (b: Block)
    ensures !b.Numbered? && Unparse(b) == line
    ensures b.Paragraph? <==> !StartsWith(line, HeadingMarker) && !StartsWith(line, BulletMarker)
  {
    if StartsWith(line, HeadingMarker) then
      assert line == HeadingMarker + line[3..];
      Heading(line[3..])
    else if StartsWith(line, BulletMarker) then
      assert line == BulletMarker + line[2..];
      Bullet(line[2..])
    else Paragraph(line)
  }

  /** The lines of a description that survive `.filter(line => line.trim() !== '')`. */
  function KeptLines(description: string): (lines: seq<string>)
    ensures forall i :: 0 <= i < |lines| ==> '\n' !in lines[i] && !IsBlank(lines[i])
  {
    var parts := Split(description, '\n');
    var lines := KeepNonBlank(parts);
    assert forall i :: 0 <= i < |lines| ==> lines[i] in parts;
    lines
  }

  /** `lines.filter(line => line.trim() !== '')`. */
  function KeepNonBlank(lines: seq<string>): (r: seq<string>)
    ensures |r| <= |lines|
    ensures forall x :: x in r <==> x in lines && !IsBlank(x)
  {
    if lines == [] then []
    else if IsBlank(lines[0]) then KeepNonBlank(lines[1..])
    else [lines[0]] + KeepNonBlank(lines[1..])
  }

  /** Filtering keeps the order: it distributes over concatenation. */
  lemma {:induction false} KeepNonBlankAppend(a: seq<string>, b: seq<string>)
    ensures KeepNonBlank(a + b) == KeepNonBlank(a) + KeepNonBlank(b)
    decreases |a|
  {
    if a != [] {
      assert (a + b)[1..] == a[1..] + b;
      KeepNonBlankAppend(a[1..], b);
    } else {
      assert a + b == b;
    }
  }

  /** `lines.map(line => classify(line.trim()))`. */
  function RenderLines(lines: seq<string>): (blocks: seq<Block>)
  {
    seq(|lines|, i requires 0 <= i < |lines| => ClassifyLine(Trim(lines[i])))
  }

  /** `renderFormattedDescription`: nothing for a `null` or empty description;
      otherwise one block per non-blank line, in order, whose markdown is
      that line trimmed. */
  function RenderFormattedDescription(jobDescription: Option<string>): (r: Option<seq<Block>>)
    ensures r.None? <==> !Truthy(jobDescription)
    ensures r.Some? ==>
      var lines := KeptLines(jobDescription.value);
      |r.value| == |lines| &&
      forall i :: 0 <= i < |lines| ==> !r.value[i].Numbered? && Unparse(r.value[i]) == Trim(lines[i])
  {
    if !Truthy(jobDescription) then None
    else Some(RenderLines(KeptLines(jobDescription.value)))
  }

  /** A block the classifier can produce: its markdown is one trimmed,
      non-empty line without a newline, and a paragraph does not begin
      with either marker. */
  predicate Canonical(b: Block) {
    && !b.Numbered?
    && b.text != "" && '\n' !in b.text && !IsWhitespace(b.text[|b.text| - 1])
    && (b.Paragraph? ==>
          !IsWhitespace(b.text[0]) && !StartsWith(b.text, HeadingMarker) && !StartsWith(b.text, BulletMarker))
  }

  /** The description text a sequence of blocks stands for: their markdown
      lines joined with newlines. */
  function Document(blocks: seq<Block>): string
    requires forall i :: 0 <= i < |blocks| ==> Canonical(blocks[i])
  {
    Join(MarkdownLines(blocks), '\n')
  }

  function MarkdownLines(blocks: seq<Block>): (lines: seq<string>)
    requires forall i :: 0 <= i < |blocks| ==> Canonical(blocks[i])
    ensures |lines| == |blocks|
  {
    assert forall i :: 0 <= i < |blocks| ==> !blocks[i].Numbered? by {
      forall i | 0 <= i < |blocks| ensures !blocks[i].Numbered? {
        assert Canonical(blocks[i]);
      }
    }
    seq(|blocks|, i requires 0 <= i < |blocks| => Unparse(blocks[i]))
  }

  /** A kept line, trimmed and classified, gives a canonical block. */
  lemma ClassifiedLineCanonical(line: string)
    requires '\n' !in line && !IsBlank(line)
    ensures Canonical(ClassifyLine(Trim(line)))
  {
    var t := Trim(line);
    var lead := LeadingWhitespace(line);
    assert t == line[lead..lead + |t|];
    assert '\n' !in t;
    var b := ClassifyLine(t);
    match b
    case Heading(x) =>
      assert t == HeadingMarker + x;
      assert t[2] == ' ';
      assert x == t[3..];
    case Bullet(x) =>
      assert t == BulletMarker + x;
      assert t[1] == ' ';
      assert x == t[2..];
    case Paragraph(x) =>
      assert x == t;
  }

  /** Every block rendered from a description is canonical. */
  lemma RenderedBlocksCanonical(jobDescription: Option<string>)
    ensures var r := RenderFormattedDescription(jobDescription);
      r.Some? ==> forall i :: 0 <= i < |r.value| ==> Canonical(r.value[i])
  {
    var r := RenderFormattedDescription(jobDescription);
    if r.Some? {
      var lines := KeptLines(jobDescription.value);
      forall i | 0 <= i < |r.value| ensures Canonical(r.value[i]) {
        ClassifiedLineCanonical(lines[i]);
      }
    }
  }

  /** The markdown line of a canonical block is one trimmed, non-empty line
      that classifies back to the block. */
  lemma CanonicalLine(b: Block)
    requires Canonical(b)
    ensures '\n' !in Unparse(b) && Unparse(b) != [] && Trim(Unparse(b)) == Unparse(b)
    ensures ClassifyLine(Unparse(b)) == b
  {
    var line := Unparse(b);
    match b
    case Heading(x) =>
      assert line == HeadingMarker + x;
      assert line[|line| - 1] == x[|x| - 1];
      TrimOfTrimmed(line);
    case Bullet(x) =>
      assert line == BulletMarker + x;
      assert line[|line| - 1] == x[|x| - 1];
      TrimOfTrimmed(line);
    case Paragraph(x) =>
      TrimOfTrimmed(line);
  }

  /** Rendering the document of canonical blocks gives those blocks back:
      the classifier loses nothing on the lines it is meant for. */
  lemma RenderDocumentRoundTrip(blocks: seq<Block>)
    requires blocks != []
    requires forall i :: 0 <= i < |blocks| ==> Canonical(blocks[i])
    ensures RenderFormattedDescription(Some(Document(blocks))) == Some(blocks)
  {
    var lines := MarkdownLines(blocks);
    forall i | 0 <= i < |lines|
      ensures '\n' !in lines[i] && lines[i] != [] && Trim(lines[i]) == lines[i]
      ensures ClassifyLine(lines[i]) == blocks[i]
    {
      CanonicalLine(blocks[i]);
    }
    SplitJoin(lines, '\n');
    var doc := Document(blocks);
    JoinCoversFirst(lines, '\n');
    assert Truthy(Some(doc));
    KeepAllNonBlank(lines);
    assert KeptLines(doc) == lines;
    assert RenderLines(lines) == blocks;
  }

  lemma JoinCoversFirst(parts: seq<string>, sep: char)
    requires |parts| >= 1
    ensures |Join(parts, sep)| >= |parts[0]|
  {
  }

  lemma {:induction false} KeepAllNonBlank(lines: seq<string>)
    requires forall i :: 0 <= i < |lines| ==> !IsBlank(lines[i])
    ensures KeepNonBlank(lines) == lines
    decreases |lines|
  {
    if lines != [] {
      KeepAllNonBlank(lines[1..]);
      assert lines == [lines[0]] + lines[1..];
    }
  }

  /** Which block of the card's scroll area shows: the skeleton while
      loading, the rendered description when there is one, else the
      placeholder. */
  function DescriptionPanels(isLoading: bool, jobDescription: Option<string>): (r: set<Panel>)
    ensures |r| == 1
    ensures Content in r <==> !isLoading && RenderFormattedDescription(jobDescription).Some?
    ensures Placeholder in r <==> !isLoading && RenderFormattedDescription(jobDescription).None?
  {
    ShownPanels(isLoading, Truthy(jobDescription))
  }

  /** The copy, download and regenerate buttons (`jobDescription && !isLoading`). */
  function ActionsVisible(isLoading: bool, jobDescription: Option<string>): (r: bool)
    ensures r <==> DescriptionPanels(isLoading, jobDescription) == {Content}
  {
    Truthy(jobDescription) && !isLoading
  }
}
