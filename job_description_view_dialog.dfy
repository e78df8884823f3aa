/** The history's view dialog (src/components/job-description-view-dialog.tsx):
    its own copy of the exact-prefix classifier and its open condition. */
module JobDescriptionViewDialog {
  import opened Common
  import opened JsText
  import JobDescriptionDisplay

  type Block = JobDescriptionDisplay.Block

  /** The dialog's `renderFormattedDescription`, written out again as the
      source does: split on newlines, drop blank lines, trim, classify by the
      `## ` and `- ` prefixes. */
  function RenderFormattedDescription(jobDescription: Option<string>): (r: Option<seq<Block>>)
    ensures r.None? <==> !Truthy(jobDescription)
  {
    if !Truthy(jobDescription) then None
    else
      var lines := JobDescriptionDisplay.KeepNonBlank(Split(jobDescription.value, '\n'));
      Some(seq(|lines|, i requires 0 <= i < |lines| => ClassifyLine(Trim(lines[i]))))
  }

  /** The `map` callback of the dialog's classifier. */
  function ClassifyLine(line: string): Block
  {
    if StartsWith(line, "## ") then JobDescriptionDisplay.Heading(line[3..])
    else if StartsWith(line, "- ") then JobDescriptionDisplay.Bullet(line[2..])
    else JobDescriptionDisplay.Paragraph(line)
  }

  /** The copy renders every description exactly as the generation card does. */
  lemma SameAsDisplay(jobDescription: Option<string>)
    ensures RenderFormattedDescription(jobDescription)
         == JobDescriptionDisplay.RenderFormattedDescription(jobDescription)
  {
    if Truthy(jobDescription) {
      var lines := JobDescriptionDisplay.KeptLines(jobDescription.value);
      var mine := RenderFormattedDescription(jobDescription).value;
      var theirs := JobDescriptionDisplay.RenderFormattedDescription(jobDescription).value;
      assert |mine| == |theirs| == |lines|;
      forall i | 0 <= i < |lines| ensures mine[i] == theirs[i] {
        assert mine[i] == ClassifyLine(Trim(lines[i]));
        assert theirs[i] == JobDescriptionDisplay.ClassifyLine(Trim(lines[i]));
        SameLineClassifier(Trim(lines[i]));
      }
      assert mine == theirs;
    }
  }

  lemma SameLineClassifier(line: string)
    ensures ClassifyLine(line) == JobDescriptionDisplay.ClassifyLine(line)
  {
  }

  /** `open={!!jobDescription}`: the dialog is open exactly when there is
      something to render. */
  function IsOpen(jobDescription: Option<string>): (open: bool)
    ensures open <==> jobDescription.Some? && jobDescription.value != ""
    ensures open <==> RenderFormattedDescription(jobDescription).Some?
  {
    Truthy(jobDescription)
  }
}
