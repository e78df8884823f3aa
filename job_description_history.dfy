/** The history table (src/components/job-description-history.tsx): one row
    per saved description, or a single placeholder row, and the description
    selected for the view dialog. */
module JobDescriptionHistory {
  import opened Common
  import JobDescriptionViewDialog

  /** `JobHistoryItem`. */
  datatype HistoryItem = HistoryItem(id: string, title: string, description: string, createdAt: string)

  /** A table row: the "No history found" placeholder, or an item's row keyed by
      its id, carrying what its cells show and what its eye button opens. */
  datatype Row = EmptyRow | ItemRow(key: string, title: string, createdAt: string, description: string)

  function RowOf(item: HistoryItem): Row
  {
    ItemRow(item.id, item.title, item.createdAt, item.description)
  }

  /** The table body: a placeholder exactly when the history is empty,
      otherwise one row per item in the history's order. */
  function Rows(history: seq<HistoryItem>): (rows: seq<Row>)
    ensures EmptyRow in rows <==> history == []
    ensures |rows| == if history == [] then 1 else |history|
  {
    if history == [] then [EmptyRow]
    else seq(|history|, i requires 0 <= i < |history| => RowOf(history[i]))
  }

  /** The items a table of item rows shows. */
  function ItemsShown(rows: seq<Row>): seq<HistoryItem>
  {
    if rows == [] then []
    else
      var rest := ItemsShown(rows[1..]);
      match rows[0]
      case EmptyRow => rest
      case ItemRow(key, title, createdAt, description) => [HistoryItem(key, title, description, createdAt)] + rest
  }

  /** The table shows the whole history, in order, and nothing else. */
  lemma {:induction false} RowsShowHistory(history: seq<HistoryItem>)
    ensures ItemsShown(Rows(history)) == history
  {
    if history != [] {
      RowsOfShowItems(history);
    }
  }

  lemma {:induction false} RowsOfShowItems(history: seq<HistoryItem>)
    ensures ItemsShown(seq(|history|, i requires 0 <= i < |history| => RowOf(history[i]))) == history
    decreases |history|
  {
    var rows := seq(|history|, i requires 0 <= i < |history| => RowOf(history[i]));
    if history != [] {
      var tail := history[1..];
      assert rows[1..] == seq(|tail|, i requires 0 <= i < |tail| => RowOf(tail[i]));
      RowsOfShowItems(tail);
      assert history == [history[0]] + tail;
    }
  }

  class HistoryView {
    var selectedDescription: Option<string>

    constructor ()
      ensures selectedDescription == None
    {
      selectedDescription := None;
    }

    /** Whether the view dialog is open (`open={!!jobDescription}`). */
    function DialogOpen(): (open: bool)
      reads this
      ensures open <==> selectedDescription.Some? && selectedDescription.value != ""
    {
      JobDescriptionViewDialog.IsOpen(selectedDescription)
    }

    /** The eye button of an item's row: selects its description; the dialog
        opens unless that description is empty. */
    method View(item: HistoryItem)
      modifies this
      ensures selectedDescription == Some(item.description)
      ensures DialogOpen() <==> item.description != ""
    {
      selectedDescription := Some(item.description);
    }

    /** The dialog's `onOpenChange`: closing clears the selection; an open
        request changes nothing. */
    method OnOpenChange(isOpen: bool)
      modifies this
      ensures !isOpen ==> selectedDescription == None && !DialogOpen()
      ensures isOpen ==> selectedDescription == old(selectedDescription)
    {
      if !isOpen {
        selectedDescription := None;
      }
    }
  }
}
