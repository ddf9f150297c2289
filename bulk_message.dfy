/** The spreadsheet upload of the bulk form (`BulkMessage.handleFile`): which rows
    are kept, and when the loaded data replaces the previous one. */
module BulkMessage {
  import opened Common
  import opened Delivery

  /** The alerts the upload raises. */
  datatype Alert = NoValidData | FailedToRead

  /** The state of the form: the rows ready to send and the name of the chosen file. */
  datatype BulkForm = BulkForm(data: seq<BulkRow>, fileName: string)

  /** What the file input delivers: no file, or a file with its name and the rows the
      spreadsheet reader produced (`None` when reading or parsing threw). */
  datatype FilePick = NoFile | Picked(name: string, rows: Option<seq<BulkRow>>)

  /** `r => r.phone_number && r.message`: both cells are truthy, that is non-empty. */
  predicate IsValidRow(r: BulkRow) {
    r.phone_number != [] && r.message != []
  }

  function ValidRows(rows: seq<BulkRow>): seq<BulkRow> {
    Filter(rows, IsValidRow)
  }

  /** The valid rows are exactly the rows with both cells filled, kept in input order and with
      their multiplicity; every dropped row lacks a phone number or a message. */
  lemma ValidRowsSpec(rows: seq<BulkRow>, r: BulkRow)
    ensures forall k :: 0 <= k < |ValidRows(rows)| ==> IsValidRow(ValidRows(rows)[k])
    ensures IsSubsequence(ValidRows(rows), rows)
    ensures r in ValidRows(rows) <==> r in rows && IsValidRow(r)
    ensures r in rows && r !in ValidRows(rows) ==> r.phone_number == [] || r.message == []
    ensures IsValidRow(r) ==> multiset(ValidRows(rows))[r] == multiset(rows)[r]
  {
    FilterIsSubsequence(rows, IsValidRow);
    FilterMembership(rows, IsValidRow, r);
    FilterMultiset(rows, IsValidRow, r);
  }

  /** There is no valid row exactly when every row lacks a cell. */
  lemma NoValidRowsIff(rows: seq<BulkRow>)
    ensures ValidRows(rows) == [] <==> forall k :: 0 <= k < |rows| ==> !IsValidRow(rows[k])
  {
    FilterEmptyIff(rows, IsValidRow);
  }

  /** `handleFile`: the file name is recorded as soon as a file is chosen; the rows replace the
      data only when reading succeeded and at least one row is valid. */
  function HandleFile(f: BulkForm, pick: FilePick): (BulkForm, Option<Alert>) {
    match pick
    case NoFile => (f, None)
    case Picked(name, rows) =>
      var named := f.(fileName := name);
      if rows.None? then (named, Some(FailedToRead))
      else if ValidRows(rows.value) == [] then (named, Some(NoValidData))
      else (named.(data := ValidRows(rows.value)), None)
  }

  /** No file changes nothing. A chosen file always sets the file name. A read failure, or a
      sheet without a valid row, leaves the data as it was and raises its alert; otherwise the
      data becomes the valid rows, with no alert. */
  lemma HandleFileSpec(f: BulkForm, pick: FilePick)
    ensures var (g, alert) := HandleFile(f, pick);
      && (pick.NoFile? ==> g == f && alert.None?)
      && (pick.Picked? ==> g.fileName == pick.name)
      && (pick.Picked? && pick.rows.None? ==> g.data == f.data && alert == Some(FailedToRead))
      && (pick.Picked? && pick.rows.Some? ==>
            if forall k :: 0 <= k < |pick.rows.value| ==> !IsValidRow(pick.rows.value[k])
            then g.data == f.data && alert == Some(NoValidData)
            else g.data == ValidRows(pick.rows.value) && g.data != [] && alert.None?)
  {
    if pick.Picked? && pick.rows.Some? {
      NoValidRowsIff(pick.rows.value);
    }
  }
}
