/** The duplicate-request warning: one entry per earlier request for the
    same date, each with a status label and colour. */
module DuplicateDialog {
  import opened Common
  import opened Requests

  /** A JSON field as the dialog sees it: missing, `null`, or a string. */
  datatype Nullable = Missing | Null | Text(s: string)

  /** How a table row arrives over JSON: SQL NULL becomes `null`. */
  function Serialised(o: Option<string>): (n: Nullable)
    ensures n != Missing
  {
    if o.Some? then Text(o.value) else Null
  }

  datatype Label = PendingLabel | ApprovedLabel | RejectedLabel

  /** `approved_by === null ? 'Pending' : approved_by ? 'Approved' : 'Rejected'` */
  function StatusLabel(approvedBy: Nullable): (l: Label)
    ensures l == PendingLabel <==> approvedBy == Null
    ensures l == ApprovedLabel <==> approvedBy.Text? && approvedBy.s != ""
    ensures l == RejectedLabel <==> approvedBy == Missing || approvedBy == Text("")
  {
    if approvedBy == Null then PendingLabel
    else if approvedBy.Text? && approvedBy.s != "" then ApprovedLabel
    else RejectedLabel
  }

  /** The colour class, by the same three-way test. */
  function StatusColour(approvedBy: Nullable): (c: string)
  {
    if approvedBy == Null then "text-yellow-700 font-semibold"
    else if approvedBy.Text? && approvedBy.s != "" then "text-green-700 font-semibold"
    else "text-red-700 font-semibold"
  }

  /** Each label has its own colour, so colour and label always agree. */
  lemma ColourFollowsLabel(a: Nullable, b: Nullable)
    ensures StatusColour(a) == StatusColour(b) <==> StatusLabel(a) == StatusLabel(b)
    ensures StatusLabel(a) == PendingLabel <==> StatusColour(a) == "text-yellow-700 font-semibold"
  {
  }

  /** On a row from the table the label reads Pending exactly for the rows
      the database calls pending. A row rejected through `rejectRequest`,
      which records the rejecter in `approved_by`, reads Approved. */
  lemma LabelOfRows(r: Request, rejecter: string, reason: string)
    ensures StatusLabel(Serialised(r.approvedBy)) == PendingLabel <==> SqlPending(r)
    ensures rejecter != "" ==>
              StatusLabel(Serialised(r.(approvedBy := Some(rejecter), rejectReason := Some(reason)).approvedBy)) == ApprovedLabel
  {
  }

  /** The list renders only for a present, non-empty list of duplicates. */
  predicate ShowsList(duplicates: Option<seq<Request>>)
  {
    duplicates.Some? && |duplicates.value| > 0
  }

  /** `onOpenChange(isOpen)`: `onClose` fires only when the dialog closes. */
  function OnOpenChange(isOpen: bool): (closes: bool)
    ensures closes <==> !isOpen
  {
    !isOpen
  }
}
