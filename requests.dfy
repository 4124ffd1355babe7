/** An overtime/undertime request row and its three resolution states.
    The database layer tests the nullable columns with SQL `IS NULL`; the
    backend statistics and every frontend page test them with JavaScript
    truthiness. Both readings are kept, and `SqlAgreesWithJs` says when
    they coincide. */
module Requests {
  import opened Common

  /** One row of `overtime_requests`. Dates and timestamps are day or
      instant numbers; `createdAt` is the table's insertion stamp. */
  datatype Request = Request(
    id: nat,
    employeeId: string,
    employeeName: Option<string>,
    payrollDate: int,
    hours: int,
    minutes: Option<int>,
    reason: string,
    projectsAffected: string,
    approvedBy: Option<string>,
    approvedAt: Option<int>,
    rejectReason: Option<string>,
    createdAt: int)

  /** `approved_by IS NULL` */
  predicate SqlPending(r: Request) { r.approvedBy.None? }

  /** `approved_by IS NOT NULL AND reject_reason IS NULL` */
  predicate SqlApproved(r: Request) { r.approvedBy.Some? && r.rejectReason.None? }

  /** `reject_reason IS NOT NULL` */
  predicate SqlRejected(r: Request) { r.rejectReason.Some? }

  /** `!approved_by` */
  predicate JsPending(r: Request) { !Truthy(r.approvedBy) }

  /** `approved_by && !reject_reason` */
  predicate JsApproved(r: Request) { Truthy(r.approvedBy) && !Truthy(r.rejectReason) }

  /** `reject_reason` (truthy) */
  predicate JsRejected(r: Request) { Truthy(r.rejectReason) }

  /** Approval and rejection both record who acted, so a rejected row
      always names the rejecter in `approved_by`. */
  predicate Resolved(r: Request)
  {
    r.rejectReason.Some? ==> r.approvedBy.Some?
  }

  /** No nullable text column holds the empty string. */
  predicate NoEmptyText(r: Request)
  {
    r.approvedBy != Some("") && r.rejectReason != Some("")
  }

  /** The three states as shown by the status badges. */
  datatype Status = Pending | Approved | Rejected

  /** `getStatusBadge`: a truthy rejection reason wins, then a truthy approver, else pending. */
  function Badge(r: Request): (s: Status)
    ensures Truthy(r.rejectReason) ==> s == Rejected
    ensures s == Approved <==> !Truthy(r.rejectReason) && Truthy(r.approvedBy)
    ensures s == Pending <==> !Truthy(r.rejectReason) && !Truthy(r.approvedBy)
  {
    if Truthy(r.rejectReason) then Rejected
    else if Truthy(r.approvedBy) then Approved
    else Pending
  }

  /** The badge shows exactly the state the JavaScript filters select, so
      every request is in exactly one of the pending and approved filters
      or is rejected. */
  lemma BadgeMatchesFilters(r: Request)
    ensures Badge(r) == Rejected <==> JsRejected(r)
    ensures Badge(r) == Approved <==> JsApproved(r)
    ensures Badge(r) == Pending <==> (JsPending(r) && !JsRejected(r))
  {
  }

  /** With `Resolved` and no empty strings, the SQL filters and the JavaScript
      filters select the same rows, and the three SQL states partition the rows. */
  lemma SqlAgreesWithJs(r: Request)
    requires Resolved(r) && NoEmptyText(r)
    ensures SqlPending(r) <==> JsPending(r)
    ensures SqlApproved(r) <==> JsApproved(r)
    ensures SqlRejected(r) <==> JsRejected(r)
    ensures SqlPending(r) || SqlApproved(r) || SqlRejected(r)
    ensures !(SqlPending(r) && SqlApproved(r)) && !(SqlPending(r) && SqlRejected(r)) && !(SqlApproved(r) && SqlRejected(r))
  {
  }

  /** An empty-string approver is pending to the frontend but not to SQL. */
  lemma EmptyApproverDisagrees(r: Request)
    requires r.approvedBy == Some("") && r.rejectReason.None?
    ensures JsPending(r) && !SqlPending(r) && SqlApproved(r) && !JsApproved(r)
  {
  }
}
