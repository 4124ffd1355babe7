/** `RequestController`: the request endpoints. Each handler reads the
    request table through the adapter, asks ERPNext for direct reports, and
    answers with a JSON body, a refusal (`res.status(..).json(..)`) or a
    forwarded `AppError` (`next(error)`). The ERPNext, n8n and e-mail lookups
    are inputs; the notifications a handler sends are returned as `Mail`
    values instead of being posted. */
module RequestController {
  import opened Common
  import opened Requests
  import opened Database
  import opened Http
  import RequestService
  import ErpNextService
  import N8nService
  import NotificationRouting
  import EmailTemplates
  import Validator

  type AppError = RequestService.AppError

  /** ERPNext's answer to the direct-report query for a (possibly undefined) employee id. */
  type ErpLookup = Option<string> -> ErpNextService.Response<seq<ErpNextService.EmployeeDoc>>

  /** A supervisor's company e-mail (`getEmployeeDetails(id).company_email`) or the error thrown. */
  type DetailsLookup = string -> Result<Option<string>, AppError>

  /** The company owner, whose direct reports HR may also approve. */
  const OwnerEmployeeId := "HR-EMP-00001"

  /** `directReports.map(emp => emp.employee_id)` for the given employee. */
  function ReportIds(erp: ErpLookup, id: Option<string>): seq<string>
  {
    ErpNextService.EmployeeIds(ErpNextService.GetDirectReports(erp(id)))
  }

  /** `request.frappe_employee_id === user.erpnext_employee_id` */
  predicate Own(user: SessionUser, r: Request)
  {
    user.erpnextEmployeeId == Some(r.employeeId)
  }

  /** `canUserApproveRequest`. */
  function CanUserApproveRequest(user: SessionUser, r: Request, directIds: seq<string>, ownerIds: seq<string>): (b: bool)
    ensures Own(user, r) ==> !b
    ensures Truthy(r.approvedBy) || Truthy(r.rejectReason) ==> !b
    ensures !Own(user, r) && !Truthy(r.approvedBy) && !Truthy(r.rejectReason) ==>
              (b <==> r.employeeId in directIds || (user.role == "HR" && r.employeeId in ownerIds))
  {
    if Own(user, r) then false
    else if Truthy(r.approvedBy) || Truthy(r.rejectReason) then false
    else if r.employeeId in directIds then true
    else user.role == "HR" && r.employeeId in ownerIds
  }

  /** Only HR reads the owner's list; the role Owner gets no bypass. */
  lemma OwnerListOnlyForHr(user: SessionUser, r: Request, directIds: seq<string>, ownerIds: seq<string>)
    requires user.role != "HR"
    ensures CanUserApproveRequest(user, r, directIds, ownerIds) == CanUserApproveRequest(user, r, directIds, [])
    ensures user.role == "Owner" && r.employeeId !in directIds ==> !CanUserApproveRequest(user, r, directIds, ownerIds)
  {
  }

  /** An approvable request is one every page shows as pending. */
  lemma ApprovableIsPending(user: SessionUser, r: Request, directIds: seq<string>, ownerIds: seq<string>)
    requires CanUserApproveRequest(user, r, directIds, ownerIds)
    ensures JsPending(r) && !JsRejected(r) && Badge(r) == Pending
    ensures r.employeeId in directIds || r.employeeId in ownerIds
  {
  }

  /** A request with its `can_approve` flag. */
  datatype Annotated = Annotated(request: Request, canApprove: bool)

  function Annotate(user: SessionUser, rs: seq<Request>, directIds: seq<string>, ownerIds: seq<string>): (out: seq<Annotated>)
    ensures |out| == |rs|
    ensures forall i :: 0 <= i < |rs| ==>
              out[i].request == rs[i] && out[i].canApprove == CanUserApproveRequest(user, rs[i], directIds, ownerIds)
  {
    seq(|rs|, i requires 0 <= i < |rs| => Annotated(rs[i], CanUserApproveRequest(user, rs[i], directIds, ownerIds)))
  }

  function RequestsOf(items: seq<Annotated>): (rs: seq<Request>)
    ensures |rs| == |items| && forall i :: 0 <= i < |items| ==> rs[i] == items[i].request
  {
    seq(|items|, i requires 0 <= i < |items| => items[i].request)
  }

  /** Owner, HR and Project Coordinator may view every request. */
  predicate ViewsAll(role: string)
  {
    role == "Owner" || role == "HR" || role == "Project Coordinator"
  }

  /** Owner and HR may approve or reject any request. */
  predicate DecidesAll(role: string)
  {
    role == "Owner" || role == "HR"
  }

  /** Own requests and those of direct reports. */
  predicate Visible(user: SessionUser, r: Request, directIds: seq<string>)
  {
    Own(user, r) || r.employeeId in directIds
  }

  /** The direct-report ids `getAllRequests` fetches: none without a truthy ERP id. */
  function ListingDirectIds(user: SessionUser, erp: ErpLookup): seq<string>
  {
    if Truthy(user.erpnextEmployeeId) then ReportIds(erp, user.erpnextEmployeeId) else []
  }

  /** The owner's direct-report ids, fetched for HR only. */
  function ListingOwnerIds(user: SessionUser, erp: ErpLookup): seq<string>
  {
    if Truthy(user.erpnextEmployeeId) && user.role == "HR" then ReportIds(erp, Some(OwnerEmployeeId)) else []
  }

  /** A handler's outcome, forwarding `AppError`s. */
  type Reply<T> = Handled<T, AppError>

  /** `{ success: true, count, data }` */
  datatype Listing = Listing(count: nat, data: seq<Annotated>)

  /** `getAllRequests`: staff see every fetched request; anyone else sees,
      in the same order, only their own and their direct reports'. Every
      item carries the approval flag. */
  method GetAllRequests(t: RequestTable, user: SessionUser, f: Filters, erp: ErpLookup) returns (reply: Listing)
    ensures var fetched := Reverse(Filter(t.rows, r => MatchesFilters(f, r)));
      RequestsOf(reply.data)
      == if ViewsAll(user.role) then fetched
         else Filter(fetched, r => Visible(user, r, ListingDirectIds(user, erp)))
    ensures forall i :: 0 <= i < |reply.data| ==>
              reply.data[i].canApprove
              == CanUserApproveRequest(user, reply.data[i].request, ListingDirectIds(user, erp), ListingOwnerIds(user, erp))
    ensures reply.count == |reply.data|
  {
    var requests := t.GetAllRequests(f);
    var directIds: seq<string> := [];
    var ownerIds: seq<string> := [];
    if Truthy(user.erpnextEmployeeId) {
      directIds := ReportIds(erp, user.erpnextEmployeeId);
      if user.role == "HR" {
        ownerIds := ReportIds(erp, Some(OwnerEmployeeId));
      }
    }
    if !ViewsAll(user.role) {
      FilterExt(requests, r => Visible(user, r, directIds), r => Visible(user, r, ListingDirectIds(user, erp)));
      requests := Filter(requests, r => Visible(user, r, directIds));
    }
    var items := Annotate(user, requests, directIds, ownerIds);
    assert RequestsOf(items) == requests;
    reply := Listing(|items|, items);
  }

  /** A non-staff caller never receives a request that is neither theirs nor a direct report's. */
  lemma ListingIsVisible(rows: seq<Request>, f: Filters, user: SessionUser, erp: ErpLookup, r: Request)
    requires !ViewsAll(user.role)
    requires r in Filter(Reverse(Filter(rows, r => MatchesFilters(f, r))), r => Visible(user, r, ListingDirectIds(user, erp)))
    ensures r in rows && MatchesFilters(f, r)
    ensures Own(user, r) || (Truthy(user.erpnextEmployeeId) && r.employeeId in ReportIds(erp, user.erpnextEmployeeId))
  {
    ReverseMembers(Filter(rows, r => MatchesFilters(f, r)));
  }

  /** The adapter's not-found error on each backend. */
  function Missing(b: Backend): DbError
  {
    if b == Postgres then RequestNotFound else NoSingleRow
  }

  const ViewDenied := "Access denied. You can only view your own requests or those from your direct reports."

  /** `getRequestById`: staff see any request; anyone else only their own or a direct report's. */
  method GetRequestById(t: RequestTable, user: SessionUser, id: nat, erp: ErpLookup) returns (out: Reply<Request>)
    ensures match IndexOfId(t.rows, id)
      case None => out == Forward(RequestService.ToAppError(RequestService.FetchOne, Missing(t.backend)))
      case Some(k) =>
        out == if ViewsAll(user.role) || Visible(user, t.rows[k], ReportIds(erp, user.erpnextEmployeeId))
               then Respond(t.rows[k]) else Refuse(403, ErrorField(ViewDenied))
  {
    var found := t.GetRequestById(id);
    var request := RequestService.Call(RequestService.FetchOne, found);
    if request.Err? {
      return Forward(request.error);
    }
    if !ViewsAll(user.role) {
      var directIds := ReportIds(erp, user.erpnextEmployeeId);
      var canView := request.value.employeeId in directIds || Own(user, request.value);
      if !canView {
        return Refuse(403, ErrorField(ViewDenied));
      }
    }
    out := Respond(request.value);
  }

  /** `{ success: true, count, data }` for plain rows. */
  datatype Rows = Rows(count: nat, data: seq<Request>)

  const EmployeeDenied := "Access denied. You can only view your own requests."

  /** `getRequestsByEmployee`: non-staff may list only their own ERP id. */
  method GetRequestsByEmployee(t: RequestTable, user: SessionUser, employeeId: string) returns (out: Reply<Rows>)
    ensures !ViewsAll(user.role) && user.erpnextEmployeeId != Some(employeeId) ==> out == Refuse(403, ErrorField(EmployeeDenied))
    ensures ViewsAll(user.role) || user.erpnextEmployeeId == Some(employeeId) ==>
              out.Respond? && out.body.count == |out.body.data|
              && out.body.data == Reverse(Filter(t.rows, (r: Request) => r.employeeId == employeeId))
              && forall r :: r in out.body.data <==> r in t.rows && r.employeeId == employeeId
  {
    var isAdmin := ViewsAll(user.role);
    if !isAdmin && user.erpnextEmployeeId != Some(employeeId) {
      return Refuse(403, ErrorField(EmployeeDenied));
    }
    var requests := t.GetRequestsByEmployee(employeeId);
    out := Respond(Rows(|requests|, requests));
  }

  /** `{ success: true, count, data, userRole }` */
  datatype PendingReply = PendingReply(count: nat, data: seq<Request>, userRole: string)

  /** `getPendingRequests`: Owner and HR see every pending request; a
      Project Coordinator or anyone with an ERP id only their direct
      reports'; anyone else nothing. */
  method GetPendingRequests(t: RequestTable, user: SessionUser, erp: ErpLookup) returns (reply: PendingReply)
    ensures reply.count == |reply.data| && reply.userRole == user.role
    ensures DecidesAll(user.role) ==> reply.data == Filter(t.rows, SqlPending)
    ensures !DecidesAll(user.role) && (user.role == "Project Coordinator" || Truthy(user.erpnextEmployeeId)) ==>
              reply.data == Filter(Filter(t.rows, SqlPending), (r: Request) => r.employeeId in ReportIds(erp, user.erpnextEmployeeId))
    ensures !DecidesAll(user.role) && user.role != "Project Coordinator" && !Truthy(user.erpnextEmployeeId) ==> reply.data == []
    ensures forall r :: r in reply.data ==> r in t.rows && SqlPending(r)
  {
    var requests := t.GetPendingRequests();
    if DecidesAll(user.role) {
    } else if user.role == "Project Coordinator" || Truthy(user.erpnextEmployeeId) {
      var directIds := ReportIds(erp, user.erpnextEmployeeId);
      FilterExt(requests, (r: Request) => r.employeeId in directIds,
                (r: Request) => r.employeeId in ReportIds(erp, user.erpnextEmployeeId));
      requests := Filter(requests, (r: Request) => r.employeeId in directIds);
    } else {
      requests := [];
    }
    reply := PendingReply(|requests|, requests, user.role);
  }

  /** `getStatistics`: the adapter's counts, passed through. */
  method GetStatistics(t: RequestTable, employeeId: Option<string>) returns (stats: Statistics)
    ensures !Truthy(employeeId) ==> stats == CountStatistics(t.rows) && stats.total == |t.rows|
    ensures Truthy(employeeId) ==> stats == CountStatistics(Filter(t.rows, (r: Request) => r.employeeId == employeeId.value))
    ensures (forall r :: r in t.rows ==> Resolved(r) && NoEmptyText(r)) ==>
              stats.pending + stats.approved + stats.rejected == stats.total
  {
    stats := t.GetStatistics(employeeId);
    var scope := if Truthy(employeeId) then Filter(t.rows, (r: Request) => r.employeeId == employeeId.value) else t.rows;
    if forall r :: r in t.rows ==> Resolved(r) && NoEmptyText(r) {
      StatisticsPartition(scope);
    }
  }

  /** The ERP id of a validated employee as text; a non-string id reads as empty. */
  function IdText(v: Option<Json>): (s: string)
    ensures TextField(v).Some? ==> s == TextField(v).value
    ensures TextField(v).None? ==> s == ""
  {
    if v.Some? && v.value.JStr? then v.value.s else ""
  }

  /** A JSON string field as an optional text; other JSON kinds read as absent. */
  function TextField(v: Option<Json>): (t: Option<string>)
    ensures t.Some? <==> v.Some? && v.value.JStr?
    ensures t.Some? ==> t.value == v.value.s
  {
    if v.Some? && v.value.JStr? then Some(v.value.s) else None
  }

  /** `name || fallback` for a JSON name field. */
  function NameOr(v: Option<Json>, fallback: string): string
  {
    if N8nService.JsonTruthy(v) && v.value.JStr? then v.value.s else fallback
  }

  const EmployeeInvalid := "Employee not found or invalid email address"

  /** `checkDuplicate`: both query parameters are required; the employee
      is resolved through n8n, then the table is searched. */
  method CheckDuplicate(t: RequestTable, email: Option<string>, payrollDate: Option<string>,
                        validate: string -> Result<N8nService.ValidatedEmployee, AppError>, toDay: string -> int)
    returns (out: Reply<RequestService.DuplicateCheck>)
    ensures !Truthy(email) || !Truthy(payrollDate) ==> out == Refuse(400, MessageField("email and payrollDate are required"))
    ensures Truthy(email) && Truthy(payrollDate) ==>
              match validate(email.value)
              case Err(e) => out == Forward(e)
              case Ok(emp) =>
                if !N8nService.JsonTruthy(emp.frappeEmployeeId) then out == Refuse(400, MessageField(EmployeeInvalid))
                else
                  out.Respond?
                  && (out.body.hasDuplicate <==> |out.body.duplicates| > 0)
                  && forall r :: r in out.body.duplicates <==>
                       r in t.rows && r.employeeId == IdText(emp.frappeEmployeeId) && r.payrollDate == toDay(payrollDate.value)
  {
    if !Truthy(email) || !Truthy(payrollDate) {
      return Refuse(400, MessageField("email and payrollDate are required"));
    }
    var employee := validate(email.value);
    if employee.Err? {
      return Forward(employee.error);
    }
    if !N8nService.JsonTruthy(employee.value.frappeEmployeeId) {
      return Refuse(400, MessageField(EmployeeInvalid));
    }
    var rows := t.CheckDuplicate(IdText(employee.value.frappeEmployeeId), toDay(payrollDate.value));
    var result := RequestService.CheckDuplicate(Ok(rows));
    out := Respond(result.value);
  }

  /** A notification the handler hands to n8n. */
  datatype Mail = Mail(to: seq<string>, subject: string)

  /** `Your ${request.hours >= 0 ? 'Overtime' : 'Undertime'} Request Has Been ${verb}` */
  function DecisionSubject(hours: int, verb: string): (s: string)
    ensures hours >= 0 ==> s == "Your " + "Overtime" + " Request Has Been " + verb
    ensures hours < 0 ==> s == "Your " + "Undertime" + " Request Has Been " + verb
  {
    "Your " + N8nService.SalaryComponent(hours) + " Request Has Been " + verb
  }

  /** The decision e-mail to the requester, sent only when the lookup gives a truthy company e-mail. */
  function NotifyEmployee(details: DetailsLookup, r: Request, subject: string): (m: Option<Mail>)
    ensures m.Some? <==> NotificationRouting.HasEmail(details, r.employeeId)
    ensures m.Some? ==> m.value.subject == subject && |m.value.to| == 1 && m.value.to[0] != ""
  {
    if NotificationRouting.HasEmail(details, r.employeeId) then Some(Mail([details(r.employeeId).value.value], subject)) else None
  }

  /** The approve/reject gate: Owner and HR always pass, anyone else only for a direct report. */
  predicate MayDecide(user: SessionUser, r: Request, erp: ErpLookup)
    ensures user.role in {"Owner", "HR"} ==> MayDecide(user, r, erp)
    ensures user.role !in {"Owner", "HR"} ==> (MayDecide(user, r, erp) <==> r.employeeId in ReportIds(erp, user.erpnextEmployeeId))
  {
    DecidesAll(user.role) || r.employeeId in ReportIds(erp, user.erpnextEmployeeId)
  }

  /** The gate does not consult `canUserApproveRequest`: Owner may decide
      their own request, and anyone may decide a resolved one. */
  lemma GateIgnoresApprovalFlag(user: SessionUser, r: Request, erp: ErpLookup, directIds: seq<string>, ownerIds: seq<string>)
    requires user.role == "Owner" && Own(user, r)
    ensures MayDecide(user, r, erp) && !CanUserApproveRequest(user, r, directIds, ownerIds)
  {
  }

  const ApproveDenied := "Access denied. You can only approve requests from your direct reports."
  const RejectDenied := "Access denied. You can only reject requests from your direct reports."
  const SalaryWarning := "Additional Salary creation failed in ERPNext"

  /** The approval message: whether the Additional Salary was created. */
  function ApproveMessage(erpNextError: Option<string>): (m: string)
    ensures !Truthy(erpNextError) ==> m == "Request approved successfully. Additional Salary has been created in ERPNext."
    ensures Truthy(erpNextError) ==>
              m == "Request approved successfully. Note: " + erpNextError.value + ". The Additional Salary must be created manually in ERPNext."
  {
    if Truthy(erpNextError) then
      "Request approved successfully. Note: " + erpNextError.value + ". The Additional Salary must be created manually in ERPNext."
    else "Request approved successfully. Additional Salary has been created in ERPNext."
  }

  /** `{ success, message, data, warning?, erpNextError? }` */
  datatype ApproveReply = ApproveReply(message: string, data: Request, warning: Option<string>, erpNextError: Option<string>)

  /** `approveRequest`. The gate runs before any write; a refused call
      leaves the table as it was. The reply carries the request as read
      before the update. `salary` is the message `createAdditionalSalary`
      throws for the payload, None when it succeeds. */
  method ApproveRequest(t: RequestTable, user: SessionUser, id: nat, erp: ErpLookup,
                        salary: N8nService.SalaryPayload -> Option<string>, localeDate: int -> string,
                      details: DetailsLookup, now: int)
    returns (out: Reply<ApproveReply>, mail: Option<Mail>)
    requires t.Valid()
    modifies t
    ensures t.Valid() && t.settings == old(t.settings) && (old(t.AllResolved()) ==> t.AllResolved())
    ensures match IndexOfId(old(t.rows), id)
      case None =>
        t.rows == old(t.rows) && mail.None?
        && out == Forward(RequestService.ToAppError(RequestService.FetchOne, Missing(t.backend)))
      case Some(k) => ApprovalOutcome(old(t.rows), k, t.rows, user, erp, salary, localeDate, details, now, out, mail)
  {
    mail := None;
    var found := t.GetRequestById(id);
    var request := RequestService.Call(RequestService.FetchOne, found);
    if request.Err? {
      return Forward(request.error), None;
    }
    out, mail := ApproveFound(t, user, id, request.value, erp, salary, localeDate, details, now);
  }

  /** `createAdditionalSalary(request)` for a row: its employee, date,
      hours, reason, projects and approver, and its filing date written by
      `localeDate`. */
  function SalaryPayloadOf(r: Request, localeDate: int -> string): (p: N8nService.SalaryPayload)
    ensures p.employeeId == r.employeeId && p.payrollDate == r.payrollDate
  {
    N8nService.AdditionalSalaryPayload(r.employeeId, r.payrollDate, r.hours, r.reason, r.projectsAffected,
                                       r.approvedBy, localeDate(r.createdAt))
  }

  /** What `approveRequest` does to the row at `k` and what it answers:
      a caller outside the gate changes nothing and gets 403; otherwise the
      row is approved, the Additional Salary is requested for the approved
      row (the corrected payload: the source passes the row as read, see
      `AsWrittenNotesNameNoApprover`), and the requester is told. */
  ghost predicate ApprovalOutcome(before: seq<Request>, k: nat, after: seq<Request>, user: SessionUser, erp: ErpLookup,
                                  salary: N8nService.SalaryPayload -> Option<string>, localeDate: int -> string,
                                  details: DetailsLookup, now: int, out: Reply<ApproveReply>, mail: Option<Mail>)
    requires k < |before|
  {
    var r := before[k];
    if !MayDecide(user, r, erp) then
      after == before && mail.None? && out == Refuse(403, ErrorField(ApproveDenied))
    else
      var e := salary(CorrectedSalaryPayload(r, user.email, now, localeDate));
      after == before[k := r.(approvedBy := Some(user.email), approvedAt := Some(now), rejectReason := None)]
      && out == Respond(ApproveReply(ApproveMessage(e), r,
                                     if Truthy(e) then Some(SalaryWarning) else None,
                                     if Truthy(e) then e else None))
      && mail == NotifyEmployee(details, r, DecisionSubject(r.hours, "Approved"))
  }

  /** The part of `approveRequest` after the row was found: the gate, then
      the approval. */
  method ApproveFound(t: RequestTable, user: SessionUser, id: nat, r: Request, erp: ErpLookup,
                      salary: N8nService.SalaryPayload -> Option<string>, localeDate: int -> string,
                      details: DetailsLookup, now: int)
    returns (out: Reply<ApproveReply>, mail: Option<Mail>)
    requires t.Valid() && IndexOfId(t.rows, id).Some? && t.rows[IndexOfId(t.rows, id).value] == r
    modifies t
    ensures t.Valid() && t.settings == old(t.settings) && (old(t.AllResolved()) ==> t.AllResolved())
    ensures ApprovalOutcome(old(t.rows), IndexOfId(old(t.rows), id).value, t.rows, user, erp, salary, localeDate, details, now, out, mail)
  {
    mail := None;
    if !DecidesAll(user.role) {
      var directIds := ReportIds(erp, user.erpnextEmployeeId);
      if r.employeeId !in directIds {
        return Refuse(403, ErrorField(ApproveDenied)), None;
      }
    }
    var updated := t.ApproveRequest(id, user.email, now);
    var erpNextError := salary(CorrectedSalaryPayload(r, user.email, now, localeDate));
    var subject := DecisionSubject(r.hours, "Approved");
    mail := NotifyEmployee(details, r, subject);
    out := Respond(ApproveReply(ApproveMessage(erpNextError), r,
                                if Truthy(erpNextError) then Some(SalaryWarning) else None,
                                if Truthy(erpNextError) then erpNextError else None));
  }

  /** As written, `approveRequest` hands `createAdditionalSalary` the row it
      read before the update (backend/src/controllers/requestController.js:512),
      so the notes of a pending request name no approver: their third line
      reads `Approved by: null`. */
  lemma AsWrittenNotesNameNoApprover(r: Request, localeDate: int -> string)
    requires SqlPending(r)
    requires N8nService.OneLineEach(r.reason, r.projectsAffected, r.approvedBy, localeDate(r.createdAt))
    ensures Split(SalaryPayloadOf(r, localeDate).notes, '\n')[2] == "Approved by: null"
  {
  }

  /** The payload built from the updated row, as the notes evidently intend. */
  function CorrectedSalaryPayload(r: Request, approver: string, now: int, localeDate: int -> string): (p: N8nService.SalaryPayload)
    ensures N8nService.OneLineEach(r.reason, r.projectsAffected, Some(approver), localeDate(r.createdAt)) ==>
              var lines := Split(p.notes, '\n');
              |lines| == 4 && lines[2] == "Approved by: " + approver
  {
    SalaryPayloadOf(r.(approvedBy := Some(approver), approvedAt := Some(now), rejectReason := None), localeDate)
  }

  /** The corrected payload, which the approval sends, is the one of the row
      the approval leaves behind. */
  lemma CorrectedNotesNameApprover(before: seq<Request>, k: nat, after: seq<Request>, user: SessionUser, erp: ErpLookup,
                                   salary: N8nService.SalaryPayload -> Option<string>, localeDate: int -> string,
                                   details: DetailsLookup, now: int, out: Reply<ApproveReply>, mail: Option<Mail>)
    requires k < |before| && MayDecide(user, before[k], erp)
    requires ApprovalOutcome(before, k, after, user, erp, salary, localeDate, details, now, out, mail)
    ensures k < |after|
    ensures SalaryPayloadOf(after[k], localeDate) == CorrectedSalaryPayload(before[k], user.email, now, localeDate)
    ensures after[k].approvedBy == Some(user.email)
  {
  }

  /** `{ success, message: 'Request rejected successfully', data }` */
  datatype RejectReply = RejectReply(message: string, data: Request)

  /** `rejectRequest`. A missing reason is refused before anything is read;
      then the same gate as approval; the row gets the rejecter and the reason. */
  method RejectRequest(t: RequestTable, user: SessionUser, id: nat, reason: Option<string>, erp: ErpLookup, details: DetailsLookup)
    returns (out: Reply<RejectReply>, mail: Option<Mail>)
    requires t.Valid()
    modifies t
    ensures t.Valid() && t.settings == old(t.settings) && (old(t.AllResolved()) ==> t.AllResolved())
    ensures !Truthy(reason) ==> t.rows == old(t.rows) && mail.None? && out == Refuse(400, MessageField("reason is required"))
    ensures Truthy(reason) ==>
      match IndexOfId(old(t.rows), id)
      case None =>
        t.rows == old(t.rows) && mail.None?
        && out == Forward(RequestService.ToAppError(RequestService.FetchOne, Missing(t.backend)))
      case Some(k) =>
        var r := old(t.rows)[k];
        if !MayDecide(user, r, erp) then
          t.rows == old(t.rows) && mail.None? && out == Refuse(403, ErrorField(RejectDenied))
        else
          t.rows == old(t.rows)[k := r.(approvedBy := Some(user.email), rejectReason := Some(reason.value))]
          && out == Respond(RejectReply("Request rejected successfully", r))
          && mail == NotifyEmployee(details, r, DecisionSubject(r.hours, "Rejected"))
  {
    mail := None;
    if !Truthy(reason) {
      return Refuse(400, MessageField("reason is required")), None;
    }
    var found := t.GetRequestById(id);
    var request := RequestService.Call(RequestService.FetchOne, found);
    if request.Err? {
      return Forward(request.error), None;
    }
    var r := request.value;
    if !DecidesAll(user.role) {
      var directIds := ReportIds(erp, user.erpnextEmployeeId);
      if r.employeeId !in directIds {
        return Refuse(403, ErrorField(RejectDenied)), None;
      }
    }
    var updated := t.RejectRequest(id, user.email, reason.value);
    var subject := DecisionSubject(r.hours, "Rejected");
    mail := NotifyEmployee(details, r, subject);
    out := Respond(RejectReply("Request rejected successfully", r));
  }

  /** `{ id, employeeId, employeeName, status: 'pending' }` */
  datatype SubmitReply = SubmitReply(id: nat, employeeId: string, employeeName: Option<Json>, status: string)

  /** `submitRequest` on a body the validator accepted. The employee is
      resolved through n8n (`validate`); the new row is stored; the requester
      is always mailed, HR staff and approvers only when there are any.
      `toDay` reads the ISO date; the routing lookups are as in
      `NotificationRouting`. */
  method SubmitRequest(t: RequestTable, body: Validator.OvertimeBody, toDay: string -> int,
                       validate: string -> Result<N8nService.ValidatedEmployee, AppError>,
                       hrLookup: Result<seq<string>, AppError>, details: DetailsLookup,
                       byDesignation: string -> Result<seq<string>, AppError>)
    returns (out: Reply<SubmitReply>, mails: seq<Mail>, recipients: seq<string>)
    requires t.Valid()
    modifies t
    ensures t.Valid() && t.settings == old(t.settings) && (old(t.AllResolved()) ==> t.AllResolved())
    ensures validate(body.email).Err? ==>
              t.rows == old(t.rows) && mails == [] && out == Forward(validate(body.email).error)
    ensures validate(body.email).Ok? && !N8nService.JsonTruthy(validate(body.email).value.frappeEmployeeId) ==>
              t.rows == old(t.rows) && mails == [] && out == Refuse(400, MessageField(EmployeeInvalid))
    ensures validate(body.email).Ok? && N8nService.JsonTruthy(validate(body.email).value.frappeEmployeeId) ==>
              var emp := validate(body.email).value;
              |t.rows| == |old(t.rows)| + 1 && t.rows[..|old(t.rows)|] == old(t.rows)
              && var r := t.rows[|old(t.rows)|];
              r.employeeId == IdText(emp.frappeEmployeeId) && r.payrollDate == toDay(body.dateAffected)
              && r.hours == body.numberOfHours && r.minutes == Some(body.minutes)
              && r.reason == body.reason && r.projectsAffected == body.projectTaskAssociated
              && SqlPending(r) && !SqlRejected(r)
              && out == Respond(SubmitReply(r.id, IdText(emp.frappeEmployeeId), emp.employeeName, "pending"))
              && recipients == Dedup(NotificationRouting.HrStaff(hrLookup)
                                     + NotificationRouting.Approvers(
                                         NotificationRouting.EmployeeData(TextField(emp.designation), TextField(emp.reportsTo)),
                                         details, byDesignation))
              && NoDup(recipients)
              && |mails| == (if |recipients| > 0 then 2 else 1)
              && mails[0] == Mail([body.email], "Confirmation: Your " + body.requestType + " Request Has Been Received")
              && (|recipients| > 0 ==>
                    mails[1] == Mail(recipients, "New " + body.requestType + " Request - " + NameOr(emp.employeeName, body.email)))
  {
    mails, recipients := [], [];
    var employee := validate(body.email);
    if employee.Err? {
      return Forward(employee.error), [], [];
    }
    var emp := employee.value;
    if !N8nService.JsonTruthy(emp.frappeEmployeeId) {
      return Refuse(400, MessageField(EmployeeInvalid)), [], [];
    }
    var employeeId := IdText(emp.frappeEmployeeId);
    var r := t.InsertRequest(employeeId, TextField(emp.employeeName), toDay(body.dateAffected),
                             body.numberOfHours, body.minutes, body.reason, body.projectTaskAssociated);
    var approvers;
    recipients, approvers :=
      NotificationRouting.GetAllRecipients(NotificationRouting.EmployeeData(TextField(emp.designation), TextField(emp.reportsTo)),
                                           hrLookup, details, byDesignation);
    var confirmation := EmailTemplates.RequestSubmitted(EmailTemplates.TemplateData(
      Some(NameOr(emp.employeeName, "Employee")), None, Some(body.requestType), Some(body.numberOfHours), None,
      Some(body.minutes), None, None, None, None));
    mails := [Mail([body.email], confirmation.value.subject)];
    if |recipients| > 0 {
      var admin := EmailTemplates.AdminNotification(EmailTemplates.TemplateData(
        Some(NameOr(emp.employeeName, body.email)), Some(employeeId), Some(body.requestType), Some(body.numberOfHours), None,
        Some(body.minutes), None, None, None, None));
      mails := mails + [Mail(recipients, admin.value.subject)];
    }
    out := Respond(SubmitReply(r.id, employeeId, emp.employeeName, "pending"));
  }
}
