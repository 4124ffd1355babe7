/** `N8nService`: lazy initialisation, and the shaping of what the workflow
    webhooks answer. Each webhook call is an input: the response body, or
    the transport failure axios reports. */
module N8nService {
  import opened Common
  import opened Http
  import RequestService

  type AppError = RequestService.AppError

  /** An HTTP error response: its status and the `message` / `error` fields of its body. */
  datatype ErrorResponse = ErrorResponse(status: int, message: Option<string>, error: Option<string>)

  /** A failed axios call: the socket error code and, when the server
      answered, the response. */
  datatype Failure = Failure(code: Option<string>, response: Option<ErrorResponse>)

  /** `error.response?.status || 500` */
  function StatusOr500(f: Failure): (s: nat)
    ensures s == 500 || (f.response.Some? && s == f.response.value.status)
  {
    if f.response.Some? && f.response.value.status > 0 then f.response.value.status else 500
  }

  /** The catch block shared by most calls:
      `new AppError(error.response?.data?.message || fallback, error.response?.status || 500)` */
  function Rethrow(f: Failure, fallback: string): (e: AppError)
    ensures e.statusCode == StatusOr500(f)
    ensures e.message == if f.response.Some? then OrElse(f.response.value.message, fallback) else fallback
  {
    RequestService.AppError(if f.response.Some? then OrElse(f.response.value.message, fallback) else fallback, StatusOr500(f))
  }

  /** `baseUrl.replace(/\/$/, '')`: one trailing slash removed. */
  function StripTrailingSlash(s: string): (r: string)
    ensures |s| > 0 && s[|s| - 1] == '/' ==> r == s[..|s| - 1]
    ensures !(|s| > 0 && s[|s| - 1] == '/') ==> r == s
  {
    if |s| > 0 && s[|s| - 1] == '/' then s[..|s| - 1] else s
  }

  /** Exactly one slash goes: `x/` becomes `x` even when `x` itself ends in a slash. */
  lemma StripsOneSlash(s: string)
    ensures StripTrailingSlash(s + "/") == s
  {
    assert (s + "/")[..|s|] == s;
  }

  /** The service object's lazily set fields. */
  class Client {
    var initialized: bool
    var baseUrl: Option<string>

    constructor ()
      ensures !initialized && baseUrl.None?
    {
      initialized := false;
      baseUrl := None;
    }

    /** `_ensureInitialized`, reading `N8N_BASE_URL` from `env`. Returns the
        thrown error's message, if any. */
    method EnsureInitialized(env: Option<string>) returns (thrown: Option<string>)
      modifies this
      ensures old(initialized) ==> thrown.None? && initialized && baseUrl == old(baseUrl)
      ensures !old(initialized) && !Truthy(env) ==>
                thrown == Some("N8N_BASE_URL must be configured") && !initialized && baseUrl == env
      ensures !old(initialized) && Truthy(env) ==>
                thrown.None? && initialized && baseUrl == Some(StripTrailingSlash(env.value))
    {
      if initialized {
        return None;
      }
      baseUrl := env;
      if !Truthy(baseUrl) {
        return Some("N8N_BASE_URL must be configured");
      }
      baseUrl := Some(StripTrailingSlash(baseUrl.value));
      initialized := true;
      thrown := None;
    }
  }

  /** Once initialised, later calls keep the first base URL even when the environment changes. */
  method InitialiseTwice(c: Client, first: Option<string>, second: Option<string>)
    requires !c.initialized && Truthy(first)
    modifies c
    ensures c.initialized && c.baseUrl == Some(StripTrailingSlash(first.value))
  {
    var _ := c.EnsureInitialized(first);
    var _ := c.EnsureInitialized(second);
  }

  /** The environment `validateEmployee` reads. */
  datatype ValidateConfig = ValidateConfig(useErpNextService: Option<string>, erpNextServicePath: Option<string>, validatePath: Option<string>)

  /** The body posted to the chosen webhook. */
  datatype ValidatePayload = UnifiedPayload(operation: string, email: string) | DedicatedPayload(email: string)

  /** The webhook and payload: the unified service iff the flag is exactly
      `'true'`; a missing path throws the message given. */
  function ChooseWebhook(cfg: ValidateConfig, email: string): (r: Result<(string, ValidatePayload), string>)
    ensures cfg.useErpNextService == Some("true") ==>
              r == if Truthy(cfg.erpNextServicePath) then Ok((cfg.erpNextServicePath.value, UnifiedPayload("validate_employee", email)))
                   else Err("N8N_WEBHOOK_ERPNEXT_SERVICE is not configured")
    ensures cfg.useErpNextService != Some("true") ==>
              r == if Truthy(cfg.validatePath) then Ok((cfg.validatePath.value, DedicatedPayload(email)))
                   else Err("N8N_WEBHOOK_VALIDATE_EMPLOYEE is not configured")
  {
    if cfg.useErpNextService == Some("true") then
      if !Truthy(cfg.erpNextServicePath) then Err("N8N_WEBHOOK_ERPNEXT_SERVICE is not configured")
      else Ok((cfg.erpNextServicePath.value, UnifiedPayload("validate_employee", email)))
    else
      if !Truthy(cfg.validatePath) then Err("N8N_WEBHOOK_VALIDATE_EMPLOYEE is not configured")
      else Ok((cfg.validatePath.value, DedicatedPayload(email)))
  }

  /** The normalised employee `validateEmployee` returns. The fields keep
      whatever JSON the workflow sent (None for undefined). */
  datatype ValidatedEmployee = ValidatedEmployee(
    frappeEmployeeId: Option<Json>,
    employeeName: Option<Json>,
    reportsTo: Option<Json>,
    designation: Option<Json>,
    companyEmail: Json)

  /** JavaScript truthiness of a possibly undefined JSON value. */
  predicate JsonTruthy(v: Option<Json>)
  {
    v.Some? && match v.value
      case JNull => false
      case JBool(b) => b
      case JNum(n) => n != 0.0
      case JStr(s) => s != ""
      case JArr(_) => true
      case JObj(_) => true
  }

  /** `a || b` on possibly undefined JSON values. */
  function JsonOr(a: Option<Json>, b: Option<Json>): (r: Option<Json>)
    ensures JsonTruthy(a) ==> r == a
    ensures !JsonTruthy(a) ==> r == b
  {
    if JsonTruthy(a) then a else b
  }

  /** The record read from the response: the first element of a non-empty array, else the body itself. */
  function EmployeeRecord(data: Json): (e: Json)
    ensures data.JArr? && |data.items| > 0 ==> e == data.items[0]
    ensures !(data.JArr? && |data.items| > 0) ==> e == data
  {
    if data.JArr? && |data.items| > 0 then data.items[0] else data
  }

  /** Field access on the record; reading a field of `null` throws. */
  function Normalise(data: Json, email: string): (r: Option<ValidatedEmployee>)
    ensures r.None? <==> EmployeeRecord(data).JNull?
    ensures r.Some? ==>
              var e := EmployeeRecord(data);
              r.value.frappeEmployeeId == JsonOr(Field(e, "employee"), Field(e, "frappe_employee_id"))
              && r.value.employeeName == Field(e, "employee_name")
              && r.value.reportsTo == Field(e, "reports_to")
              && r.value.designation == Field(e, "designation")
              && r.value.companyEmail == JsonOr(Field(e, "company_email"), Some(JStr(email))).value
  {
    var e := EmployeeRecord(data);
    if e.JNull? then None
    else
      Some(ValidatedEmployee(
        JsonOr(Field(e, "employee"), Field(e, "frappe_employee_id")),
        Field(e, "employee_name"),
        Field(e, "reports_to"),
        Field(e, "designation"),
        JsonOr(Field(e, "company_email"), Some(JStr(email))).value))
  }

  /** The normalised e-mail is always truthy: the record's own, or the one asked about. */
  lemma CompanyEmailFallback(data: Json, email: string)
    requires email != "" && Normalise(data, email).Some?
    ensures JsonTruthy(Some(Normalise(data, email).value.companyEmail))
  {
  }

  /** How `validateEmployee` fails. A configuration error carries no code
      and no response, so it becomes the generic 500. */
  function ValidateError(f: Failure, baseUrl: string): (e: AppError)
    ensures f.code == Some("ECONNREFUSED") ==> e.statusCode == 503
    ensures f.code != Some("ECONNREFUSED") && (f.code == Some("ETIMEDOUT") || f.code == Some("ECONNABORTED")) ==> e.statusCode == 504
    ensures !(f.code in {Some("ECONNREFUSED"), Some("ETIMEDOUT"), Some("ECONNABORTED")}) ==>
              if f.response.Some? && f.response.value.status == 404 then e.statusCode == 404
              else if f.response.Some? && f.response.value.status in {401, 403} then e.statusCode == f.response.value.status
              else e.statusCode == StatusOr500(f)
  {
    if f.code == Some("ECONNREFUSED") then
      RequestService.AppError("Unable to connect to n8n service at " + baseUrl + ". Please check if n8n is running.", 503)
    else if f.code == Some("ETIMEDOUT") || f.code == Some("ECONNABORTED") then
      RequestService.AppError("Request to n8n service timed out. Please try again.", 504)
    else if f.response.Some? && f.response.value.status == 404 then
      RequestService.AppError("n8n webhook endpoint not found. Please verify the webhook configuration.", 404)
    else if f.response.Some? && (f.response.value.status == 401 || f.response.value.status == 403) then
      RequestService.AppError("Authentication failed with n8n service. Please check webhook configuration.", f.response.value.status)
    else
      var message := if f.response.Some? then OrElse(f.response.value.message, OrElse(f.response.value.error, "Failed to validate employee"))
                     else "Failed to validate employee";
      RequestService.AppError(message, StatusOr500(f))
  }

  /** `validateEmployee`: pick the webhook, post, normalise, or map the failure.
      `post` is the webhook's answer to the chosen path and payload. */
  function ValidateEmployee(cfg: ValidateConfig, baseUrl: string, email: string,
                            post: (string, ValidatePayload) -> Result<Json, Failure>): (r: Result<ValidatedEmployee, AppError>)
    ensures ChooseWebhook(cfg, email).Err? ==> r == Err(RequestService.AppError("Failed to validate employee", 500))
    ensures ChooseWebhook(cfg, email).Ok? ==>
              var (path, payload) := ChooseWebhook(cfg, email).value;
              match post(path, payload)
              case Err(f) => r == Err(ValidateError(f, baseUrl))
              case Ok(data) => r == if Normalise(data, email).Some? then Ok(Normalise(data, email).value)
                                     else Err(RequestService.AppError("Failed to validate employee", 500))
  {
    match ChooseWebhook(cfg, email)
    case Err(_) => Err(ValidateError(Failure(None, None), baseUrl))
    case Ok((path, payload)) =>
      match post(path, payload)
      case Err(f) => Err(ValidateError(f, baseUrl))
      case Ok(data) =>
        match Normalise(data, email)
        case Some(e) => Ok(e)
        case None => Err(ValidateError(Failure(None, None), baseUrl))
  }

  /** `requestData.hours >= 0 ? 'Overtime' : 'Undertime'` */
  function SalaryComponent(hours: int): (c: string)
    ensures c == "Overtime" <==> hours >= 0
    ensures c == "Undertime" <==> hours < 0
  {
    if hours >= 0 then "Overtime" else "Undertime"
  }

  function Abs(x: int): (a: nat)
    ensures a == x || a == -x
  {
    if x >= 0 then x else -x
  }

  /** `${x}` of a database value that may be NULL. */
  function NullText(o: Option<string>): (t: string)
    ensures o.None? ==> t == "null"
    ensures o.Some? ==> t == o.value
  {
    if o.Some? then o.value else "null"
  }

  /** The four lines of the salary document's `notes`. */
  function NoteLines(reason: string, projects: string, approvedBy: Option<string>, requestedOn: string): seq<string>
  {
    ["Reason: " + reason, "Projects: " + projects, "Approved by: " + NullText(approvedBy), "Requested on: " + requestedOn]
  }

  /** No value in the notes breaks a line. */
  predicate OneLineEach(reason: string, projects: string, approvedBy: Option<string>, requestedOn: string)
  {
    '\n' !in reason && '\n' !in projects && '\n' !in NullText(approvedBy) && '\n' !in requestedOn
  }

  /** The fields of the `create_additional_salary` call. */
  datatype SalaryPayload = SalaryPayload(employeeId: string, payrollDate: int, salaryComponent: string, hours: nat, notes: string)

  /** The payload `createAdditionalSalary` posts for a request row; `requestedOn`
      is the row's `created_at` as `toLocaleDateString` writes it. The notes
      read back, line by line, as the reason, the projects, the row's
      approver (`null` when it has none) and the filing date. */
  function AdditionalSalaryPayload(employeeId: string, payrollDate: int, hours: int, reason: string, projects: string,
                                   approvedBy: Option<string>, requestedOn: string): (p: SalaryPayload)
    ensures p.employeeId == employeeId && p.payrollDate == payrollDate
    ensures OneLineEach(reason, projects, approvedBy, requestedOn) ==>
              Split(p.notes, '\n') == NoteLines(reason, projects, approvedBy, requestedOn)
  {
    var lines := NoteLines(reason, projects, approvedBy, requestedOn);
    NotesReadBack(reason, projects, approvedBy, requestedOn);
    SalaryPayload(employeeId, payrollDate, SalaryComponent(hours), Abs(hours), Join(lines, '\n'))
  }

  /** One-line values make the joined notes split back into their lines. */
  lemma NotesReadBack(reason: string, projects: string, approvedBy: Option<string>, requestedOn: string)
    ensures OneLineEach(reason, projects, approvedBy, requestedOn) ==>
              var lines := NoteLines(reason, projects, approvedBy, requestedOn);
              Split(Join(lines, '\n'), '\n') == lines
  {
    var lines := NoteLines(reason, projects, approvedBy, requestedOn);
    if OneLineEach(reason, projects, approvedBy, requestedOn) {
      forall i | 0 <= i < |lines| ensures '\n' !in lines[i] {
        if i == 2 {
          assert lines[2] == "Approved by: " + NullText(approvedBy);
        }
      }
      SplitJoin(lines, '\n');
    }
  }

  /** The component and the magnitude together give back the signed hours. */
  lemma SalaryPayloadRoundTrip(employeeId: string, payrollDate: int, hours: int, reason: string, projects: string,
                               approvedBy: Option<string>, requestedOn: string)
    ensures var p := AdditionalSalaryPayload(employeeId, payrollDate, hours, reason, projects, approvedBy, requestedOn);
      (if p.salaryComponent == "Overtime" then p.hours as int else -(p.hours as int)) == hours
  {
  }

  /** The result of `checkDuplicateSalary`. */
  datatype SalaryDuplicates = SalaryDuplicates(hasDuplicate: bool, existingRecords: Json)

  /** `response.data?.data && response.data.data.length > 0`, `data || []`,
      and `{false, []}` when the call fails. */
  function CheckDuplicateSalary(response: Result<Json, Failure>): (r: SalaryDuplicates)
    ensures response.Err? ==> r == SalaryDuplicates(false, JArr([]))
    ensures response.Ok? && Field(response.value, "data").Some? && Field(response.value, "data").value.JArr? ==>
              var records := Field(response.value, "data").value;
              r.hasDuplicate == (|records.items| > 0) && r.existingRecords == records
    ensures response.Ok? && !JsonTruthy(Field(response.value, "data")) ==> r == SalaryDuplicates(false, JArr([]))
  {
    match response
    case Err(_) => SalaryDuplicates(false, JArr([]))
    case Ok(body) =>
      var data := Field(body, "data");
      var hasDuplicate := JsonTruthy(data) && match data.value
        case JArr(items) => |items| > 0
        case JStr(s) => |s| > 0
        case _ => false;
      SalaryDuplicates(hasDuplicate, if JsonTruthy(data) then data.value else JArr([]))
  }

  /** The body posted to the notification webhook. */
  datatype NotificationPayload = NotificationPayload(to: string, subject: string, message: string)

  /** `sendNotification`: the webhook's answer, or `{success: false, error}`
      when the call fails; it never throws. */
  function SendNotification(recipients: seq<string>, subject: string, message: string,
                            post: NotificationPayload -> Result<Json, string>): (r: Json)
    ensures var answer := post(NotificationPayload(Join(recipients, ','), subject, message));
      r == if answer.Ok? then answer.value else JObj([("success", JBool(false)), ("error", JStr(answer.error))])
  {
    match post(NotificationPayload(Join(recipients, ','), subject, message))
    case Ok(data) => data
    case Err(m) => JObj([("success", JBool(false)), ("error", JStr(m))])
  }

  /** One employee entry of the HR or designation lookup. */
  datatype StaffEntry = StaffEntry(name: string, companyEmail: Option<string>)

  /** `.filter(e => e.company_email).map(e => e.company_email)` */
  function CompanyEmails(entries: seq<StaffEntry>): (emails: seq<string>)
    ensures |emails| <= |entries|
    ensures forall m :: m in emails <==> exists e :: e in entries && Truthy(e.companyEmail) && e.companyEmail.value == m
    decreases |entries|
  {
    if entries == [] then []
    else
      var rest := CompanyEmails(entries[1..]);
      assert forall e :: e in entries[1..] ==> e in entries;
      assert forall e :: e in entries ==> e == entries[0] || e in entries[1..];
      if Truthy(entries[0].companyEmail) then [entries[0].companyEmail.value] + rest else rest
  }

  /** The e-mails keep the entries' order: those of a concatenation are concatenated. */
  lemma {:induction false} CompanyEmailsAppend(a: seq<StaffEntry>, b: seq<StaffEntry>)
    ensures CompanyEmails(a + b) == CompanyEmails(a) + CompanyEmails(b)
    decreases |a|
  {
    if a == [] {
      assert a + b == b;
    } else {
      assert (a + b)[1..] == a[1..] + b;
      CompanyEmailsAppend(a[1..], b);
    }
  }

  /** `getHRStaff` / `getApproversByDesignation`: the e-mails of the entries
      under `data.data` (none when it is missing), or the rethrown failure. */
  function StaffEmails(response: Result<Option<seq<StaffEntry>>, Failure>, fallback: string): (r: Result<seq<string>, AppError>)
    ensures response.Err? ==> r == Err(Rethrow(response.error, fallback))
    ensures response.Ok? && response.value.None? ==> r == Ok([])
    ensures response.Ok? && response.value.Some? ==> r == Ok(CompanyEmails(response.value.value))
  {
    match response
    case Err(f) => Err(Rethrow(f, fallback))
    case Ok(None) => Ok([])
    case Ok(Some(entries)) => Ok(CompanyEmails(entries))
  }

  const HrStaffFailure := "Failed to get HR staff from ERPNext"
  const DesignationFailure := "Failed to get approvers by designation from ERPNext"
}
