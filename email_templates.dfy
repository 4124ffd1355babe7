/** The e-mail templates: each builds a subject and an HTML message from a
    data object. The model keeps the subject and the lines whose wording
    depends on the data (greeting, duration, timestamp); the static HTML is
    left out. Absent values interpolate as `undefined`. */
module EmailTemplates {
  import opened Common

  /** The fields the templates read; None is `undefined`. */
  datatype TemplateData = TemplateData(
    employeeName: Option<string>,
    employeeId: Option<string>,
    requestType: Option<string>,
    numberOfHours: Option<int>,
    hours: Option<int>,
    minutes: Option<int>,
    approvedBy: Option<string>,
    rejectedBy: Option<string>,
    email: Option<string>,
    timestamp: Option<string>)

  /** A built e-mail: the subject and the data-dependent lines. */
  datatype Email = Email(subject: string, greeting: string, details: seq<string>)

  /** Decimal digits of a natural number. */
  function NatToString(n: nat): (s: string)
    ensures |s| >= 1 && forall i :: 0 <= i < |s| ==> '0' <= s[i] <= '9'
    ensures n >= 10 ==> |s| >= 2
  {
    if n < 10 then [('0' as int + n) as char] else NatToString(n / 10) + NatToString(n % 10)
  }

  /** Reading decimal digits back. */
  function DigitsValue(s: string): nat
  {
    if s == [] then 0
    else 10 * DigitsValue(s[..|s| - 1]) + (if '0' <= s[|s| - 1] <= '9' then s[|s| - 1] as int - '0' as int else 0)
  }

  /** The decimal text denotes the number. */
  lemma {:induction false} NatToStringValue(n: nat)
    ensures DigitsValue(NatToString(n)) == n
  {
    if n >= 10 {
      NatToStringValue(n / 10);
      var hi, lo := NatToString(n / 10), NatToString(n % 10);
      assert |lo| == 1;
      assert (hi + lo)[..|hi + lo| - 1] == hi;
    }
  }

  /** `${x}` for an integer. */
  function IntToString(x: int): string
  {
    if x >= 0 then NatToString(x) else "-" + NatToString(-x)
  }

  /** `${x}` for a possibly undefined text. */
  function Text(o: Option<string>): string
  {
    if o.Some? then o.value else "undefined"
  }

  /** `${x}` for a possibly undefined number. */
  function Number(o: Option<int>): string
  {
    if o.Some? then IntToString(o.value) else "undefined"
  }

  /** `Math.abs(x)` for a possibly undefined number (NaN when undefined). */
  function AbsText(o: Option<int>): string
  {
    if o.None? then "NaN" else if o.value >= 0 then NatToString(o.value) else NatToString(-o.value)
  }

  /** `${minutes || 0}` */
  function MinutesOrZero(o: Option<int>): string
  {
    if o.Some? && o.value != 0 then IntToString(o.value) else "0"
  }

  /** `requestType || 'Overtime'` */
  function TypeOrOvertime(t: Option<string>): (r: string)
    ensures r != ""
  {
    OrElse(t, "Overtime")
  }

  /** What `undefined.toLowerCase()` throws. */
  const LowerCaseOfUndefined := "Cannot read properties of undefined (reading 'toLowerCase')"

  /** `requestSubmittedTemplate`: its body lower-cases the request type, so
      a call without one throws. */
  function RequestSubmitted(d: TemplateData): (r: Result<Email, string>)
    ensures r.Err? <==> d.requestType.None?
    ensures r.Err? ==> r.error == LowerCaseOfUndefined
    ensures r.Ok? ==>
              r.value.subject == "Confirmation: Your " + d.requestType.value + " Request Has Been Received"
              && r.value.greeting == "Hey " + OrElse(d.employeeName, "there") + ","
              && r.value.details == [Number(d.numberOfHours) + "h " + Number(d.minutes) + "m"]
  {
    if d.requestType.None? then Err(LowerCaseOfUndefined)
    else
      Ok(Email("Confirmation: Your " + d.requestType.value + " Request Has Been Received",
               "Hey " + OrElse(d.employeeName, "there") + ",",
               [Number(d.numberOfHours) + "h " + Number(d.minutes) + "m"]))
  }

  /** `adminNotificationTemplate`: the same throw without a request type;
      a missing name reads `undefined`. */
  function AdminNotification(d: TemplateData): (r: Result<Email, string>)
    ensures r.Err? <==> d.requestType.None?
    ensures r.Err? ==> r.error == LowerCaseOfUndefined
    ensures r.Ok? ==>
              r.value.subject == "New " + d.requestType.value + " Request - " + Text(d.employeeName)
              && r.value.details == [Number(d.numberOfHours) + "h " + Number(d.minutes) + "m"]
  {
    if d.requestType.None? then Err(LowerCaseOfUndefined)
    else
      Ok(Email("New " + d.requestType.value + " Request - " + Text(d.employeeName),
               "",
               [Number(d.numberOfHours) + "h " + Number(d.minutes) + "m"]))
  }

  /** `requestApprovedTemplate`: the type defaults to Overtime, the hours
      are shown without their sign. */
  function RequestApproved(d: TemplateData): (e: Email)
    ensures e.subject == "\U{2705} Your " + TypeOrOvertime(d.requestType) + " Request Has Been Approved"
    ensures e.details == [AbsText(d.hours) + "h " + MinutesOrZero(d.minutes) + "m"]
  {
    Email("\U{2705} Your " + TypeOrOvertime(d.requestType) + " Request Has Been Approved",
          "Good news" + (if Truthy(d.employeeName) then ", " + d.employeeName.value else "") + "!",
          [AbsText(d.hours) + "h " + MinutesOrZero(d.minutes) + "m"])
  }

  /** `requestRejectedTemplate`: as the approval, with the rejection mark. */
  function RequestRejected(d: TemplateData): (e: Email)
    ensures e.subject == "\U{274C} Your " + TypeOrOvertime(d.requestType) + " Request Has Been Rejected"
    ensures e.details == [AbsText(d.hours) + "h " + MinutesOrZero(d.minutes) + "m"]
  {
    Email("\U{274C} Your " + TypeOrOvertime(d.requestType) + " Request Has Been Rejected",
          "Hi" + (if Truthy(d.employeeName) then " " + d.employeeName.value else " there") + ",",
          [AbsText(d.hours) + "h " + MinutesOrZero(d.minutes) + "m"])
  }

  /** `employeeNotFoundTemplate`: a fixed subject and greeting; the address
      is the only data shown. */
  function EmployeeNotFound(d: TemplateData): (e: Email)
    ensures e.subject == "Your Account is Not Recognized" && e.greeting == "Hi there,"
    ensures e.details == [Text(d.email)]
  {
    Email("Your Account is Not Recognized", "Hi there,", [Text(d.email)])
  }

  /** `testEmailTemplate`; `now` is `new Date().toISOString()`. The given
      timestamp is shown when truthy, otherwise the current time. */
  function TestEmail(d: TemplateData, now: string): (e: Email)
    ensures e.subject == "Test Notification - RD OTS System"
    ensures Truthy(d.timestamp) ==> e.details == [d.timestamp.value]
    ensures !Truthy(d.timestamp) ==> e.details == [now]
  {
    Email("Test Notification - RD OTS System", "Hi there,", [OrElse(d.timestamp, now)])
  }

  const TemplateNames: seq<string> :=
    ["request_submitted", "admin_notification", "request_approved", "request_rejected", "employee_not_found", "test_email"]

  /** The two templates that lower-case the request type. */
  predicate LowerCasesType(name: string)
  {
    name == "request_submitted" || name == "admin_notification"
  }

  /** `getEmailTemplate`: the registered template applied to the data (which
      may itself throw), or the not-found error. */
  function GetEmailTemplate(name: string, d: TemplateData, now: string): (r: Result<Email, string>)
    ensures r.Ok? <==> name in TemplateNames && !(LowerCasesType(name) && d.requestType.None?)
    ensures name !in TemplateNames ==> r == Err("Email template '" + name + "' not found")
    ensures name in TemplateNames && r.Err? ==> r.error == LowerCaseOfUndefined
  {
    if name == "request_submitted" then RequestSubmitted(d)
    else if name == "admin_notification" then AdminNotification(d)
    else if name == "request_approved" then Ok(RequestApproved(d))
    else if name == "request_rejected" then Ok(RequestRejected(d))
    else if name == "employee_not_found" then Ok(EmployeeNotFound(d))
    else if name == "test_email" then Ok(TestEmail(d, now))
    else Err("Email template '" + name + "' not found")
  }

  /** The character each registered template's subject starts with. */
  function Lead(name: string): char
  {
    if name == "request_submitted" then 'C'
    else if name == "admin_notification" then 'N'
    else if name == "request_approved" then '\U{2705}'
    else if name == "request_rejected" then '\U{274C}'
    else if name == "employee_not_found" then 'Y'
    else 'T'
  }

  /** Every built subject starts with its template's own character. */
  lemma SubjectLead(name: string, d: TemplateData, now: string)
    requires GetEmailTemplate(name, d, now).Ok?
    ensures var subject := GetEmailTemplate(name, d, now).value.subject;
            |subject| > 0 && subject[0] == Lead(name)
  {
    var subject := GetEmailTemplate(name, d, now).value.subject;
    if name == "request_submitted" {
      assert subject == "Confirmation: Your " + d.requestType.value + " Request Has Been Received";
    } else if name == "admin_notification" {
      assert subject == "New " + d.requestType.value + " Request - " + Text(d.employeeName);
    } else if name == "request_approved" {
      assert subject == "\U{2705} Your " + TypeOrOvertime(d.requestType) + " Request Has Been Approved";
    } else if name == "request_rejected" {
      assert subject == "\U{274C} Your " + TypeOrOvertime(d.requestType) + " Request Has Been Rejected";
    }
  }

  /** For one data object, the six templates build six different subjects:
      the subject tells which template an e-mail came from. */
  lemma SubjectsDistinct(n1: string, n2: string, d: TemplateData, now: string)
    requires n1 != n2
    requires GetEmailTemplate(n1, d, now).Ok? && GetEmailTemplate(n2, d, now).Ok?
    ensures GetEmailTemplate(n1, d, now).value.subject != GetEmailTemplate(n2, d, now).value.subject
  {
    SubjectLead(n1, d, now);
    SubjectLead(n2, d, now);
  }

  /** The approved and rejected subjects name the given type, or Overtime
      when none is given; the two differ only in the mark and the verb. */
  lemma DecisionSubjects(d: TemplateData)
    ensures !Truthy(d.requestType) ==>
              RequestApproved(d).subject == RequestApproved(d.(requestType := Some("Overtime"))).subject
              && RequestRejected(d).subject == RequestRejected(d.(requestType := Some("Overtime"))).subject
    ensures Truthy(d.requestType) ==>
              RequestApproved(d).subject == "\U{2705} Your " + d.requestType.value + " Request Has Been Approved"
              && RequestRejected(d).subject == "\U{274C} Your " + d.requestType.value + " Request Has Been Rejected"
  {
    if !Truthy(d.requestType) {
      assert TypeOrOvertime(d.requestType) == "Overtime" == TypeOrOvertime(Some("Overtime"));
    }
  }

  /** The decision e-mails show the size of the hours, not their sign. */
  lemma DecisionHoursUnsigned(d: TemplateData, h: int)
    ensures RequestApproved(d.(hours := Some(h))).details == RequestApproved(d.(hours := Some(-h))).details
    ensures RequestRejected(d.(hours := Some(h))).details == RequestRejected(d.(hours := Some(-h))).details
    ensures RequestApproved(d.(hours := Some(h))).details[0] == AbsText(Some(h)) + "h " + MinutesOrZero(d.minutes) + "m"
  {
  }

  /** The decision e-mails read 0 minutes exactly when the minutes are
      absent or zero. */
  lemma MinutesDefault(o: Option<int>)
    ensures MinutesOrZero(o) == "0" <==> o.None? || o.value == 0
  {
    if o.Some? && o.value != 0 {
      if o.value > 0 {
        NatToStringValue(o.value);
        assert DigitsValue("0") == 0;
      } else {
        assert |IntToString(o.value)| >= 2;
      }
    }
  }

  /** The greetings fall back to a generic address without a truthy name. */
  lemma GreetingFallbacks(d: TemplateData)
    requires !Truthy(d.employeeName)
    ensures RequestSubmitted(d).Ok? ==> RequestSubmitted(d).value.greeting == "Hey there,"
    ensures RequestRejected(d).greeting == "Hi there,"
    ensures RequestApproved(d).greeting == "Good news!"
  {
  }
}
