/** `NotificationRoutingService`: who is told about a new request. The n8n
    lookups are inputs: `details(id)` is the `company_email` of the employee
    document `getEmployeeDetails` returns (or the error it throws),
    `byDesignation(p)` the e-mails `getApproversByDesignation` returns (or
    its error), `hrLookup` the e-mails of `getHRStaff`. */
module NotificationRouting {
  import opened Common
  import RequestService

  type AppError = RequestService.AppError

  /** The employee fields the routing reads. */
  datatype EmployeeData = EmployeeData(designation: Option<string>, reportsTo: Option<string>)

  const SpecialManager := "HR-EMP-00001"

  /** `getApproversByDesignation`: the lookup's e-mails, [] when it throws. */
  function ApproversByDesignation(byDesignation: string -> Result<seq<string>, AppError>, pattern: string): (emails: seq<string>)
    ensures byDesignation(pattern).Ok? ==> emails == byDesignation(pattern).value
    ensures byDesignation(pattern).Err? ==> emails == []
  {
    match byDesignation(pattern)
    case Ok(emails) => emails
    case Err(_) => []
  }

  /** `getHRStaff`: the lookup's e-mails, [] when it throws. */
  function HrStaff(hrLookup: Result<seq<string>, AppError>): (emails: seq<string>)
    ensures hrLookup.Ok? ==> emails == hrLookup.value
    ensures hrLookup.Err? ==> emails == []
  {
    match hrLookup
    case Ok(emails) => emails
    case Err(_) => []
  }

  /** The supervisor's e-mail when the lookup succeeds with a truthy one. */
  predicate HasEmail(details: string -> Result<Option<string>, AppError>, id: string)
  {
    details(id).Ok? && Truthy(details(id).value)
  }

  predicate IsProjectCoordinator(e: EmployeeData)
  {
    e.designation.Some? && Contains(e.designation.value, "Project Coordinator")
  }

  predicate IsLeadGeneration(e: EmployeeData)
  {
    e.designation.Some? && Contains(e.designation.value, "Lead Generation")
  }

  /** Who approves a request of employee `e`. The special manager short-cuts
      every designation rule; then Project Coordinators route to all
      coordinators, Lead Generation to the lead coordinators, and everyone
      else to the direct supervisor. A failed supervisor lookup gives []. */
  function Approvers(e: EmployeeData, details: string -> Result<Option<string>, AppError>,
                     byDesignation: string -> Result<seq<string>, AppError>): (result: seq<string>)
    ensures NoDup(result)
    ensures forall m :: m in result ==>
              (e.reportsTo.Some? && details(e.reportsTo.value) == Ok(Some(m)))
              || m in ApproversByDesignation(byDesignation, "Project Coordinator")
              || m in ApproversByDesignation(byDesignation, "Lead Project Coordinator")
    ensures !IsProjectCoordinator(e) && !IsLeadGeneration(e) ==> |result| <= 1
  {
    if e.reportsTo == Some(SpecialManager) then
      if HasEmail(details, SpecialManager) then [details(SpecialManager).value.value] else []
    else if IsProjectCoordinator(e) then
      DedupSpec(ApproversByDesignation(byDesignation, "Project Coordinator"));
      Dedup(ApproversByDesignation(byDesignation, "Project Coordinator"))
    else if IsLeadGeneration(e) then
      DedupSpec(ApproversByDesignation(byDesignation, "Lead Project Coordinator"));
      Dedup(ApproversByDesignation(byDesignation, "Lead Project Coordinator"))
    else if Truthy(e.reportsTo) && HasEmail(details, e.reportsTo.value) then [details(e.reportsTo.value).value.value]
    else []
  }

  /** `getApprovers`: the routing above, step by step. */
  method GetApprovers(e: EmployeeData, details: string -> Result<Option<string>, AppError>,
                      byDesignation: string -> Result<seq<string>, AppError>)
    returns (result: seq<string>)
    ensures result == Approvers(e, details, byDesignation)
    ensures e.reportsTo == Some(SpecialManager) ==>
              result == if HasEmail(details, SpecialManager) then [details(SpecialManager).value.value] else []
    ensures e.reportsTo != Some(SpecialManager) && IsProjectCoordinator(e) ==>
              result == Dedup(ApproversByDesignation(byDesignation, "Project Coordinator"))
    ensures e.reportsTo != Some(SpecialManager) && !IsProjectCoordinator(e) && IsLeadGeneration(e) ==>
              result == Dedup(ApproversByDesignation(byDesignation, "Lead Project Coordinator"))
    ensures e.reportsTo != Some(SpecialManager) && !IsProjectCoordinator(e) && !IsLeadGeneration(e) ==>
              result == if Truthy(e.reportsTo) && HasEmail(details, e.reportsTo.value) then [details(e.reportsTo.value).value.value] else []
  {
    var approvers: seq<string> := [];
    if e.reportsTo == Some(SpecialManager) {
      var manager := details(SpecialManager);
      if manager.Err? {
        return [];
      }
      if Truthy(manager.value) {
        approvers := approvers + [manager.value.value];
      }
      return approvers;
    }
    if IsProjectCoordinator(e) || IsLeadGeneration(e) {
      var pattern := if IsProjectCoordinator(e) then "Project Coordinator" else "Lead Project Coordinator";
      approvers := approvers + ApproversByDesignation(byDesignation, pattern);
      assert approvers == ApproversByDesignation(byDesignation, pattern);
      result := Dedup(approvers);
      DedupSpec(approvers);
      return;
    }
    if Truthy(e.reportsTo) {
      var supervisor := details(e.reportsTo.value);
      if supervisor.Err? {
        return [];
      }
      if Truthy(supervisor.value) {
        approvers := approvers + [supervisor.value.value];
      }
    }
    SingleDedup(approvers);
    result := Dedup(approvers);
  }

  /** A list of at most one address is already duplicate-free. */
  lemma SingleDedup(xs: seq<string>)
    requires |xs| <= 1
    ensures Dedup(xs) == xs && NoDup(xs)
  {
    DedupNoDup(xs);
  }

  /** `getAllRecipients`: HR staff first, then the approvers, each address once. */
  method GetAllRecipients(e: EmployeeData, hrLookup: Result<seq<string>, AppError>,
                          details: string -> Result<Option<string>, AppError>,
                          byDesignation: string -> Result<seq<string>, AppError>)
    returns (recipients: seq<string>, approvers: seq<string>)
    ensures approvers == Approvers(e, details, byDesignation)
    ensures NoDup(recipients)
    ensures forall m :: m in recipients <==> m in HrStaff(hrLookup) || m in approvers
    ensures recipients == Dedup(HrStaff(hrLookup) + approvers)
    ensures |Dedup(HrStaff(hrLookup))| <= |recipients| && recipients[..|Dedup(HrStaff(hrLookup))|] == Dedup(HrStaff(hrLookup))
  {
    var hrStaff := HrStaff(hrLookup);
    approvers := GetApprovers(e, details, byDesignation);
    recipients := Dedup(hrStaff + approvers);
    DedupSpec(hrStaff + approvers);
    DedupPrefix(hrStaff, approvers);
  }

  /** Reporting to the special manager ignores the designation entirely. */
  method SpecialManagerIgnoresDesignation(d1: Option<string>, d2: Option<string>,
                                          details: string -> Result<Option<string>, AppError>,
                                          byDesignation: string -> Result<seq<string>, AppError>)
    returns (a1: seq<string>, a2: seq<string>)
    ensures a1 == a2 && |a1| <= 1
  {
    a1 := GetApprovers(EmployeeData(d1, Some(SpecialManager)), details, byDesignation);
    a2 := GetApprovers(EmployeeData(d2, Some(SpecialManager)), details, byDesignation);
  }
}
