/** `ERPNextService`: three lookups against the ERP's Employee resource. The
    HTTP exchange is not modelled; each function takes the response as an
    input (`Err` for a failed request, `Ok(None)` for a response without
    `data.data`) and keeps the service's null / [] / false fallbacks. */
module ErpNextService {
  import opened Common

  /** One Employee document as the ERP returns it. */
  datatype EmployeeDoc = EmployeeDoc(
    name: string,
    employeeName: Option<string>,
    companyEmail: Option<string>,
    designation: Option<string>,
    reportsTo: Option<string>,
    status: Option<string>)

  /** The normalised employee of `getEmployeeByEmail`. */
  datatype Employee = Employee(
    employeeId: string,
    employeeName: Option<string>,
    email: Option<string>,
    designation: string,
    reportsTo: Option<string>,
    status: Option<string>)

  /** One entry of `getDirectReports`. */
  datatype DirectReport = DirectReport(employeeId: string, employeeName: Option<string>, email: Option<string>)

  type Response<T> = Result<Option<T>, string>

  function Normalise(doc: EmployeeDoc): (e: Employee)
    ensures e.employeeId == doc.name && e.employeeName == doc.employeeName && e.email == doc.companyEmail
    ensures e.designation == (if Truthy(doc.designation) then doc.designation.value else "Employee")
    ensures e.reportsTo == (if Truthy(doc.reportsTo) then doc.reportsTo else None)
    ensures e.status == doc.status
  {
    Employee(doc.name, doc.employeeName, doc.companyEmail, OrElse(doc.designation, "Employee"),
             if Truthy(doc.reportsTo) then doc.reportsTo else None, doc.status)
  }

  /** `getEmployeeByEmail`: the first document, normalised; null when there
      is none or the request failed. */
  function GetEmployeeByEmail(resp: Response<seq<EmployeeDoc>>): (e: Option<Employee>)
    ensures e.Some? <==> resp.Ok? && resp.value.Some? && |resp.value.value| > 0
    ensures e.Some? ==> e.value == Normalise(resp.value.value[0])
    ensures e.Some? ==> e.value.designation != "" && (e.value.reportsTo.Some? ==> e.value.reportsTo.value != "")
  {
    if resp.Ok? && resp.value.Some? && |resp.value.value| > 0 then Some(Normalise(resp.value.value[0]))
    else None
  }

  function ToDirectReport(doc: EmployeeDoc): DirectReport
  {
    DirectReport(doc.name, doc.employeeName, doc.companyEmail)
  }

  /** `getDirectReports`: every document, in order; [] when the request failed
      or returned no `data`. */
  function GetDirectReports(resp: Response<seq<EmployeeDoc>>): (rs: seq<DirectReport>)
    ensures resp.Err? || resp.value.None? ==> rs == []
    ensures resp.Ok? && resp.value.Some? ==>
              |rs| == |resp.value.value|
              && forall i :: 0 <= i < |rs| ==> rs[i] == ToDirectReport(resp.value.value[i])
  {
    if resp.Ok? && resp.value.Some? then
      seq(|resp.value.value|, i requires 0 <= i < |resp.value.value| => ToDirectReport(resp.value.value[i]))
    else []
  }

  /** `directReports.map(emp => emp.employee_id)`, as the controllers use it. */
  function EmployeeIds(rs: seq<DirectReport>): (ids: seq<string>)
    ensures |ids| == |rs| && forall i :: 0 <= i < |rs| ==> ids[i] == rs[i].employeeId
  {
    seq(|rs|, i requires 0 <= i < |rs| => rs[i].employeeId)
  }

  /** The direct-report ids are those of the ERP documents, in order. */
  lemma DirectReportIdsAreDocNames(docs: seq<EmployeeDoc>, id: string)
    ensures id in EmployeeIds(GetDirectReports(Ok(Some(docs)))) <==> exists i :: 0 <= i < |docs| && docs[i].name == id
  {
    var ids := EmployeeIds(GetDirectReports(Ok(Some(docs))));
    if exists i :: 0 <= i < |docs| && docs[i].name == id {
      var i :| 0 <= i < |docs| && docs[i].name == id;
      assert ids[i] == id;
    }
  }

  const OwnerDesignations: seq<string> := ["Owner", "CEO", "Managing Director", "President"]

  /** `titles.some(title => designation && designation.includes(title))` */
  predicate SomeTitle(titles: seq<string>, designation: Option<string>)
    decreases |titles|
  {
    |titles| > 0 && ((Truthy(designation) && Contains(designation.value, titles[0])) || SomeTitle(titles[1..], designation))
  }

  /** The owner test spelled out: a present designation containing one of the four titles. */
  lemma {:induction false} OwnerDesignationSpec(designation: Option<string>)
    ensures SomeTitle(OwnerDesignations, designation) <==>
      Truthy(designation) &&
      (Contains(designation.value, "Owner") || Contains(designation.value, "CEO")
       || Contains(designation.value, "Managing Director") || Contains(designation.value, "President"))
  {
    var t := OwnerDesignations;
    assert t[1..] == ["CEO", "Managing Director", "President"];
    assert t[1..][1..] == ["Managing Director", "President"];
    assert t[1..][1..][1..] == ["President"];
    assert t[1..][1..][1..][1..] == [];
  }

  /** `isCompanyOwner`: the designation test on the document, false when the
      request failed or returned no document. */
  function IsCompanyOwner(resp: Response<EmployeeDoc>): (b: bool)
    ensures b <==> resp.Ok? && resp.value.Some? && SomeTitle(OwnerDesignations, resp.value.value.designation)
    ensures b ==> Truthy(resp.value.value.designation)
  {
    OwnerDesignationSpec(if resp.Ok? && resp.value.Some? then resp.value.value.designation else None);
    resp.Ok? && resp.value.Some? && SomeTitle(OwnerDesignations, resp.value.value.designation)
  }

  /** The test is case-sensitive: a lower-case "ceo" is not an owner. */
  lemma OwnerTestIsCaseSensitive()
    ensures !SomeTitle(OwnerDesignations, Some("ceo"))
  {
    OwnerDesignationSpec(Some("ceo"));
    NotContainsWithoutFirstChar("ceo", "Owner");
    NotContainsWithoutFirstChar("ceo", "CEO");
    NotContainsWithoutFirstChar("ceo", "Managing Director");
    NotContainsWithoutFirstChar("ceo", "President");
  }

  /** A "Chief Executive Officer (CEO)" designation is an owner. */
  lemma CeoInDesignationIsOwner()
    ensures SomeTitle(OwnerDesignations, Some("Chief Executive Officer (CEO)"))
  {
    ContainsInfix("Chief Executive Officer (", "CEO", ")");
    assert "Chief Executive Officer (" + "CEO" + ")" == "Chief Executive Officer (CEO)";
    OwnerDesignationSpec(Some("Chief Executive Officer (CEO)"));
  }
}
