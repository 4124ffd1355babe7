/** The request form: its zod schema, default values, the two-stage
    submit / confirm flow and the calendar's disabled dates. The zod e-mail
    test is the same opaque predicate the backend uses. */
module RequestForm {
  import opened Common
  import opened Http
  import Validator

  /** The form values the resolver sees. `dateAffected` is the picked date
      as a millisecond instant, None when no date is picked; the two
      numbers are already coerced. */
  datatype FormValues = FormValues(
    email: string,
    requestType: string,
    dateAffected: Option<int>,
    numberOfHours: real,
    minutes: real,
    reason: string,
    projectTaskAssociated: string)

  predicate HoursOk(n: real) { 1.0 <= n <= 8.0 }

  predicate MinutesOk(n: real) { n in {0.0, 15.0, 30.0, 45.0} }

  predicate ReasonOk(s: string) { 10 <= |s| <= 500 }

  predicate ProjectOk(s: string) { 3 <= |s| <= 200 }

  predicate TypeOk(t: string) { t == "Overtime" || t == "Undertime" }

  /** `formSchema` accepts the values. */
  predicate ZodAccepts(v: FormValues, isEmail: string -> bool)
  {
    isEmail(v.email) && TypeOk(v.requestType) && v.dateAffected.Some?
    && HoursOk(v.numberOfHours) && MinutesOk(v.minutes)
    && ReasonOk(v.reason) && ProjectOk(v.projectTaskAssociated)
  }

  /** A typed body the backend schema admits meets every numeric, type
      and length rule of the form. */
  lemma WellFormedPassesZod(b: Validator.OvertimeBody)
    requires Validator.WellFormed(b)
    ensures HoursOk(b.numberOfHours as real) && MinutesOk(b.minutes as real)
    ensures TypeOk(b.requestType) && ReasonOk(b.reason) && ProjectOk(b.projectTaskAssociated)
  {
    assert b.minutes as real in {0.0, 15.0, 30.0, 45.0} by {
      assert b.minutes in {0, 15, 30, 45};
    }
  }

  /** Every hours, minutes, type, reason and project value the backend
      accepts, the form accepts too. */
  lemma JoiFieldsPassZod(body: Json, c: Validator.Checkers)
    requires Validator.Accepts(body, c)
    ensures var b := Validator.Typed(body, c);
      HoursOk(b.numberOfHours as real) && MinutesOk(b.minutes as real)
      && TypeOk(b.requestType) && ReasonOk(b.reason) && ProjectOk(b.projectTaskAssociated)
      && c.isEmail(b.email)
  {
    WellFormedPassesZod(Validator.Typed(body, c));
  }

  /** The converse fails: 1.5 hours passes the form but not the backend. */
  lemma FractionalHoursOnlyPassZod(c: Validator.Checkers)
    ensures HoursOk(1.5)
    ensures !Validator.FieldValid(Validator.NumberOfHours, Some(JNum(1.5)), c)
  {
    assert (1.5).Floor == 1;
  }

  /** The default numeric values and type. */
  const DefaultType := "Overtime"
  const DefaultHours := 1.0
  const DefaultMinutes := 0.0

  /** `new Date("1900-01-01")` as a millisecond instant (UTC). */
  const Year1900: int := -2208988800000

  /** The calendar's `disabled` callback. */
  predicate Disabled(date: int, now: int)
  {
    date > now || date < Year1900
  }

  /** Exactly the dates from 1900-01-01 up to now can be picked. */
  lemma SelectableDates(date: int, now: int)
    ensures !Disabled(date, now) <==> Year1900 <= date <= now
  {
  }

  /** What `handleConfirm` gives to `submitRequest`: the staged values with
      the date formatted as `yyyy-MM-dd` (the formatting is a parameter). */
  datatype Payload = Payload(values: FormValues, dateText: string)

  function PayloadOf(d: FormValues, format: int -> string): Payload
  {
    Payload(d, if d.dateAffected.Some? then format(d.dateAffected.value) else "")
  }

  /** The component's state hooks, the form's current values and the list
      of payloads handed to `submitRequest`. */
  class FormState {
    var values: FormValues
    var showConfirmation: bool
    var showSuccess: bool
    var pendingData: Option<FormValues>
    var duplicateData: Option<Json>
    var clearMessagesCalls: nat
    var submitted: seq<Payload>

    /** The initial state: the form's default values, nothing staged. */
    constructor ()
      ensures values.requestType == DefaultType && values.numberOfHours == DefaultHours && values.minutes == DefaultMinutes
      ensures !showConfirmation && !showSuccess && pendingData.None? && duplicateData.None?
      ensures clearMessagesCalls == 0 && submitted == []
    {
      values := FormValues("", DefaultType, None, DefaultHours, DefaultMinutes, "", "");
      showConfirmation := false;
      showSuccess := false;
      pendingData := None;
      duplicateData := None;
      clearMessagesCalls := 0;
      submitted := [];
    }

    /** `onSubmit`, called by `handleSubmit` only with values the schema
        accepts: stages them and opens the dialog; nothing is submitted. */
    method OnSubmit(data: FormValues, isEmail: string -> bool)
      requires ZodAccepts(data, isEmail)
      modifies this
      ensures pendingData == Some(data) && duplicateData.None? && showConfirmation
      ensures clearMessagesCalls == old(clearMessagesCalls) + 1
      ensures submitted == old(submitted) && values == old(values) && showSuccess == old(showSuccess)
    {
      clearMessagesCalls := clearMessagesCalls + 1;
      pendingData := Some(data);
      duplicateData := None;
      showConfirmation := true;
    }

    /** `handleConfirm`: closes the dialog and, if values are staged, submits
        them. `succeeds` is the outcome of `submitRequest`; on success the
        form is reset and the staged data cleared, on failure they stay. */
    method HandleConfirm(format: int -> string, succeeds: bool)
      modifies this
      ensures !showConfirmation
      ensures old(pendingData).None? ==>
                submitted == old(submitted) && pendingData.None? && duplicateData == old(duplicateData)
                && values == old(values) && showSuccess == old(showSuccess)
      ensures old(pendingData).Some? ==>
                submitted == old(submitted) + [PayloadOf(old(pendingData).value, format)]
      ensures old(pendingData).Some? && succeeds ==>
                showSuccess && pendingData.None? && duplicateData.None?
                && values.requestType == DefaultType && values.numberOfHours == DefaultHours && values.minutes == DefaultMinutes
      ensures old(pendingData).Some? && !succeeds ==>
                pendingData == old(pendingData) && duplicateData == old(duplicateData)
                && values == old(values) && showSuccess == old(showSuccess)
      ensures clearMessagesCalls == old(clearMessagesCalls)
    {
      showConfirmation := false;
      if pendingData.None? {
        return;
      }
      var d := pendingData.value;
      submitted := submitted + [PayloadOf(d, format)];
      if !succeeds {
        return;
      }
      showSuccess := true;
      values := FormValues("", DefaultType, None, DefaultHours, DefaultMinutes, "", "");
      pendingData := None;
      duplicateData := None;
    }

    /** `handleCancel`: closes the dialog and drops the staged data. */
    method HandleCancel()
      modifies this
      ensures !showConfirmation && pendingData.None? && duplicateData.None?
      ensures submitted == old(submitted) && values == old(values) && showSuccess == old(showSuccess)
      ensures clearMessagesCalls == old(clearMessagesCalls)
    {
      showConfirmation := false;
      pendingData := None;
      duplicateData := None;
    }
  }

  /** Staging and then cancelling submits nothing and leaves nothing staged. */
  method SubmitThenCancel(f: FormState, data: FormValues, isEmail: string -> bool)
    requires ZodAccepts(data, isEmail)
    modifies f
    ensures f.submitted == old(f.submitted) && f.pendingData.None? && !f.showConfirmation
  {
    f.OnSubmit(data, isEmail);
    f.HandleCancel();
  }

  /** Staging and then confirming submits exactly the staged values once. */
  method SubmitThenConfirm(f: FormState, data: FormValues, isEmail: string -> bool, format: int -> string, succeeds: bool)
    requires ZodAccepts(data, isEmail)
    modifies f
    ensures f.submitted == old(f.submitted) + [PayloadOf(data, format)]
    ensures succeeds ==> f.pendingData.None?
  {
    f.OnSubmit(data, isEmail);
    f.HandleConfirm(format, succeeds);
  }
}
