/** The request-body validator: the Joi schema for a new overtime/undertime
    request and the `validate` middleware that applies it with
    `abortEarly: false` and `stripUnknown: true`. Joi's e-mail and ISO-date
    tests are opaque, so they are parameters. */
module Validator {
  import opened Common
  import opened Http

  datatype FieldName = Email | RequestType | DateAffected | NumberOfHours | Minutes | Reason | ProjectTaskAssociated

  /** The schema's keys, in declaration order. */
  const Fields: seq<FieldName> := [Email, RequestType, DateAffected, NumberOfHours, Minutes, Reason, ProjectTaskAssociated]

  function Key(f: FieldName): string
  {
    match f
    case Email => "email"
    case RequestType => "requestType"
    case DateAffected => "dateAffected"
    case NumberOfHours => "numberOfHours"
    case Minutes => "minutes"
    case Reason => "reason"
    case ProjectTaskAssociated => "projectTaskAssociated"
  }

  predicate IsSchemaKey(k: string)
  {
    k in ["email", "requestType", "dateAffected", "numberOfHours", "minutes", "reason", "projectTaskAssociated"]
  }

  /** The opaque Joi string tests. */
  datatype Checkers = Checkers(isEmail: string -> bool, isIsoDate: string -> bool)

  predicate IsInteger(n: real) { n == n.Floor as real }

  predicate StringWithin(v: Option<Json>, lo: nat, hi: nat)
  {
    v.Some? && v.value.JStr? && lo <= |v.value.s| <= hi
  }

  /** One key's rule; each rule includes `.required()`. */
  predicate FieldValid(f: FieldName, v: Option<Json>, c: Checkers)
  {
    match f
    case Email => v.Some? && v.value.JStr? && v.value.s != "" && c.isEmail(v.value.s)
    case RequestType => v == Some(JStr("Overtime")) || v == Some(JStr("Undertime"))
    case DateAffected => v.Some? && v.value.JStr? && c.isIsoDate(v.value.s)
    case NumberOfHours => v.Some? && v.value.JNum? && IsInteger(v.value.n) && 1.0 <= v.value.n <= 8.0
    case Minutes => v.Some? && v.value.JNum? && v.value.n in {0.0, 15.0, 30.0, 45.0}
    case Reason => StringWithin(v, 10, 500)
    case ProjectTaskAssociated => StringWithin(v, 3, 200)
  }

  /** Every failing key, in schema order (all are collected: no early abort). */
  function FailingFields(body: Json, c: Checkers): (fs: seq<FieldName>)
    ensures forall f :: f in fs <==> f in Fields && !FieldValid(f, Field(body, Key(f)), c)
  {
    Filter(Fields, f => !FieldValid(f, Field(body, Key(f)), c))
  }

  /** The schema accepts an object whose seven keys all pass. */
  predicate Accepts(body: Json, c: Checkers)
    ensures Accepts(body, c) <==> body.JObj? && forall f :: f in Fields ==> FieldValid(f, Field(body, Key(f)), c)
  {
    body.JObj? && FailingFields(body, c) == []
  }

  /** `stripUnknown`: the object without the keys the schema does not name, in input order. */
  function StripUnknown(body: Json): (r: Json)
    requires body.JObj?
    ensures r.JObj? && forall p :: p in r.fields <==> p in body.fields && IsSchemaKey(p.0)
  {
    JObj(Filter(body.fields, (p: (string, Json)) => IsSchemaKey(p.0)))
  }

  /** A typed view of an accepted body. */
  datatype OvertimeBody = OvertimeBody(
    email: string,
    requestType: string,
    dateAffected: string,
    numberOfHours: int,
    minutes: int,
    reason: string,
    projectTaskAssociated: string)

  /** The constraints the controller may rely on after validation. */
  predicate WellFormed(b: OvertimeBody)
  {
    b.email != ""
    && (b.requestType == "Overtime" || b.requestType == "Undertime")
    && 1 <= b.numberOfHours <= 8
    && b.minutes in {0, 15, 30, 45}
    && 10 <= |b.reason| <= 500
    && 3 <= |b.projectTaskAssociated| <= 200
  }

  /** The accepted body read as typed fields. */
  function Typed(body: Json, c: Checkers): (b: OvertimeBody)
    requires Accepts(body, c)
    ensures WellFormed(b)
    ensures Field(body, "numberOfHours") == Some(JNum(b.numberOfHours as real))
    ensures Field(body, "minutes") == Some(JNum(b.minutes as real))
    ensures Field(body, "requestType") == Some(JStr(b.requestType))
    ensures c.isEmail(b.email) && c.isIsoDate(b.dateAffected)
  {
    AcceptedFieldsValid(body, c);
    var hours := Field(body, "numberOfHours").value.n;
    var minutes := Field(body, "minutes").value.n;
    HoursAsInt(hours);
    MinutesAsInt(minutes);
    OvertimeBody(
      Field(body, "email").value.s,
      Field(body, "requestType").value.s,
      Field(body, "dateAffected").value.s,
      hours.Floor,
      minutes.Floor,
      Field(body, "reason").value.s,
      Field(body, "projectTaskAssociated").value.s)
  }

  lemma HoursAsInt(n: real)
    requires IsInteger(n) && 1.0 <= n <= 8.0
    ensures 1 <= n.Floor <= 8 && n.Floor as real == n
  {
  }

  lemma MinutesAsInt(n: real)
    requires n in {0.0, 15.0, 30.0, 45.0}
    ensures n.Floor in {0, 15, 30, 45} && n.Floor as real == n
  {
  }

  /** An accepted body passes each key's rule. */
  lemma AcceptedFieldsValid(body: Json, c: Checkers)
    requires Accepts(body, c)
    ensures FieldValid(Email, Field(body, "email"), c)
    ensures FieldValid(RequestType, Field(body, "requestType"), c)
    ensures FieldValid(DateAffected, Field(body, "dateAffected"), c)
    ensures FieldValid(NumberOfHours, Field(body, "numberOfHours"), c)
    ensures FieldValid(Minutes, Field(body, "minutes"), c)
    ensures FieldValid(Reason, Field(body, "reason"), c)
    ensures FieldValid(ProjectTaskAssociated, Field(body, "projectTaskAssociated"), c)
  {
    FieldOfAccepted(body, c, Email);
    FieldOfAccepted(body, c, RequestType);
    FieldOfAccepted(body, c, DateAffected);
    FieldOfAccepted(body, c, NumberOfHours);
    FieldOfAccepted(body, c, Minutes);
    FieldOfAccepted(body, c, Reason);
    FieldOfAccepted(body, c, ProjectTaskAssociated);
  }

  /** An accepted body passes the rule of any one key. */
  lemma FieldOfAccepted(body: Json, c: Checkers, f: FieldName)
    requires Accepts(body, c)
    ensures FieldValid(f, Field(body, Key(f)), c)
  {
    assert f in Fields;
    assert f !in FailingFields(body, c);
  }

  /** Stripping keeps every schema key's value, so a stripped body is judged
      exactly as the original, and stripping twice changes nothing. */
  lemma StripKeepsVerdict(body: Json, c: Checkers)
    requires body.JObj?
    ensures forall f :: Field(StripUnknown(body), Key(f)) == Field(body, Key(f))
    ensures Accepts(StripUnknown(body), c) <==> Accepts(body, c)
    ensures StripUnknown(StripUnknown(body)) == StripUnknown(body)
  {
    forall f ensures Field(StripUnknown(body), Key(f)) == Field(body, Key(f)) {
      StripLookup(body.fields, Key(f));
    }
    FilterFilter(body.fields, (p: (string, Json)) => IsSchemaKey(p.0), (p: (string, Json)) => IsSchemaKey(p.0),
                 (p: (string, Json)) => IsSchemaKey(p.0));
    FilterExt(Fields, f => !FieldValid(f, Field(StripUnknown(body), Key(f)), c), f => !FieldValid(f, Field(body, Key(f)), c));
  }

  lemma {:induction false} StripLookup(fields: seq<(string, Json)>, k: string)
    requires IsSchemaKey(k)
    ensures Lookup(Filter(fields, (p: (string, Json)) => IsSchemaKey(p.0)), k) == Lookup(fields, k)
    decreases |fields|
  {
    var keep := (p: (string, Json)) => IsSchemaKey(p.0);
    if fields != [] {
      var init := fields[..|fields| - 1];
      var last := fields[|fields| - 1];
      assert fields == init + [last];
      FilterAppend(init, [last], keep);
      StripLookup(init, k);
      if IsSchemaKey(last.0) {
        assert Filter([last], keep) == [last];
        var fs := Filter(init, keep) + [last];
        assert fs[..|fs| - 1] == Filter(init, keep);
      } else {
        assert Filter([last], keep) == [];
        assert Filter(init, keep) + [] == Filter(init, keep);
      }
    }
  }

  /** The error `validate` hands to `next`: flagged `isJoi`, listing every failing key. */
  datatype Outcome =
    | Next
    | JoiError(isJoi: bool, failing: seq<FieldName>, notAnObject: bool)

  /** `validate(schemas.overtimeRequest)`: on success `req.body` becomes the
      stripped value; on failure the body is left as it was. */
  method Validate(req: ServerRequest, c: Checkers) returns (out: Outcome)
    modifies req
    ensures unchanged(req`authorization, req`user)
    ensures out.Next? <==> Accepts(old(req.body), c)
    ensures out.Next? ==> req.body == StripUnknown(old(req.body))
    ensures out.JoiError? ==>
              req.body == old(req.body) && out.isJoi
              && out.notAnObject == !old(req.body).JObj?
              && (old(req.body).JObj? ==> out.failing == FailingFields(old(req.body), c) && out.failing != [])
  {
    if !req.body.JObj? {
      return JoiError(true, [], true);
    }
    var failing := FailingFields(req.body, c);
    if failing != [] {
      return JoiError(true, failing, false);
    }
    req.body := StripUnknown(req.body);
    out := Next;
  }

  /** A body with 1.5 hours is refused (the schema asks for an integer). */
  lemma FractionalHoursRefused(body: Json, c: Checkers)
    requires Field(body, "numberOfHours") == Some(JNum(1.5))
    ensures !Accepts(body, c) && (body.JObj? ==> NumberOfHours in FailingFields(body, c))
  {
    assert IsInteger(1.5) == false by { assert (1.5).Floor == 1; }
    assert !FieldValid(NumberOfHours, Field(body, Key(NumberOfHours)), c);
  }
}
