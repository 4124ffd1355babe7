/** The database adapter: one interface over a PostgreSQL pool and a Supabase
    client. The requests table and the settings table are the fields of one
    `RequestTable` object; the backend is fixed at construction. Queries are
    modelled by the WHERE terms the adapter builds and by their meaning on
    the rows; SQL text itself is not rendered. */
module Database {
  import opened Common
  import opened Requests

  datatype Backend = Postgres | Supabase

  /** Filters of `getAllRequests`; an absent or empty value is `None`. */
  datatype Filters = Filters(
    status: Option<string>,
    dateFrom: Option<int>,
    dateTo: Option<int>,
    employeeId: Option<string>)

  /** What a status filter means: unknown status words add no condition. */
  predicate StatusMatches(status: Option<string>, r: Request)
  {
    if !Truthy(status) then true
    else if status.value == "pending" then SqlPending(r)
    else if status.value == "approved" then SqlApproved(r)
    else if status.value == "rejected" then SqlRejected(r)
    else true
  }

  /** The rows `getAllRequests(filters)` selects, independent of backend. */
  predicate MatchesFilters(f: Filters, r: Request)
    ensures !Truthy(f.status) && f.dateFrom.None? && f.dateTo.None? && !Truthy(f.employeeId) ==> MatchesFilters(f, r)
    ensures MatchesFilters(f, r) && Truthy(f.employeeId) ==> r.employeeId == f.employeeId.value
  {
    StatusMatches(f.status, r)
    && (f.dateFrom.Some? ==> r.payrollDate >= f.dateFrom.value)
    && (f.dateTo.Some? ==> r.payrollDate <= f.dateTo.value)
    && (Truthy(f.employeeId) ==> r.employeeId == f.employeeId.value)
  }

  datatype Column = FrappeEmployeeId | PayrollDate | ApprovedBy | ApprovedAt | RejectReason

  datatype SqlValue = Null | Text(text: string) | Day(day: int) | Instant(instant: int)

  function ColumnValue(c: Column, r: Request): SqlValue
  {
    match c
    case FrappeEmployeeId => Text(r.employeeId)
    case PayrollDate => Day(r.payrollDate)
    case ApprovedBy => if r.approvedBy.Some? then Text(r.approvedBy.value) else Null
    case ApprovedAt => if r.approvedAt.Some? then Instant(r.approvedAt.value) else Null
    case RejectReason => if r.rejectReason.Some? then Text(r.rejectReason.value) else Null
  }

  /** The right-hand side of a comparison: a `$n` placeholder (PostgreSQL) or
      a value carried by the query builder itself (Supabase). */
  datatype Operand = Placeholder(n: nat) | Literal(v: SqlValue)

  /** One `AND` term of a WHERE clause. */
  datatype Cond =
    | IsNull(col: Column)
    | IsNotNull(col: Column)
    | Ge(col: Column, rhs: Operand)
    | Le(col: Column, rhs: Operand)
    | Eq(col: Column, rhs: Operand)

  /** The value bound to an operand; an unbound placeholder reads as NULL. */
  function Resolve(o: Operand, params: seq<SqlValue>): SqlValue
  {
    match o
    case Placeholder(n) => if 1 <= n <= |params| then params[n - 1] else Null
    case Literal(v) => v
  }

  /** SQL comparison: NULL or mismatched operands never satisfy a WHERE term. */
  predicate CompareGe(a: SqlValue, b: SqlValue) { a.Day? && b.Day? && a.day >= b.day }

  predicate CompareEq(a: SqlValue, b: SqlValue) { a != Null && b != Null && a == b }

  predicate EvalCond(c: Cond, params: seq<SqlValue>, r: Request)
  {
    match c
    case IsNull(col) => ColumnValue(col, r) == Null
    case IsNotNull(col) => ColumnValue(col, r) != Null
    case Ge(col, o) => CompareGe(ColumnValue(col, r), Resolve(o, params))
    case Le(col, o) => CompareGe(Resolve(o, params), ColumnValue(col, r))
    case Eq(col, o) => CompareEq(ColumnValue(col, r), Resolve(o, params))
  }

  /** `WHERE 1=1 AND c1 AND c2 ...` */
  predicate EvalWhere(conds: seq<Cond>, params: seq<SqlValue>, r: Request)
  {
    forall i :: 0 <= i < |conds| ==> EvalCond(conds[i], params, r)
  }

  /** The placeholder number a term uses, 0 if none. */
  function PlaceholderOf(c: Cond): nat
  {
    match c
    case Ge(_, Placeholder(n)) => n
    case Le(_, Placeholder(n)) => n
    case Eq(_, Placeholder(n)) => n
    case _ => 0
  }

  /** The placeholders of a WHERE clause, left to right. */
  function Placeholders(conds: seq<Cond>): seq<nat>
    decreases |conds|
  {
    if conds == [] then []
    else (if PlaceholderOf(conds[0]) > 0 then [PlaceholderOf(conds[0])] else []) + Placeholders(conds[1..])
  }

  lemma {:induction false} PlaceholdersAppend(a: seq<Cond>, b: seq<Cond>)
    ensures Placeholders(a + b) == Placeholders(a) + Placeholders(b)
    decreases |a|
  {
    if a == [] {
      assert a + b == b;
    } else {
      assert (a + b)[1..] == a[1..] + b;
      PlaceholdersAppend(a[1..], b);
    }
  }

  /** `$1, $2, ..., $count`, each once and in order. */
  predicate NumberedInOrder(ns: seq<nat>, count: nat)
  {
    |ns| == count && forall i :: 0 <= i < |ns| ==> ns[i] == i + 1
  }

  /** Every term uses a placeholder no greater than `k`. */
  predicate RefsWithin(conds: seq<Cond>, k: nat)
  {
    forall i :: 0 <= i < |conds| ==> PlaceholderOf(conds[i]) <= k
  }

  /** Binding more parameters does not change terms that only use earlier ones. */
  lemma ExtendParams(conds: seq<Cond>, params: seq<SqlValue>, extra: SqlValue, r: Request)
    requires RefsWithin(conds, |params|)
    ensures EvalWhere(conds, params + [extra], r) == EvalWhere(conds, params, r)
  {
    forall i | 0 <= i < |conds|
      ensures EvalCond(conds[i], params + [extra], r) == EvalCond(conds[i], params, r)
    {
      assert PlaceholderOf(conds[i]) <= |params|;
    }
  }

  /** The status terms both backends add for `filters.status`. */
  function StatusConds(status: Option<string>): (conds: seq<Cond>)
    ensures Placeholders(conds) == [] && RefsWithin(conds, 0)
    ensures forall r, params :: EvalWhere(conds, params, r) <==> StatusMatches(status, r)
  {
    if !Truthy(status) then []
    else if status.value == "pending" then [IsNull(ApprovedBy)]
    else if status.value == "approved" then [IsNotNull(ApprovedBy), IsNull(RejectReason)]
    else if status.value == "rejected" then [IsNotNull(RejectReason)]
    else []
  }

  /** The terms a filter selects once its first `stage` parts (status,
      dateFrom, dateTo, employeeId) have been appended. */
  predicate MatchesUpTo(f: Filters, stage: nat, r: Request)
  {
    StatusMatches(f.status, r)
    && (stage >= 1 && f.dateFrom.Some? ==> r.payrollDate >= f.dateFrom.value)
    && (stage >= 2 && f.dateTo.Some? ==> r.payrollDate <= f.dateTo.value)
    && (stage >= 3 && Truthy(f.employeeId) ==> r.employeeId == f.employeeId.value)
  }

  /** Appending a term that takes the next placeholder keeps the numbering
      and conjoins the term's meaning. */
  lemma AppendParamTerm(conds: seq<Cond>, params: seq<SqlValue>, c: Cond, v: SqlValue)
    requires NumberedInOrder(Placeholders(conds), |params|) && RefsWithin(conds, |params|)
    requires PlaceholderOf(c) == |params| + 1
    ensures NumberedInOrder(Placeholders(conds + [c]), |params| + 1)
    ensures RefsWithin(conds + [c], |params| + 1)
    ensures forall r :: EvalWhere(conds + [c], params + [v], r) == (EvalWhere(conds, params, r) && EvalCond(c, params + [v], r))
  {
    PlaceholdersAppend(conds, [c]);
    assert Placeholders([c]) == [PlaceholderOf(c)] + Placeholders([c][1..]);
    forall r ensures EvalWhere(conds + [c], params + [v], r) == (EvalWhere(conds, params, r) && EvalCond(c, params + [v], r)) {
      ExtendParams(conds, params, v, r);
      assert forall i :: 0 <= i < |conds| ==> (conds + [c])[i] == conds[i];
      assert (conds + [c])[|conds|] == c;
    }
  }

  /** Appending a term with an inline value adds no placeholder and conjoins the term's meaning. */
  lemma AppendLiteralTerm(conds: seq<Cond>, c: Cond)
    requires PlaceholderOf(c) == 0
    ensures Placeholders(conds + [c]) == Placeholders(conds)
    ensures forall r :: EvalWhere(conds + [c], [], r) == (EvalWhere(conds, [], r) && EvalCond(c, [], r))
  {
    PlaceholdersAppend(conds, [c]);
    assert Placeholders([c]) == Placeholders([c][1..]);
    forall r ensures EvalWhere(conds + [c], [], r) == (EvalWhere(conds, [], r) && EvalCond(c, [], r)) {
      assert forall i :: 0 <= i < |conds| ==> (conds + [c])[i] == conds[i];
      assert (conds + [c])[|conds|] == c;
    }
  }

  /** The PostgreSQL branch of `getAllRequests`: `WHERE 1=1`, the status
      terms, then one placeholder term per present date or employee filter,
      numbered by `paramIndex++` with the value pushed onto `params`. */
  method BuildRequestQuery(f: Filters) returns (conds: seq<Cond>, params: seq<SqlValue>)
    ensures NumberedInOrder(Placeholders(conds), |params|)
    ensures forall r :: EvalWhere(conds, params, r) <==> MatchesFilters(f, r)
  {
    conds := StatusConds(f.status);
    params := [];
    var paramIndex: nat := 1;
    var conds0, params0 := conds, params;
    if f.dateFrom.Some? {
      var c, v := Ge(PayrollDate, Placeholder(paramIndex)), Day(f.dateFrom.value);
      AppendParamTerm(conds, params, c, v);
      conds := conds + [c];
      paramIndex := paramIndex + 1;
      params := params + [v];
    }
    ParamDateFrom(conds0, params0, conds, params, f);
    var conds1, params1 := conds, params;
    if f.dateTo.Some? {
      var c, v := Le(PayrollDate, Placeholder(paramIndex)), Day(f.dateTo.value);
      AppendParamTerm(conds, params, c, v);
      conds := conds + [c];
      paramIndex := paramIndex + 1;
      params := params + [v];
    }
    ParamDateTo(conds1, params1, conds, params, f);
    var conds2, params2 := conds, params;
    if Truthy(f.employeeId) {
      var c, v := Eq(FrappeEmployeeId, Placeholder(paramIndex)), Text(f.employeeId.value);
      AppendParamTerm(conds, params, c, v);
      conds := conds + [c];
      paramIndex := paramIndex + 1;
      params := params + [v];
    }
    ParamEmployee(conds2, params2, conds, params, f);
  }

  /** The `payroll_date >= $n` step: the terms now select the first stage. */
  lemma ParamDateFrom(before: seq<Cond>, ps: seq<SqlValue>, after: seq<Cond>, ps': seq<SqlValue>, f: Filters)
    requires forall r :: EvalWhere(before, ps, r) == StatusMatches(f.status, r)
    requires f.dateFrom.None? ==> after == before && ps' == ps
    requires f.dateFrom.Some? ==>
               ps' == ps + [Day(f.dateFrom.value)]
               && forall r :: EvalWhere(after, ps', r) == (EvalWhere(before, ps, r) && EvalCond(Ge(PayrollDate, Placeholder(|ps| + 1)), ps', r))
    ensures forall r :: EvalWhere(after, ps', r) == MatchesUpTo(f, 1, r)
  {
  }

  /** The `payroll_date <= $n` step. */
  lemma ParamDateTo(before: seq<Cond>, ps: seq<SqlValue>, after: seq<Cond>, ps': seq<SqlValue>, f: Filters)
    requires forall r :: EvalWhere(before, ps, r) == MatchesUpTo(f, 1, r)
    requires f.dateTo.None? ==> after == before && ps' == ps
    requires f.dateTo.Some? ==>
               ps' == ps + [Day(f.dateTo.value)]
               && forall r :: EvalWhere(after, ps', r) == (EvalWhere(before, ps, r) && EvalCond(Le(PayrollDate, Placeholder(|ps| + 1)), ps', r))
    ensures forall r :: EvalWhere(after, ps', r) == MatchesUpTo(f, 2, r)
  {
  }

  /** The `frappe_employee_id = $n` step. */
  lemma ParamEmployee(before: seq<Cond>, ps: seq<SqlValue>, after: seq<Cond>, ps': seq<SqlValue>, f: Filters)
    requires forall r :: EvalWhere(before, ps, r) == MatchesUpTo(f, 2, r)
    requires !Truthy(f.employeeId) ==> after == before && ps' == ps
    requires Truthy(f.employeeId) ==>
               ps' == ps + [Text(f.employeeId.value)]
               && forall r :: EvalWhere(after, ps', r) == (EvalWhere(before, ps, r) && EvalCond(Eq(FrappeEmployeeId, Placeholder(|ps| + 1)), ps', r))
    ensures forall r :: EvalWhere(after, ps', r) == MatchesUpTo(f, 3, r)
  {
  }

  /** The Supabase branch of `getAllRequests`: the same terms chained onto the
      query builder (`.is`, `.not(..., 'is', null)`, `.gte`, `.lte`, `.eq`),
      each carrying its value. */
  method BuildSupabaseQuery(f: Filters) returns (conds: seq<Cond>)
    ensures Placeholders(conds) == []
    ensures forall r :: EvalWhere(conds, [], r) <==> MatchesFilters(f, r)
  {
    conds := StatusConds(f.status);
    var stage0 := conds;
    if f.dateFrom.Some? {
      var c := Ge(PayrollDate, Literal(Day(f.dateFrom.value)));
      AppendLiteralTerm(conds, c);
      conds := conds + [c];
    }
    LiteralDateFrom(stage0, conds, f);
    var stage1 := conds;
    if f.dateTo.Some? {
      var c := Le(PayrollDate, Literal(Day(f.dateTo.value)));
      AppendLiteralTerm(conds, c);
      conds := conds + [c];
    }
    LiteralDateTo(stage1, conds, f);
    var stage2 := conds;
    if Truthy(f.employeeId) {
      var c := Eq(FrappeEmployeeId, Literal(Text(f.employeeId.value)));
      AppendLiteralTerm(conds, c);
      conds := conds + [c];
    }
    LiteralEmployee(stage2, conds, f);
  }

  /** The Supabase `.gte` step: the terms now select the first stage. */
  lemma LiteralDateFrom(before: seq<Cond>, after: seq<Cond>, f: Filters)
    requires forall r :: EvalWhere(before, [], r) == StatusMatches(f.status, r)
    requires f.dateFrom.None? ==> after == before
    requires f.dateFrom.Some? ==>
               forall r :: EvalWhere(after, [], r) == (EvalWhere(before, [], r) && EvalCond(Ge(PayrollDate, Literal(Day(f.dateFrom.value))), [], r))
    ensures forall r :: EvalWhere(after, [], r) == MatchesUpTo(f, 1, r)
  {
  }

  /** The `.lte` step. */
  lemma LiteralDateTo(before: seq<Cond>, after: seq<Cond>, f: Filters)
    requires forall r :: EvalWhere(before, [], r) == MatchesUpTo(f, 1, r)
    requires f.dateTo.None? ==> after == before
    requires f.dateTo.Some? ==>
               forall r :: EvalWhere(after, [], r) == (EvalWhere(before, [], r) && EvalCond(Le(PayrollDate, Literal(Day(f.dateTo.value))), [], r))
    ensures forall r :: EvalWhere(after, [], r) == MatchesUpTo(f, 2, r)
  {
  }

  /** The `.eq` step on the employee id. */
  lemma LiteralEmployee(before: seq<Cond>, after: seq<Cond>, f: Filters)
    requires forall r :: EvalWhere(before, [], r) == MatchesUpTo(f, 2, r)
    requires !Truthy(f.employeeId) ==> after == before
    requires Truthy(f.employeeId) ==>
               forall r :: EvalWhere(after, [], r) == (EvalWhere(before, [], r) && EvalCond(Eq(FrappeEmployeeId, Literal(Text(f.employeeId.value))), [], r))
    ensures forall r :: EvalWhere(after, [], r) == MatchesUpTo(f, 3, r)
  {
  }

  /** Result statistics of `getStatistics` (the floating-point hour total is not modelled). */
  datatype Statistics = Statistics(total: nat, pending: nat, approved: nat, rejected: nat)

  function CountStatistics(rs: seq<Request>): (s: Statistics)
    ensures s.pending <= s.total && s.approved <= s.total && s.rejected <= s.total
  {
    Statistics(|rs|, |Filter(rs, JsPending)|, |Filter(rs, JsApproved)|, |Filter(rs, JsRejected)|)
  }

  /** On resolved rows without empty strings the three counts add up to the total. */
  lemma {:induction false} StatisticsPartition(rs: seq<Request>)
    requires forall r :: r in rs ==> Resolved(r) && NoEmptyText(r)
    ensures CountStatistics(rs).pending + CountStatistics(rs).approved + CountStatistics(rs).rejected == |rs|
    decreases |rs|
  {
    if rs != [] {
      assert forall r :: r in rs[1..] ==> r in rs;
      StatisticsPartition(rs[1..]);
      SqlAgreesWithJs(rs[0]);
    }
  }

  /** A row that is "rejected" with no approver is counted both as pending and
      as rejected, so without `Resolved` the counts can exceed the total. */
  lemma UnresolvedDoubleCounts(r: Request)
    requires r.approvedBy.None? && r.rejectReason == Some("late")
    ensures CountStatistics([r]).pending + CountStatistics([r]).rejected == 2
  {
    assert Filter([r], JsPending) == [r];
    assert Filter([r], JsRejected) == [r];
  }

  /** Columns written by `approveRequest` and `rejectRequest`, in object key order;
      `None` = key absent, `Some(None)` = set to NULL. */
  datatype Updates = Updates(
    approvedBy: Option<Option<string>>,
    approvedAt: Option<Option<int>>,
    rejectReason: Option<Option<string>>)

  predicate HasField(u: Updates)
  {
    u.approvedBy.Some? || u.approvedAt.Some? || u.rejectReason.Some?
  }

  function ApplyUpdates(r: Request, u: Updates): (r': Request)
    ensures r'.id == r.id && r'.employeeId == r.employeeId && r'.payrollDate == r.payrollDate
    ensures r'.hours == r.hours && r'.minutes == r.minutes && r'.createdAt == r.createdAt
    ensures r'.approvedBy == (if u.approvedBy.Some? then u.approvedBy.value else r.approvedBy)
    ensures r'.approvedAt == (if u.approvedAt.Some? then u.approvedAt.value else r.approvedAt)
    ensures r'.rejectReason == (if u.rejectReason.Some? then u.rejectReason.value else r.rejectReason)
  {
    r.(approvedBy := if u.approvedBy.Some? then u.approvedBy.value else r.approvedBy,
       approvedAt := if u.approvedAt.Some? then u.approvedAt.value else r.approvedAt,
       rejectReason := if u.rejectReason.Some? then u.rejectReason.value else r.rejectReason)
  }

  function OptText(o: Option<string>): SqlValue { if o.Some? then Text(o.value) else Null }

  function OptInstant(o: Option<int>): SqlValue { if o.Some? then Instant(o.value) else Null }

  /** `Object.keys(updates)` and `Object.values(updates)`, in key order. */
  function UpdateFields(u: Updates): seq<(Column, SqlValue)>
  {
    (if u.approvedBy.Some? then [(ApprovedBy, OptText(u.approvedBy.value))] else [])
    + (if u.approvedAt.Some? then [(ApprovedAt, OptInstant(u.approvedAt.value))] else [])
    + (if u.rejectReason.Some? then [(RejectReason, OptText(u.rejectReason.value))] else [])
  }

  /** `field = $${idx + 2}` for each key, and the parameter list `[id, ...values]`. */
  method BuildUpdate(id: nat, u: Updates) returns (setClause: seq<(Column, nat)>, params: seq<SqlValue>)
    ensures |setClause| == |UpdateFields(u)| && |params| == |setClause| + 1
    ensures params[0] == Day(id)
    ensures forall i :: 0 <= i < |setClause| ==>
      setClause[i].0 == UpdateFields(u)[i].0
      && setClause[i].1 == i + 2
      && params[setClause[i].1 - 1] == UpdateFields(u)[i].1
  {
    var fields := UpdateFields(u);
    setClause := [];
    params := [Day(id)];
    var idx := 0;
    while idx < |fields|
      invariant 0 <= idx <= |fields|
      invariant |setClause| == idx && |params| == idx + 1
      invariant params[0] == Day(id)
      invariant forall i :: 0 <= i < idx ==>
        setClause[i].0 == fields[i].0 && setClause[i].1 == i + 2 && params[i + 1] == fields[i].1
    {
      setClause := setClause + [(fields[idx].0, idx + 2)];
      params := params + [fields[idx].1];
      idx := idx + 1;
    }
  }

  /** Position of the row with this id. */
  function IndexOfId(rows: seq<Request>, id: nat): (k: Option<nat>)
    ensures k.Some? ==> k.value < |rows| && rows[k.value].id == id
    ensures k.None? ==> forall i :: 0 <= i < |rows| ==> rows[i].id != id
    decreases |rows|
  {
    if rows == [] then None
    else if rows[|rows| - 1].id == id then Some(|rows| - 1)
    else IndexOfId(rows[..|rows| - 1], id)
  }

  /** Errors the adapter raises for a missing row. */
  datatype DbError =
    | RequestNotFound         // PostgreSQL branch: `throw new Error('Request not found')`
    | NoSingleRow             // Supabase `.single()` on zero rows: PostgREST code PGRST116
    | DriverError(message: string)  // any other driver or connection failure

  function ErrorMessage(e: DbError): string
  {
    match e
    case RequestNotFound => "Request not found"
    case NoSingleRow => "JSON object requested, multiple (or no) rows returned"
    case DriverError(m) => m
  }

  /** A row of the `settings` table; `value` is the stored JSON text. */
  datatype Setting = Setting(key: string, value: string, description: Option<string>)

  /** Code-point order on keys (`ORDER BY key` under the C collation). */
  predicate LexLess(a: string, b: string)
    decreases |a|
  {
    |b| > 0 && (|a| == 0 || a[0] < b[0] || (a[0] == b[0] && LexLess(a[1..], b[1..])))
  }

  lemma {:induction false} LexLessIrreflexive(a: string)
    ensures !LexLess(a, a)
    decreases |a|
  {
    if |a| > 0 { LexLessIrreflexive(a[1..]); }
  }

  lemma {:induction false} LexLessTransitive(a: string, b: string, c: string)
    requires LexLess(a, b) && LexLess(b, c)
    ensures LexLess(a, c)
    decreases |a|
  {
    if |a| > 0 && a[0] == b[0] && b[0] == c[0] {
      LexLessTransitive(a[1..], b[1..], c[1..]);
    }
  }

  lemma {:induction false} LexLessTotal(a: string, b: string)
    requires a != b
    ensures LexLess(a, b) || LexLess(b, a)
    decreases |a|
  {
    if |a| > 0 && |b| > 0 && a[0] == b[0] {
      assert a == [a[0]] + a[1..] && b == [b[0]] + b[1..];
      assert a[1..] != b[1..];
      LexLessTotal(a[1..], b[1..]);
    }
  }

  /** Every non-empty finite set of keys has a least key. */
  lemma {:induction false} MinKeyExists(s: set<string>)
    requires s != {}
    ensures exists m :: m in s && forall k :: k in s && k != m ==> LexLess(m, k)
    decreases |s|
  {
    var x :| x in s;
    var rest := s - {x};
    if rest == {} {
      forall k | k in s ensures k == x { assert k !in rest; }
      assert x in s && forall k :: k in s && k != x ==> LexLess(x, k);
    } else {
      MinKeyExists(rest);
      var m :| m in rest && forall k :: k in rest && k != m ==> LexLess(m, k);
      LexLessTotal(m, x);
      if LexLess(m, x) {
        forall k | k in s && k != m ensures LexLess(m, k) {
          if k != x { assert k in rest; }
        }
      } else {
        forall k | k in s && k != x ensures LexLess(x, k) {
          if k != m { LexLessTransitive(x, m, k); }
        }
        assert x in s && forall k :: k in s && k != x ==> LexLess(x, k);
      }
    }
  }

  predicate SortedByKey(all: seq<Setting>)
  {
    forall i, j :: 0 <= i < j < |all| ==> LexLess(all[i].key, all[j].key)
  }

  class RequestTable {
    const backend: Backend
    /** The requests, in insertion (= `created_at`) order. */
    var rows: seq<Request>
    var nextId: nat
    var settings: map<string, Setting>

    ghost predicate Valid()
      reads this
    {
      (forall i :: 0 <= i < |rows| ==> rows[i].id < nextId && rows[i].createdAt == rows[i].id as int)
      && (forall i, j :: 0 <= i < j < |rows| ==> rows[i].id < rows[j].id)
      && (forall k :: k in settings ==> settings[k].key == k)
    }

    /** Every row records an approver whenever it records a rejection. */
    ghost predicate AllResolved()
      reads this
    {
      forall i :: 0 <= i < |rows| ==> Resolved(rows[i])
    }

    constructor (b: Backend)
      ensures Valid() && AllResolved()
      ensures backend == b && rows == [] && settings == map[]
    {
      backend := b;
      rows := [];
      nextId := 1;
      settings := map[];
    }

    /** `getAllRequests(filters)`: the matching rows, newest first, on either backend. */
    method GetAllRequests(f: Filters) returns (result: seq<Request>)
      ensures result == Reverse(Filter(rows, r => MatchesFilters(f, r)))
    {
      if backend == Postgres {
        var conds, params := BuildRequestQuery(f);
        FilterExt(rows, r => EvalWhere(conds, params, r), r => MatchesFilters(f, r));
        result := Reverse(Filter(rows, r => EvalWhere(conds, params, r)));
      } else {
        var conds := BuildSupabaseQuery(f);
        FilterExt(rows, r => EvalWhere(conds, [], r), r => MatchesFilters(f, r));
        result := Reverse(Filter(rows, r => EvalWhere(conds, [], r)));
      }
    }

    /** `getRequestById(id)`: the row, or the backend's not-found error. */
    method GetRequestById(id: nat) returns (result: Result<Request, DbError>)
      ensures result.Ok? <==> exists i :: 0 <= i < |rows| && rows[i].id == id
      ensures result.Ok? ==> result.value in rows && result.value.id == id
      ensures result.Ok? ==> IndexOfId(rows, id).Some? && result.value == rows[IndexOfId(rows, id).value]
      ensures result.Err? ==> result.error == (if backend == Postgres then RequestNotFound else NoSingleRow)
    {
      var k := IndexOfId(rows, id);
      if k.None? {
        result := Err(if backend == Postgres then RequestNotFound else NoSingleRow);
      } else {
        result := Ok(rows[k.value]);
      }
    }

    /** `getRequestsByEmployee(employeeId)`: that employee's rows, newest first. */
    method GetRequestsByEmployee(employeeId: string) returns (result: seq<Request>)
      ensures result == Reverse(Filter(rows, (r: Request) => r.employeeId == employeeId))
      ensures forall r :: r in result <==> r in rows && r.employeeId == employeeId
    {
      result := Reverse(Filter(rows, (r: Request) => r.employeeId == employeeId));
      ReverseMembers(Filter(rows, (r: Request) => r.employeeId == employeeId));
    }

    /** `getPendingRequests()`: rows with no approver, oldest first. */
    method GetPendingRequests() returns (result: seq<Request>)
      ensures result == Filter(rows, SqlPending)
      ensures forall r :: r in result <==> r in rows && r.approvedBy.None?
    {
      result := Filter(rows, SqlPending);
    }

    /** `getStatistics(employeeId)`: counts over all rows, or over one employee's
        rows when `employeeId` is truthy. */
    method GetStatistics(employeeId: Option<string>) returns (s: Statistics)
      ensures var scope := if Truthy(employeeId) then Filter(rows, (r: Request) => r.employeeId == employeeId.value) else rows;
        s == CountStatistics(scope)
      ensures !Truthy(employeeId) ==> s.total == |rows|
    {
      var scope := if Truthy(employeeId) then Filter(rows, (r: Request) => r.employeeId == employeeId.value) else rows;
      s := CountStatistics(scope);
    }

    /** `checkDuplicate(employeeId, payrollDate)`: rows for the same employee and day. */
    method CheckDuplicate(employeeId: string, payrollDate: int) returns (result: seq<Request>)
      ensures forall r :: r in result <==> r in rows && r.employeeId == employeeId && r.payrollDate == payrollDate
      ensures |result| <= |rows|
    {
      result := Filter(rows, (r: Request) => r.employeeId == employeeId && r.payrollDate == payrollDate);
    }

    /** `insertRequest(data)`: a new pending row. The PostgreSQL statement
        writes six columns and drops `employee_name`; Supabase inserts the whole object. */
    method InsertRequest(employeeId: string, employeeName: Option<string>, payrollDate: int,
                         hours: int, minutes: int, reason: string, projectsAffected: string)
      returns (r: Request)
      requires Valid()
      modifies this
      ensures Valid()
      ensures rows == old(rows) + [r] && settings == old(settings)
      ensures r.id == old(nextId) && r.createdAt == r.id as int
      ensures r.employeeId == employeeId && r.payrollDate == payrollDate && r.hours == hours
      ensures r.minutes == Some(minutes) && r.reason == reason && r.projectsAffected == projectsAffected
      ensures r.employeeName == (if backend == Postgres then None else employeeName)
      ensures r.approvedBy.None? && r.approvedAt.None? && r.rejectReason.None?
      ensures old(AllResolved()) ==> AllResolved()
    {
      r := Request(nextId, employeeId, if backend == Postgres then None else employeeName,
                   payrollDate, hours, Some(minutes), reason, projectsAffected,
                   None, None, None, nextId as int);
      rows := rows + [r];
      nextId := nextId + 1;
    }

    /** `updateRequest(id, updates)`. PostgreSQL returns `rows[0]`, which is
        `undefined` when no row has the id; Supabase's `.single()` raises. */
    method UpdateRequest(id: nat, u: Updates) returns (result: Result<Option<Request>, DbError>)
      requires Valid() && HasField(u)
      modifies this
      ensures Valid() && settings == old(settings) && nextId == old(nextId)
      ensures match IndexOfId(old(rows), id)
        case Some(k) =>
          rows == old(rows)[k := ApplyUpdates(old(rows)[k], u)] && result == Ok(Some(rows[k]))
        case None =>
          rows == old(rows)
          && result == (if backend == Postgres then Ok(None) else Err(NoSingleRow))
    {
      var k := IndexOfId(rows, id);
      if k.Some? {
        var updated := ApplyUpdates(rows[k.value], u);
        rows := rows[k.value := updated];
        result := Ok(Some(updated));
      } else {
        result := if backend == Postgres then Ok(None) else Err(NoSingleRow);
      }
    }

    /** `approveRequest(id, approvedBy)`: record the approver and the time, clear any rejection. */
    method ApproveRequest(id: nat, approvedBy: string, now: int) returns (result: Result<Option<Request>, DbError>)
      requires Valid()
      modifies this
      ensures Valid() && settings == old(settings)
      ensures match IndexOfId(old(rows), id)
        case Some(k) =>
          rows == old(rows)[k := old(rows)[k].(approvedBy := Some(approvedBy), approvedAt := Some(now), rejectReason := None)]
          && result == Ok(Some(rows[k])) && SqlApproved(rows[k])
        case None => rows == old(rows) && result.Ok? == (backend == Postgres)
      ensures old(AllResolved()) ==> AllResolved()
    {
      result := UpdateRequest(id, Updates(Some(Some(approvedBy)), Some(Some(now)), Some(None)));
    }

    /** `rejectRequest(id, rejectedBy, reason)`: the rejecter goes into
        `approved_by`; `approved_at` is left as it was. */
    method RejectRequest(id: nat, rejectedBy: string, reason: string) returns (result: Result<Option<Request>, DbError>)
      requires Valid()
      modifies this
      ensures Valid() && settings == old(settings)
      ensures match IndexOfId(old(rows), id)
        case Some(k) =>
          rows == old(rows)[k := old(rows)[k].(approvedBy := Some(rejectedBy), rejectReason := Some(reason))]
          && result == Ok(Some(rows[k])) && SqlRejected(rows[k]) && !SqlPending(rows[k])
        case None => rows == old(rows) && result.Ok? == (backend == Postgres)
      ensures old(AllResolved()) ==> AllResolved()
    {
      result := UpdateRequest(id, Updates(Some(Some(rejectedBy)), None, Some(Some(reason))));
    }

    /** `getSetting(key)`: the row or null (PGRST116 is read as null). */
    method GetSetting(key: string) returns (s: Option<Setting>)
      requires Valid()
      ensures s.Some? <==> key in settings
      ensures s.Some? ==> s.value == settings[key] && s.value.key == key
    {
      s := if key in settings then Some(settings[key]) else None;
    }

    /** `getAllSettings()`: every row, `ORDER BY key`; built by taking the least remaining key each step. */
    method GetAllSettings() returns (all: seq<Setting>)
      requires Valid()
      ensures SortedByKey(all)
      ensures forall s :: s in all <==> s.key in settings && settings[s.key] == s
      ensures |all| == |settings.Keys|
    {
      all := [];
      var remaining := settings.Keys;
      while remaining != {}
        invariant remaining <= settings.Keys
        invariant SortedByKey(all)
        invariant |all| + |remaining| == |settings.Keys|
        invariant forall i :: 0 <= i < |all| ==> all[i].key in settings && all[i].key !in remaining && settings[all[i].key] == all[i]
        invariant forall k :: k in settings && k !in remaining ==> settings[k] in all
        invariant forall i, k :: 0 <= i < |all| && k in remaining ==> LexLess(all[i].key, k)
        decreases |remaining|
      {
        MinKeyExists(remaining);
        var m :| m in remaining && forall k :: k in remaining && k != m ==> LexLess(m, k);
        all := all + [settings[m]];
        remaining := remaining - {m};
      }
    }

    /** `upsertSetting(key, value, description)`. On PostgreSQL an existing row keeps
        its description when none is given (`COALESCE`); Supabase overwrites it. */
    method UpsertSetting(key: string, value: string, description: Option<string>) returns (s: Setting)
      requires Valid()
      modifies this
      ensures Valid() && rows == old(rows) && nextId == old(nextId)
      ensures settings == old(settings)[key := s]
      ensures s.key == key && s.value == value
      ensures s.description ==
        (if backend == Postgres && description.None? && key in old(settings) then old(settings)[key].description
         else description)
    {
      var desc := description;
      if backend == Postgres && description.None? && key in settings {
        desc := settings[key].description;
      }
      s := Setting(key, value, desc);
      settings := settings[key := s];
    }

    /** `deleteSetting(key)`: removes the row if present. */
    method DeleteSetting(key: string)
      requires Valid()
      modifies this
      ensures Valid() && rows == old(rows) && nextId == old(nextId)
      ensures settings == old(settings) - {key}
    {
      settings := settings - {key};
    }
  }
}
