/** `ActivityLogService`: the `activity_log` table and the helpers that
    write cron, notification and submission events to it, and the query
    builder of `getRecentActivities`. The table is a field of an
    `ActivityLog` object; `available` says whether the database accepts the
    statement, since a failed insert is swallowed. `config/dbAdapter.js`,
    whose `query` runs the statements, is not part of this model: its
    statements are read as PostgreSQL would read them. */
module ActivityLogService {
  import opened Common
  import opened Http
  import EmailTemplates
  import N8nService

  // Activity types
  const CronJob := "cron_job"
  const NotificationSent := "notification_sent"
  const DailyReminder := "daily_reminder"
  const RequestSubmitted := "request_submitted"

  // Statuses
  const Success := "success"
  const Failed := "failed"
  const Info := "info"

  /** One row of `activity_log`; `id` is also the `created_at` order. */
  datatype LogEntry = LogEntry(
    id: nat,
    activityType: string,
    description: string,
    details: Option<Json>,
    status: string,
    performedBy: string,
    requestId: Option<nat>)

  /** The `options` object of `log`; None is an absent key. */
  datatype LogOptions = LogOptions(details: Option<Json>, status: Option<string>, performedBy: Option<string>, requestId: Option<nat>)

  /** A destructuring default: it applies to an absent key only. */
  function Default(o: Option<string>, d: string): (r: string)
    ensures o.None? ==> r == d
    ensures o.Some? ==> r == o.value
  {
    if o.Some? then o.value else d
  }

  /** The row `log` inserts: status `success`, performer `system` and no
      request unless given; details kept only when truthy. */
  function Record(id: nat, activityType: string, description: string, o: LogOptions): (e: LogEntry)
    ensures e.id == id && e.activityType == activityType && e.description == description
    ensures e.status == Default(o.status, Success) && e.performedBy == Default(o.performedBy, "system")
    ensures e.requestId == o.requestId
    ensures e.details == if N8nService.JsonTruthy(o.details) then o.details else None
  {
    LogEntry(id, activityType, description, if N8nService.JsonTruthy(o.details) then o.details else None,
             Default(o.status, Success), Default(o.performedBy, "system"), o.requestId)
  }

  /** The given fields with the error message after them, and the stack when there is one. */
  function FailureDetails(details: seq<(string, Json)>, message: string, stack: Option<string>): (d: Json)
    ensures Field(d, "error") == Some(JStr(message))
    ensures forall k :: k != "error" && k != "stack" ==> Field(d, k) == Lookup(details, k)
  {
    var withError := details + [("error", JStr(message))];
    LookupAppend(details, "error", JStr(message));
    if stack.Some? then
      LookupAppend(withError, "stack", JStr(stack.value));
      JObj(withError + [("stack", JStr(stack.value))])
    else JObj(withError)
  }

  /** A key added at the end is found; any other key is looked up as before. */
  lemma LookupAppend(fields: seq<(string, Json)>, k: string, v: Json)
    ensures Lookup(fields + [(k, v)], k) == Some(v)
    ensures forall k' :: k' != k ==> Lookup(fields + [(k, v)], k') == Lookup(fields, k')
  {
    assert (fields + [(k, v)])[..|fields|] == fields;
  }

  function Quoted(s: string): string
  {
    "\"" + s + "\""
  }

  function Strings(xs: seq<string>): (j: Json)
    ensures j.JArr? && |j.items| == |xs| && forall i :: 0 <= i < |xs| ==> j.items[i] == JStr(xs[i])
  {
    JArr(seq(|xs|, i requires 0 <= i < |xs| => JStr(xs[i])))
  }

  /** The details of `logNotificationSent`. */
  function NotificationDetails(recipients: seq<string>, subject: string, notificationType: Option<string>): (d: Json)
    ensures Field(d, "recipientCount") == Some(JNum(|recipients| as real))
    ensures Field(d, "notificationType") == Some(JStr(Default(notificationType, "general")))
    ensures Field(d, "recipients") == Some(Strings(recipients))
  {
    var fields := [("recipients", Strings(recipients)), ("recipientCount", JNum(|recipients| as real)),
                   ("subject", JStr(subject)), ("notificationType", JStr(Default(notificationType, "general")))];
    assert fields[..3][..2] == fields[..2] && fields[..2][..1] == fields[..1];
    assert Lookup(fields[..2], "recipientCount") == Some(JNum(|recipients| as real));
    assert Lookup(fields[..1], "recipients") == Some(Strings(recipients));
    JObj(fields)
  }

  /** The details of `logDailyReminder`. */
  function ReminderDetails(approvers: seq<string>, pendingCount: nat): (d: Json)
    ensures Field(d, "approverCount") == Some(JNum(|approvers| as real))
    ensures Field(d, "pendingRequestCount") == Some(JNum(pendingCount as real))
  {
    var fields := [("approvers", Strings(approvers)), ("approverCount", JNum(|approvers| as real)),
                   ("pendingRequestCount", JNum(pendingCount as real))];
    assert Lookup(fields[..2], "approverCount") == Some(JNum(|approvers| as real));
    JObj(fields)
  }

  /** The row of `logCronJobSuccess`. */
  function CronSuccessRecord(id: nat, jobName: string, details: Json): (e: LogEntry)
    ensures e.activityType == CronJob && e.status == Success && e.performedBy == "system:cron" && e.requestId.None?
  {
    Record(id, CronJob, "Cron job " + Quoted(jobName) + " executed successfully",
           LogOptions(Some(details), Some(Success), Some("system:cron"), None))
  }

  /** The row of `logCronJobFailure`: failed, with the message under `error`. */
  function CronFailureRecord(id: nat, jobName: string, message: string, stack: Option<string>, details: seq<(string, Json)>): (e: LogEntry)
    ensures e.activityType == CronJob && e.status == Failed && e.performedBy == "system:cron"
    ensures e.description == "Cron job " + Quoted(jobName) + " failed: " + message
    ensures e.details.Some? && Field(e.details.value, "error") == Some(JStr(message))
  {
    Record(id, CronJob, "Cron job " + Quoted(jobName) + " failed: " + message,
           LogOptions(Some(FailureDetails(details, message, stack)), Some(Failed), Some("system:cron"), None))
  }

  /** The row of `logDailyReminder`: status `success` iff the flag is set. */
  function DailyReminderRecord(id: nat, approvers: seq<string>, pendingCount: nat, success: bool): (e: LogEntry)
    ensures e.activityType == DailyReminder && e.performedBy == "system:daily-reminder"
    ensures e.status == Success <==> success
    ensures e.details.Some? && Field(e.details.value, "approverCount") == Some(JNum(|approvers| as real))
  {
    Record(id, DailyReminder,
           "Daily reminder sent to " + EmailTemplates.NatToString(|approvers|) + " approver(s) for "
           + EmailTemplates.NatToString(pendingCount) + " pending request(s)",
           LogOptions(Some(ReminderDetails(approvers, pendingCount)),
                      Some(if success then Success else Failed), Some("system:daily-reminder"), None))
  }

  /** `limit`/`offset` values: a number, or `NaN` from a failed `parseInt`. */
  datatype Num = Int(i: int) | NaN

  /** The filters of `getRecentActivities`; None is an absent key. */
  datatype ActivityFilters = ActivityFilters(activityType: Option<string>, status: Option<string>, limit: Option<Num>, offset: Option<Num>)

  function LimitOf(f: ActivityFilters): Num { if f.limit.Some? then f.limit.value else Int(100) }

  function OffsetOf(f: ActivityFilters): Num { if f.offset.Some? then f.offset.value else Int(0) }

  datatype LogColumn = TypeColumn | StatusColumn

  /** One term of the statement: an `AND col = $n`, or the `LIMIT $n` / `OFFSET $n` tail. */
  datatype Term = Equals(col: LogColumn, n: nat) | Limit(n: nat) | Offset(n: nat)

  datatype Param = PText(s: string) | PNum(v: Num)

  function ColumnText(c: LogColumn, e: LogEntry): string
  {
    match c
    case TypeColumn => e.activityType
    case StatusColumn => e.status
  }

  /** The WHERE clause: every equality term holds for its bound parameter. */
  predicate Where(terms: seq<Term>, params: seq<Param>, e: LogEntry)
  {
    forall i :: 0 <= i < |terms| && terms[i].Equals? ==>
      1 <= terms[i].n <= |params| && params[terms[i].n - 1] == PText(ColumnText(terms[i].col, e))
  }

  /** The rows the filters select, independent of how the query is built. */
  predicate MatchesActivity(f: ActivityFilters, e: LogEntry)
  {
    (Truthy(f.activityType) ==> e.activityType == f.activityType.value)
    && (Truthy(f.status) ==> e.status == f.status.value)
  }

  /** Every term uses the placeholder of its position: `$1 ... $n`, one parameter each. */
  predicate Numbered(terms: seq<Term>, params: seq<Param>)
  {
    |terms| == |params| && forall i :: 0 <= i < |terms| ==> terms[i].n == i + 1
  }

  /** The statement of `getRecentActivities`, built term by term with `paramIndex`. */
  method BuildActivityQuery(f: ActivityFilters) returns (terms: seq<Term>, params: seq<Param>)
    ensures Numbered(terms, params)
    ensures |terms| >= 2 && terms[|terms| - 2].Limit? && terms[|terms| - 1].Offset?
    ensures forall i :: 0 <= i < |terms| - 2 ==> terms[i].Equals?
    ensures params[|params| - 2] == PNum(LimitOf(f)) && params[|params| - 1] == PNum(OffsetOf(f))
    ensures forall e :: Where(terms, params, e) <==> MatchesActivity(f, e)
  {
    var activityType := f.activityType;
    var status := f.status;
    var limit := LimitOf(f);
    var offset := OffsetOf(f);
    terms, params := [], [];
    var paramIndex: nat := 1;
    if Truthy(activityType) {
      terms := terms + [Equals(TypeColumn, paramIndex)];
      params := params + [PText(activityType.value)];
      paramIndex := paramIndex + 1;
    }
    assert paramIndex == |params| + 1 && Numbered(terms, params);
    if Truthy(status) {
      terms := terms + [Equals(StatusColumn, paramIndex)];
      params := params + [PText(status.value)];
      paramIndex := paramIndex + 1;
    }
    assert paramIndex == |params| + 1 && Numbered(terms, params);
    var filters := terms;
    terms := terms + [Limit(paramIndex), Offset(paramIndex + 1)];
    params := params + [PNum(limit), PNum(offset)];
    forall e ensures Where(terms, params, e) <==> MatchesActivity(f, e) {
      if Truthy(activityType) {
        assert terms[0] == Equals(TypeColumn, 1);
      }
      if Truthy(status) {
        var k := if Truthy(activityType) then 1 else 0;
        assert terms[k] == Equals(StatusColumn, k + 1);
      }
    }
  }

  /** `xs[offset .. offset + limit]`, clipped to the list. */
  function Page<T>(xs: seq<T>, offset: nat, limit: nat): (p: seq<T>)
    ensures |p| <= limit
    ensures offset <= |xs| ==> p == xs[offset..if offset + limit <= |xs| then offset + limit else |xs|]
    ensures offset >= |xs| ==> p == []
  {
    var lo := if offset <= |xs| then offset else |xs|;
    var hi := if offset + limit <= |xs| then offset + limit else |xs|;
    xs[lo..hi]
  }

  /** A LIMIT or OFFSET parameter PostgreSQL accepts: a non-negative integer. */
  predicate Count(p: Param)
  {
    p.PNum? && p.v.Int? && p.v.i >= 0
  }

  /** What the statement returns: the selected rows, newest first, paged;
      a `NaN` or negative limit or offset makes the statement fail. */
  function Run(entries: seq<LogEntry>, terms: seq<Term>, params: seq<Param>): (r: Result<seq<LogEntry>, string>)
    requires Numbered(terms, params) && |terms| >= 2 && terms[|terms| - 2].Limit? && terms[|terms| - 1].Offset?
  {
    var limit, offset := params[|params| - 2], params[|params| - 1];
    if !Count(limit) || !Count(offset) then Err("invalid LIMIT or OFFSET")
    else Ok(Page(Reverse(Filter(entries, e => Where(terms, params, e))), offset.v.i, limit.v.i))
  }

  /** The reference meaning of `getRecentActivities(filters)`. */
  function Recent(entries: seq<LogEntry>, f: ActivityFilters): Result<seq<LogEntry>, string>
  {
    var limit, offset := LimitOf(f), OffsetOf(f);
    if !(limit.Int? && limit.i >= 0) || !(offset.Int? && offset.i >= 0) then Err("invalid LIMIT or OFFSET")
    else Ok(Page(Reverse(Filter(entries, e => MatchesActivity(f, e))), offset.i, limit.i))
  }

  /** Ids strictly increase along the list: insertion order. */
  predicate Increasing(entries: seq<LogEntry>)
  {
    forall i, j :: 0 <= i < j < |entries| ==> entries[i].id < entries[j].id
  }

  /** Ids strictly decrease along the list: newest first. */
  predicate Decreasing(entries: seq<LogEntry>)
  {
    forall i, j :: 0 <= i < j < |entries| ==> entries[i].id > entries[j].id
  }

  /** Filtering keeps the insertion order. */
  lemma {:induction false} FilterIncreasing(xs: seq<LogEntry>, p: LogEntry -> bool)
    requires Increasing(xs)
    ensures Increasing(Filter(xs, p))
    ensures forall e :: e in Filter(xs, p) ==> e in xs
    decreases |xs|
  {
    if xs != [] {
      assert Increasing(xs[1..]);
      FilterIncreasing(xs[1..], p);
      var rest := Filter(xs[1..], p);
      forall e | e in rest ensures xs[0].id < e.id {
        var k :| 0 <= k < |xs[1..]| && xs[1..][k] == e;
        assert xs[k + 1] == e;
      }
    }
  }

  /** A request that fails is one whose limit or offset is not a
      non-negative integer; one that succeeds returns at most `limit`
      selected rows, newest first. */
  lemma RecentSelects(entries: seq<LogEntry>, f: ActivityFilters)
    requires Increasing(entries)
    ensures Recent(entries, f).Err? <==> !(LimitOf(f).Int? && LimitOf(f).i >= 0) || !(OffsetOf(f).Int? && OffsetOf(f).i >= 0)
    ensures Recent(entries, f).Ok? ==>
              var r := Recent(entries, f).value;
              |r| <= LimitOf(f).i && Decreasing(r)
              && forall e :: e in r ==> e in entries && MatchesActivity(f, e)
  {
    var selected := Filter(entries, e => MatchesActivity(f, e));
    FilterIncreasing(entries, e => MatchesActivity(f, e));
    var newest := Reverse(selected);
    assert Decreasing(newest);
    ReverseMembers(selected);
    var limit, offset := LimitOf(f), OffsetOf(f);
    if limit.Int? && limit.i >= 0 && offset.Int? && offset.i >= 0 {
      PageOfDecreasing(newest, offset.i, limit.i);
    }
  }

  /** A page of a newest-first list is newest first and holds only its rows. */
  lemma PageOfDecreasing(xs: seq<LogEntry>, offset: nat, limit: nat)
    requires Decreasing(xs)
    ensures Decreasing(Page(xs, offset, limit))
    ensures forall e :: e in Page(xs, offset, limit) ==> e in xs
  {
    var p := Page(xs, offset, limit);
    if offset <= |xs| {
      var hi := if offset + limit <= |xs| then offset + limit else |xs|;
      assert forall i :: 0 <= i < |p| ==> p[i] == xs[offset + i];
    }
  }

  /** With no filters, the default page is the 100 newest rows. */
  lemma DefaultPage(entries: seq<LogEntry>)
    ensures var f := ActivityFilters(None, None, None, None);
            Recent(entries, f) == Ok(Page(Reverse(entries), 0, 100))
  {
    var f := ActivityFilters(None, None, None, None);
    FilterAll(entries, e => MatchesActivity(f, e));
  }

  /** The defaults of `log` apply to absent options only: an empty status or
      performer is stored as given, while falsy details are dropped. */
  lemma DefaultsOnlyWhenAbsent(id: nat, activityType: string, description: string)
    ensures Record(id, activityType, description, LogOptions(None, None, None, None)).status == Success
    ensures Record(id, activityType, description, LogOptions(None, None, None, None)).performedBy == "system"
    ensures Record(id, activityType, description, LogOptions(Some(JStr("")), Some(""), Some(""), None))
            == LogEntry(id, activityType, description, None, "", "", None)
    ensures Record(id, activityType, description, LogOptions(Some(JNum(0.0)), None, None, None)).details == None
  {
  }

  /** The table of logged activities. */
  class ActivityLog {
    var entries: seq<LogEntry>
    var nextId: nat
    var available: bool

    ghost predicate Valid()
      reads this
    {
      Increasing(entries) && forall i :: 0 <= i < |entries| ==> entries[i].id < nextId
    }

    constructor (available: bool)
      ensures Valid() && entries == [] && this.available == available
    {
      entries := [];
      nextId := 1;
      this.available := available;
    }

    /** `log`: inserts a row, or swallows the failure and returns null. */
    method Log(activityType: string, description: string, o: LogOptions) returns (entry: Option<LogEntry>)
      requires Valid()
      modifies this
      ensures Valid() && available == old(available)
      ensures !available ==> entry.None? && entries == old(entries) && nextId == old(nextId)
      ensures available ==>
                entry == Some(Record(old(nextId), activityType, description, o))
                && entries == old(entries) + [entry.value] && nextId == old(nextId) + 1
    {
      if !available {
        return None;
      }
      var e := Record(nextId, activityType, description, o);
      entries := entries + [e];
      nextId := nextId + 1;
      entry := Some(e);
    }

    /** `logCronJobSuccess` */
    method LogCronJobSuccess(jobName: string, details: Json) returns (entry: Option<LogEntry>)
      requires Valid()
      modifies this
      ensures Valid() && available == old(available)
      ensures !available ==> entry.None? && entries == old(entries)
      ensures available ==>
                entry.Some? && entries == old(entries) + [entry.value] &&
                entry.value == CronSuccessRecord(old(nextId), jobName, details)
    {
      entry := Log(CronJob, "Cron job " + Quoted(jobName) + " executed successfully",
                   LogOptions(Some(details), Some(Success), Some("system:cron"), None));
    }

    /** `logCronJobFailure`: the given details plus the error message (and stack). */
    method LogCronJobFailure(jobName: string, message: string, stack: Option<string>, details: seq<(string, Json)>)
      returns (entry: Option<LogEntry>)
      requires Valid()
      modifies this
      ensures Valid() && available == old(available)
      ensures !available ==> entry.None? && entries == old(entries)
      ensures available ==>
                entry.Some? && entries == old(entries) + [entry.value] &&
                entry.value == CronFailureRecord(old(nextId), jobName, message, stack, details)
    {
      entry := Log(CronJob, "Cron job " + Quoted(jobName) + " failed: " + message,
                   LogOptions(Some(FailureDetails(details, message, stack)), Some(Failed), Some("system:cron"), None));
    }

    /** `logNotificationSent`: type `general` and status `success` unless given. */
    method LogNotificationSent(recipients: seq<string>, subject: string, requestId: Option<nat>,
                               notificationType: Option<string>, status: Option<string>)
      returns (entry: Option<LogEntry>)
      requires Valid()
      modifies this
      ensures Valid() && available == old(available)
      ensures !available ==> entry.None? && entries == old(entries)
      ensures available ==>
                entry.Some? && entries == old(entries) + [entry.value] &&
                entry.value == Record(old(nextId), NotificationSent,
                                      "Notification sent to " + EmailTemplates.NatToString(|recipients|) + " recipient(s): " + Quoted(subject),
                                      LogOptions(Some(NotificationDetails(recipients, subject, notificationType)),
                                                 Some(Default(status, Success)), Some("system:notification"), requestId))
    {
      entry := Log(NotificationSent,
                   "Notification sent to " + EmailTemplates.NatToString(|recipients|) + " recipient(s): " + Quoted(subject),
                   LogOptions(Some(NotificationDetails(recipients, subject, notificationType)),
                              Some(Default(status, Success)), Some("system:notification"), requestId));
    }

    /** `logDailyReminder`: status `success` iff the flag is set. */
    method LogDailyReminder(approvers: seq<string>, pendingCount: nat, success: bool) returns (entry: Option<LogEntry>)
      requires Valid()
      modifies this
      ensures Valid() && available == old(available)
      ensures !available ==> entry.None? && entries == old(entries)
      ensures available ==>
                entry.Some? && entries == old(entries) + [entry.value] &&
                entry.value == DailyReminderRecord(old(nextId), approvers, pendingCount, success)
    {
      entry := Log(DailyReminder,
                   "Daily reminder sent to " + EmailTemplates.NatToString(|approvers|) + " approver(s) for "
                   + EmailTemplates.NatToString(pendingCount) + " pending request(s)",
                   LogOptions(Some(ReminderDetails(approvers, pendingCount)),
                              Some(if success then Success else Failed), Some("system:daily-reminder"), None));
    }

    /** `logRequestSubmitted`: an `info` row performed by the employee. */
    method LogRequestSubmitted(employeeEmail: string, approvers: seq<string>, requestId: nat) returns (entry: Option<LogEntry>)
      requires Valid()
      modifies this
      ensures Valid() && available == old(available)
      ensures !available ==> entry.None? && entries == old(entries)
      ensures available ==>
                entry.Some? && entries == old(entries) + [entry.value] &&
                entry.value.activityType == RequestSubmitted && entry.value.status == Info
                && entry.value.performedBy == employeeEmail && entry.value.requestId == Some(requestId)
                && entry.value.description == "Request #" + EmailTemplates.NatToString(requestId) + " submitted by " + employeeEmail
                                              + ", notified " + EmailTemplates.NatToString(|approvers|) + " approver(s)"
    {
      entry := Log(RequestSubmitted,
                   "Request #" + EmailTemplates.NatToString(requestId) + " submitted by " + employeeEmail
                   + ", notified " + EmailTemplates.NatToString(|approvers|) + " approver(s)",
                   LogOptions(Some(JObj([("employee", JStr(employeeEmail)), ("approvers", Strings(approvers)),
                                         ("approverCount", JNum(|approvers| as real))])),
                              Some(Info), Some(employeeEmail), Some(requestId)));
    }

    /** `getRecentActivities(filters)`: the built statement run on the table,
        which is the reference selection; a failed statement is rethrown. */
    method GetRecentActivities(f: ActivityFilters) returns (result: Result<seq<LogEntry>, string>)
      ensures result == Recent(entries, f)
    {
      var terms, params := BuildActivityQuery(f);
      FilterExt(entries, e => Where(terms, params, e), e => MatchesActivity(f, e));
      result := Run(entries, terms, params);
    }
  }
}
