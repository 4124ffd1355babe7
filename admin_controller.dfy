/** `AdminController`: the admin endpoints over the activity log and the
    scheduler. Query-string values are read as given (None when absent);
    `parseInt` is modelled for the strings it sees here. */
module AdminController {
  import opened Common
  import opened Http
  import ActivityLogService
  import SchedulerService
  import Database
  import Requests
  import EmailTemplates

  type Num = ActivityLogService.Num
  type AppError = SchedulerService.AppError

  /** The value of a digit character in the radix, if it is one. */
  function DigitValue(c: char, radix: nat): Option<nat>
  {
    var v: int :=
      if '0' <= c <= '9' then c as int - '0' as int
      else if 'a' <= c <= 'z' then c as int - 'a' as int + 10
      else if 'A' <= c <= 'Z' then c as int - 'A' as int + 10
      else 36;
    if v < radix then Some(v) else None
  }

  /** The longest prefix made of digits of the radix. */
  function DigitPrefix(s: string, radix: nat): (p: string)
    ensures |p| <= |s| && p == s[..|p|]
    ensures forall i :: 0 <= i < |p| ==> DigitValue(p[i], radix).Some?
    ensures |p| < |s| ==> DigitValue(s[|p|], radix).None?
    decreases |s|
  {
    if s != [] && DigitValue(s[0], radix).Some? then [s[0]] + DigitPrefix(s[1..], radix) else []
  }

  /** The number the digits denote, most significant first. */
  function Value(ds: string, radix: nat): nat
  {
    if ds == [] then 0
    else
      var d := DigitValue(ds[|ds| - 1], radix);
      radix * Value(ds[..|ds| - 1], radix) + (if d.Some? then d.value else 0)
  }

  /** `parseInt(s)` without a radix: leading white space, an optional sign,
      a `0x` prefix selecting hexadecimal, then the longest run of digits;
      NaN when there is none. */
  function ParseInt(s: string): (n: Num)
    ensures n.NaN? <==>
            var t := TrimStart(s);
            var u := if t != [] && (t[0] == '-' || t[0] == '+') then t[1..] else t;
            var hex := |u| >= 2 && u[0] == '0' && (u[1] == 'x' || u[1] == 'X');
            DigitPrefix(if hex then u[2..] else u, if hex then 16 else 10) == []
  {
    var t := TrimStart(s);
    var negative := t != [] && t[0] == '-';
    var u := if t != [] && (t[0] == '-' || t[0] == '+') then t[1..] else t;
    var hex := |u| >= 2 && u[0] == '0' && (u[1] == 'x' || u[1] == 'X');
    var radix := if hex then 16 else 10;
    var ds := DigitPrefix(if hex then u[2..] else u, radix);
    var magnitude: int := Value(ds, radix);
    if ds == [] then ActivityLogService.NaN
    else ActivityLogService.Int(if negative then -magnitude else magnitude)
  }

  /** Decimal digits read in radix 10 give the value `NatToString` encodes. */
  lemma {:induction false} DecimalValue(ds: string)
    requires forall i :: 0 <= i < |ds| ==> '0' <= ds[i] <= '9'
    ensures Value(ds, 10) == EmailTemplates.DigitsValue(ds)
  {
    if ds != [] {
      DecimalValue(ds[..|ds| - 1]);
    }
  }

  /** A run of decimal digits is its own digit prefix. */
  lemma {:induction false} AllDigitsPrefix(ds: string)
    requires forall i :: 0 <= i < |ds| ==> '0' <= ds[i] <= '9'
    ensures DigitPrefix(ds, 10) == ds
    decreases |ds|
  {
    if ds != [] {
      AllDigitsPrefix(ds[1..]);
    }
  }

  /** A non-empty run of decimal digits parses to its value. */
  lemma DigitsParse(ds: string)
    requires ds != [] && forall i :: 0 <= i < |ds| ==> '0' <= ds[i] <= '9'
    ensures ParseInt(ds) == ActivityLogService.Int(Value(ds, 10))
  {
    assert !JsSpace(ds[0]);
    var t := TrimStart(ds);
    assert t == ds;
    assert !(t != [] && (t[0] == '-' || t[0] == '+'));
    var hex := |ds| >= 2 && ds[0] == '0' && (ds[1] == 'x' || ds[1] == 'X');
    assert !hex;
    AllDigitsPrefix(ds);
  }

  /** `parseInt` reads back every decimal number: `parseInt(String(n)) == n`. */
  lemma ParseIntDecimal(n: nat)
    ensures ParseInt(EmailTemplates.NatToString(n)) == ActivityLogService.Int(n)
  {
    var s := EmailTemplates.NatToString(n);
    DigitsParse(s);
    DecimalValue(s);
    EmailTemplates.NatToStringValue(n);
  }

  /** The query string of `GET /api/admin/activity-logs`. */
  datatype LogQuery = LogQuery(activityType: Option<string>, status: Option<string>, limit: Option<string>, offset: Option<string>)

  /** The filters the handler builds: empty strings become null, and a
      falsy limit or offset takes the default 100 or 0. */
  function Filters(q: LogQuery): (f: ActivityLogService.ActivityFilters)
    ensures f.activityType == (if Truthy(q.activityType) then q.activityType else None)
    ensures f.status == (if Truthy(q.status) then q.status else None)
    ensures f.limit.Some? && f.offset.Some?
    ensures !Truthy(q.limit) ==> f.limit == Some(ActivityLogService.Int(100))
    ensures !Truthy(q.offset) ==> f.offset == Some(ActivityLogService.Int(0))
    ensures Truthy(q.limit) ==> f.limit == Some(ParseInt(q.limit.value))
    ensures Truthy(q.offset) ==> f.offset == Some(ParseInt(q.offset.value))
  {
    ActivityLogService.ActivityFilters(
      if Truthy(q.activityType) then q.activityType else None,
      if Truthy(q.status) then q.status else None,
      Some(if Truthy(q.limit) then ParseInt(q.limit.value) else ActivityLogService.Int(100)),
      Some(if Truthy(q.offset) then ParseInt(q.offset.value) else ActivityLogService.Int(0)))
  }

  /** The body of a successful listing: the rows, their number and the filters used. */
  datatype LogsReply = LogsReply(count: nat, data: seq<ActivityLogService.LogEntry>, filters: ActivityLogService.ActivityFilters)

  /** `getActivityLogs`: the recent activities under the built filters; a
      failed query goes to `next(error)`. */
  method GetActivityLogs(log: ActivityLogService.ActivityLog, q: LogQuery) returns (out: Handled<LogsReply, string>)
    ensures match ActivityLogService.Recent(log.entries, Filters(q))
            case Ok(rows) => out == Respond(LogsReply(|rows|, rows, Filters(q)))
            case Err(e) => out == Forward(e)
  {
    var filters := Filters(q);
    var activities := log.GetRecentActivities(filters);
    match activities
    case Ok(rows) => out := Respond(LogsReply(|rows|, rows, filters));
    case Err(e) => out := Forward(e);
  }

  /** A listing returns at most `limit` rows, newest first, each matching
      the filters; count is the number of rows. A limit that is not a
      number makes the query fail. */
  lemma LogsListing(entries: seq<ActivityLogService.LogEntry>, q: LogQuery)
    requires ActivityLogService.Increasing(entries)
    ensures var f := Filters(q);
            match ActivityLogService.Recent(entries, f)
            case Ok(rows) =>
              f.limit.value.Int? && |rows| <= f.limit.value.i && ActivityLogService.Decreasing(rows)
              && forall e :: e in rows ==> e in entries && ActivityLogService.MatchesActivity(f, e)
            case Err(_) => true
    ensures Truthy(q.limit) && ParseInt(q.limit.value).NaN? ==> ActivityLogService.Recent(entries, Filters(q)).Err?
    ensures !Truthy(q.limit) && !Truthy(q.offset) ==> ActivityLogService.Recent(entries, Filters(q)).Ok?
  {
    ActivityLogService.RecentSelects(entries, Filters(q));
  }

  /** The filters of `?limit=N` use N. */
  lemma LimitParsed(n: nat)
    ensures Filters(LogQuery(None, None, Some(EmailTemplates.NatToString(n)), None)).limit == Some(ActivityLogService.Int(n))
  {
    ParseIntDecimal(n);
    assert |EmailTemplates.NatToString(n)| >= 1;
  }

  /** `getSchedulerStatus`: the jobs' status as the scheduler reports it. */
  method GetSchedulerStatus(s: SchedulerService.Scheduler) returns (out: Handled<map<string, SchedulerService.JobStatus>, AppError>)
    ensures out.Respond? && out.body.Keys == s.jobs.Keys
    ensures forall name :: name in s.jobs ==>
              out.body[name] == SchedulerService.JobStatus(s.jobs[name].running == Some(true), true)
  {
    var status := s.GetJobsStatus();
    out := Respond(status);
  }

  /** The body of `POST /api/admin/scheduler/trigger-daily-reminder`. */
  datatype TriggerReply = TriggerReply(message: string, triggeredBy: string, timestamp: string)

  const TriggerMessage := "Daily reminder triggered successfully. Check activity logs for results."

  /** `triggerDailyReminder`: starts the reminder without waiting for it and
      answers at once, so the reply is the same whatever the run does; the
      run's effect on the log is the reminder's own. `now` is the clock. */
  method TriggerDailyReminder(user: SessionUser, now: string, t: Database.RequestTable,
                              hr: Result<seq<string>, AppError>,
                              byDesignation: string -> Result<seq<string>, AppError>,
                              log: ActivityLogService.ActivityLog)
    returns (out: TriggerReply, mail: Option<SchedulerService.ReminderMail>)
    requires log.Valid()
    modifies log
    ensures out == TriggerReply(TriggerMessage, user.email, now)
    ensures log.Valid()
    ensures var pending := Filter(t.rows, Requests.SqlPending);
            var o := SchedulerService.RunOutcome(pending, SchedulerService.GetAllApprovers(hr, byDesignation));
            (mail.Some? <==> o.Reminded?)
            && log.entries == old(log.entries) + (if log.available then [SchedulerService.OutcomeRecord(old(log.nextId), o)] else [])
  {
    mail := SchedulerService.SendDailyReminder(t, hr, byDesignation, log);
    out := TriggerReply(TriggerMessage, user.email, now);
  }
}
