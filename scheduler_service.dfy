/** `SchedulerService`: the registry of cron jobs and the workday reminder
    that mails every approver the list of pending requests. The cron library
    is not modelled: a job is what was registered, and whether the library
    reports it running is given. The lookups of HR staff and coordinators are
    inputs (the n8n answers as `N8nService.StaffEmails` shapes them). */
module SchedulerService {
  import opened Common
  import opened Requests
  import opened Http
  import Database
  import RequestService
  import ActivityLogService
  import EmailTemplates

  type AppError = RequestService.AppError

  const DailyReminderJob := "daily_reminder"
  const DailySchedule := "0 8 * * 1-5"
  const Timezone := "Asia/Manila"

  /** A registered cron job; `running` is the library's flag, possibly unset. */
  datatype Job = Job(schedule: string, timezone: string, running: Option<bool>)

  /** One entry of `getJobsStatus()`. */
  datatype JobStatus = JobStatus(running: bool, scheduled: bool)

  /** `[...new Set([...hr, ...pc, ...lead])]` after the three lookups, which
      run in turn; the first failure is rethrown. */
  function GetAllApprovers(hr: Result<seq<string>, AppError>, byDesignation: string -> Result<seq<string>, AppError>)
    : (r: Result<seq<string>, AppError>)
    ensures hr.Err? ==> r == Err(hr.error)
    ensures hr.Ok? && byDesignation("Project Coordinator").Err? ==> r == Err(byDesignation("Project Coordinator").error)
    ensures hr.Ok? && byDesignation("Project Coordinator").Ok? && byDesignation("Lead Project Coordinator").Err? ==>
              r == Err(byDesignation("Lead Project Coordinator").error)
    ensures r.Ok? ==> NoDup(r.value)
    ensures r.Ok? ==> hr.Ok? && forall m :: m in r.value <==>
              m in hr.value || m in byDesignation("Project Coordinator").value || m in byDesignation("Lead Project Coordinator").value
  {
    match hr
    case Err(e) => Err(e)
    case Ok(hrStaff) =>
      match byDesignation("Project Coordinator")
      case Err(e) => Err(e)
      case Ok(coordinators) =>
        match byDesignation("Lead Project Coordinator")
        case Err(e) => Err(e)
        case Ok(leads) =>
          DedupSpec(hrStaff + coordinators + leads);
          Ok(Dedup(hrStaff + coordinators + leads))
  }

  /** The cells of one table row of the reminder e-mail (the date column is
      locale formatting and is left out). */
  datatype ReminderRow = ReminderRow(id: nat, employee: string, kind: string, hours: nat, minutes: int, reason: string)

  /** The row of one request: the name or else the employee id, OT for
      non-negative hours, the size of the hours, and minutes or 0. */
  function Row(r: Request): (row: ReminderRow)
    ensures row.id == r.id && row.reason == r.reason
    ensures row.kind == "OT" <==> r.hours >= 0
    ensures row.kind == "UT" <==> r.hours < 0
    ensures row.hours as int == if r.hours >= 0 then r.hours else -r.hours
    ensures row.employee == if Truthy(r.employeeName) then r.employeeName.value else r.employeeId
    ensures row.minutes == if r.minutes.Some? then r.minutes.value else 0
  {
    ReminderRow(r.id, OrElse(r.employeeName, r.employeeId), if r.hours >= 0 then "OT" else "UT",
                if r.hours >= 0 then r.hours else -r.hours,
                if r.minutes.Some? && r.minutes.value != 0 then r.minutes.value else 0,
                r.reason)
  }

  /** The rows of `formatDailyReminderEmail`, one per request, in order. */
  function FormatRows(pending: seq<Request>): (rows: seq<ReminderRow>)
    ensures |rows| == |pending| && forall i :: 0 <= i < |pending| ==> rows[i] == Row(pending[i])
  {
    seq(|pending|, i requires 0 <= i < |pending| => Row(pending[i]))
  }

  /** The reminder subject names the number of pending requests. */
  function ReminderSubject(count: nat): (s: string)
    ensures var k := |EmailTemplates.NatToString(count)|;
            |s| > 16 + k && s[..16] == "Daily Reminder: " && EmailTemplates.DigitsValue(s[16..16 + k]) == count
  {
    var digits := EmailTemplates.NatToString(count);
    var s := "Daily Reminder: " + digits + " Pending OT/UT Request(s) Awaiting Approval";
    assert s[16..16 + |digits|] == digits;
    EmailTemplates.NatToStringValue(count);
    s
  }

  /** The reminder sent to the approvers. */
  datatype ReminderMail = ReminderMail(to: seq<string>, subject: string, rows: seq<ReminderRow>)

  /** How a run of `sendDailyReminder` ends. */
  datatype Outcome =
    | NothingPending
    | NoApprovers(pendingCount: nat)
    | Reminded(approvers: seq<string>, pendingCount: nat)
    | CronFailed(message: string)

  /** The ending a run reaches from the pending rows and the approver lookup.
      `sendNotification` never throws, so a send is always logged as a
      successful reminder. */
  function RunOutcome(pending: seq<Request>, approvers: Result<seq<string>, AppError>): (o: Outcome)
    ensures o.Reminded? <==> |pending| > 0 && approvers.Ok? && |approvers.value| > 0
    ensures o.CronFailed? <==> |pending| > 0 && approvers.Err?
    ensures o.Reminded? ==> o.approvers == approvers.value && o.pendingCount == |pending|
    ensures o.CronFailed? ==> o.message == approvers.error.message
  {
    if |pending| == 0 then NothingPending
    else if approvers.Err? then CronFailed(approvers.error.message)
    else if |approvers.value| == 0 then NoApprovers(|pending|)
    else Reminded(approvers.value, |pending|)
  }

  /** The activity row that records an ending. */
  function OutcomeRecord(id: nat, o: Outcome): (e: ActivityLogService.LogEntry)
    ensures o.Reminded? ==> e.activityType == ActivityLogService.DailyReminder && e.status == ActivityLogService.Success
    ensures !o.Reminded? ==> e.activityType == ActivityLogService.CronJob
    ensures e.status == ActivityLogService.Failed <==> o.CronFailed?
  {
    match o
    case NothingPending =>
      ActivityLogService.CronSuccessRecord(id, DailyReminderJob,
        JObj([("pendingCount", JNum(0.0)), ("message", JStr("No pending requests to remind about"))]))
    case NoApprovers(n) =>
      ActivityLogService.CronSuccessRecord(id, DailyReminderJob,
        JObj([("pendingCount", JNum(n as real)), ("approverCount", JNum(0.0)),
              ("message", JStr("No approvers found to send reminders"))]))
    case Reminded(approvers, n) =>
      ActivityLogService.DailyReminderRecord(id, approvers, n, true)
    case CronFailed(message) =>
      ActivityLogService.CronFailureRecord(id, DailyReminderJob, message, None, [])
  }

  /** `sendDailyReminder`: reads the pending rows, and when there are any,
      looks up the approvers and mails them; each ending writes one
      activity row (when the log accepts it). */
  method SendDailyReminder(t: Database.RequestTable, hr: Result<seq<string>, AppError>,
                           byDesignation: string -> Result<seq<string>, AppError>,
                           log: ActivityLogService.ActivityLog)
    returns (mail: Option<ReminderMail>)
    requires log.Valid()
    modifies log
    ensures log.Valid() && log.available == old(log.available)
    ensures var pending := Filter(t.rows, SqlPending);
            var o := RunOutcome(pending, GetAllApprovers(hr, byDesignation));
            && (mail.Some? <==> o.Reminded?)
            && (mail.Some? ==> mail.value == ReminderMail(o.approvers, ReminderSubject(|pending|), FormatRows(pending)))
            && log.entries == old(log.entries) + (if log.available then [OutcomeRecord(old(log.nextId), o)] else [])
  {
    var pending := t.GetPendingRequests();
    var entry;
    if |pending| == 0 {
      entry := log.LogCronJobSuccess(DailyReminderJob,
        JObj([("pendingCount", JNum(0.0)), ("message", JStr("No pending requests to remind about"))]));
      return None;
    }
    var approvers := GetAllApprovers(hr, byDesignation);
    mail := RemindApprovers(pending, approvers, log);
  }

  /** The part of `sendDailyReminder` after some pending rows were found:
      a failed approver lookup is a cron failure, an empty one is logged as
      a success with nothing sent, and otherwise one mail goes to them all. */
  method RemindApprovers(pending: seq<Request>, approvers: Result<seq<string>, AppError>,
                         log: ActivityLogService.ActivityLog)
    returns (mail: Option<ReminderMail>)
    requires |pending| > 0 && log.Valid()
    modifies log
    ensures log.Valid() && log.available == old(log.available)
    ensures var o := RunOutcome(pending, approvers);
            && (mail.Some? <==> o.Reminded?)
            && (mail.Some? ==> mail.value == ReminderMail(o.approvers, ReminderSubject(|pending|), FormatRows(pending)))
            && log.entries == old(log.entries) + (if log.available then [OutcomeRecord(old(log.nextId), o)] else [])
  {
    var entry;
    if approvers.Err? {
      entry := log.LogCronJobFailure(DailyReminderJob, approvers.error.message, None, []);
      return None;
    }
    if |approvers.value| == 0 {
      entry := log.LogCronJobSuccess(DailyReminderJob,
        JObj([("pendingCount", JNum(|pending| as real)), ("approverCount", JNum(0.0)),
              ("message", JStr("No approvers found to send reminders"))]));
      return None;
    }
    mail := Some(ReminderMail(approvers.value, ReminderSubject(|pending|), FormatRows(pending)));
    entry := log.LogDailyReminder(approvers.value, |pending|, true);
  }

  /** Every approver receives the reminder once, and it lists exactly the
      pending requests. */
  lemma ReminderReachesEachApproverOnce(pending: seq<Request>, hr: Result<seq<string>, AppError>,
                                        byDesignation: string -> Result<seq<string>, AppError>)
    requires RunOutcome(pending, GetAllApprovers(hr, byDesignation)).Reminded?
    ensures var o := RunOutcome(pending, GetAllApprovers(hr, byDesignation));
            NoDup(o.approvers) && hr.Ok? && (forall m :: m in hr.value ==> m in o.approvers)
            && |FormatRows(pending)| == o.pendingCount > 0
  {
  }

  /** The cron jobs by name. */
  class Scheduler {
    var jobs: map<string, Job>
    /** The names of the jobs that were told to stop. */
    var stopped: set<string>

    constructor ()
      ensures jobs == map[] && stopped == {}
    {
      jobs := map[];
      stopped := {};
    }

    /** `scheduleDailyReminder`: registers (or replaces) the workday 8:00
        Manila-time job. */
    method ScheduleDailyReminder(running: Option<bool>)
      modifies this
      ensures jobs == old(jobs)[DailyReminderJob := Job(DailySchedule, Timezone, running)]
      ensures stopped == old(stopped)
    {
      jobs := jobs[DailyReminderJob := Job(DailySchedule, Timezone, running)];
    }

    /** `stopAll`: stops every job, then clears the registry. */
    method StopAll()
      modifies this
      ensures stopped == old(stopped) + old(jobs).Keys
      ensures jobs == map[]
    {
      var pending := jobs.Keys;
      while pending != {}
        invariant pending <= old(jobs).Keys && jobs == old(jobs)
        invariant stopped == old(stopped) + (old(jobs).Keys - pending)
        decreases pending
      {
        var name :| name in pending;
        stopped := stopped + {name};
        pending := pending - {name};
      }
      jobs := map[];
    }

    /** `getJobsStatus`: one entry per registered job, `running` read as
        `job.running || false`, and always `scheduled`. */
    method GetJobsStatus() returns (status: map<string, JobStatus>)
      ensures status.Keys == jobs.Keys
      ensures forall name :: name in jobs ==> status[name] == JobStatus(jobs[name].running == Some(true), true)
    {
      status := map[];
      var rest := jobs.Keys;
      while rest != {}
        invariant rest <= jobs.Keys
        invariant status.Keys == jobs.Keys - rest
        invariant forall name :: name in status ==> status[name] == JobStatus(jobs[name].running == Some(true), true)
        decreases rest
      {
        var name :| name in rest;
        var job := jobs[name];
        status := status[name := JobStatus(job.running == Some(true), true)];
        rest := rest - {name};
      }
    }
  }

  /** After scheduling, the status lists the reminder as scheduled; after
      stopping, it lists nothing and the reminder was stopped. */
  method ScheduleReportStop(s: Scheduler, running: Option<bool>)
    returns (before: map<string, JobStatus>, after: map<string, JobStatus>)
    modifies s
    ensures DailyReminderJob in before && before[DailyReminderJob] == JobStatus(running == Some(true), true)
    ensures after == map[] && DailyReminderJob in s.stopped
  {
    s.ScheduleDailyReminder(running);
    before := s.GetJobsStatus();
    s.StopAll();
    after := s.GetJobsStatus();
  }
}
