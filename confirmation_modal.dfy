/** The confirmation dialog shown before a request is sent: the duplicate
    banner, the picked date and the duration text. */
module ConfirmationModal {
  import opened Common
  import opened Http
  import N8nService

  /** The duration line: the hours, whether "hour" takes an `s`, and the
      minutes when they are shown. */
  datatype Duration = Duration(hours: real, plural: bool, minutes: Option<real>)

  function DurationOf(numberOfHours: real, minutes: real): (d: Duration)
    ensures d.hours == numberOfHours
    ensures d.plural <==> numberOfHours > 1.0
    ensures d.minutes.Some? <==> minutes > 0.0
    ensures d.minutes.Some? ==> d.minutes.value == minutes
  {
    Duration(numberOfHours, numberOfHours > 1.0, if minutes > 0.0 then Some(minutes) else None)
  }

  /** The shown date: the formatted picked date, or '' when none is picked. */
  function FormattedDate(dateAffected: Option<int>, format: int -> string): (s: string)
    ensures dateAffected.None? ==> s == ""
    ensures dateAffected.Some? ==> s == format(dateAffected.value)
  {
    if dateAffected.Some? then format(dateAffected.value) else ""
  }

  /** The duplicate banner shows iff the duplicate data is truthy. */
  predicate ShowsBanner(duplicateData: Option<Json>)
  {
    N8nService.JsonTruthy(duplicateData)
  }

}
