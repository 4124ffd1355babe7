/** The "My Requests" page: the signed-in employee's own requests, a
    status filter, an inclusive filed-date range and the summary counts.
    Instants are millisecond numbers on one clock (time zones are not
    modelled); `createdAt` is the filed instant. */
module MyRequests {
  import opened Common
  import opened Requests

  const DayMs := 86400000

  /** `endOfDay.setHours(23, 59, 59, 999)`: the last millisecond of the day. */
  function EndOfDay(t: int): (e: int)
    ensures t <= e < t + DayMs && (e + 1) % DayMs == 0
  {
    t - t % DayMs + DayMs - 1
  }

  /** The status-filter choices of the select. */
  predicate StatusSelects(status: string, r: Request)
  {
    if status == "pending" then JsPending(r)
    else if status == "approved" then JsApproved(r)
    else if status == "rejected" then JsRejected(r)
    else true
  }

  /** The rows the page shows: the status test, then filed on or after
      `dateFrom`, then filed no later than the end of `dateTo`'s day. */
  predicate Shown(status: string, dateFrom: Option<int>, dateTo: Option<int>, r: Request)
  {
    StatusSelects(status, r)
    && (dateFrom.Some? ==> r.createdAt >= dateFrom.value)
    && (dateTo.Some? ==> r.createdAt <= EndOfDay(dateTo.value))
  }

  /** `a` is `b` with some elements removed, the rest in order. */
  predicate Subsequence<T(==)>(a: seq<T>, b: seq<T>)
    decreases |b|
  {
    if a == [] then true
    else if b == [] then false
    else if a[0] == b[0] then Subsequence(a[1..], b[1..])
    else Subsequence(a, b[1..])
  }

  /** Every filter keeps the order of what it keeps. */
  lemma {:induction false} FilterSubsequence<T>(xs: seq<T>, p: T -> bool)
    ensures Subsequence(Filter(xs, p), xs)
    decreases |xs|
  {
    if xs != [] {
      FilterSubsequence(xs[1..], p);
    }
  }

  /** The rows `Shown` keeps, in order. */
  function ShownRows(xs: seq<Request>, status: string, dateFrom: Option<int>, dateTo: Option<int>): seq<Request>
  {
    Filter(xs, r => Shown(status, dateFrom, dateTo, r))
  }

  /** `filtered.filter(r => new Date(r.created_at) >= dateFrom)` */
  function FiledFrom(xs: seq<Request>, from: int): (r: seq<Request>)
    decreases |xs|
  {
    if xs == [] then []
    else (if xs[0].createdAt >= from then [xs[0]] else []) + FiledFrom(xs[1..], from)
  }

  /** `filtered.filter(r => new Date(r.created_at) <= endOfDay)` */
  function FiledUntil(xs: seq<Request>, endOfDay: int): (r: seq<Request>)
    decreases |xs|
  {
    if xs == [] then []
    else (if xs[0].createdAt <= endOfDay then [xs[0]] else []) + FiledUntil(xs[1..], endOfDay)
  }

  /** Each date step is the filter on its bound. */
  lemma {:induction false} FiledSteps(xs: seq<Request>, bound: int, after: Request -> bool, before: Request -> bool)
    requires forall r :: after(r) == (r.createdAt >= bound)
    requires forall r :: before(r) == (r.createdAt <= bound)
    ensures FiledFrom(xs, bound) == Filter(xs, after)
    ensures FiledUntil(xs, bound) == Filter(xs, before)
    decreases |xs|
  {
    if xs != [] {
      FiledSteps(xs[1..], bound, after, before);
    }
  }

  /** The status step keeps the rows `StatusSelects` keeps. */
  lemma StatusStep(xs: seq<Request>, status: string)
    ensures status == "pending" ==> Filter(xs, JsPending) == Filter(xs, r => StatusSelects(status, r))
    ensures status == "approved" ==> Filter(xs, JsApproved) == Filter(xs, r => StatusSelects(status, r))
    ensures status == "rejected" ==> Filter(xs, JsRejected) == Filter(xs, r => StatusSelects(status, r))
    ensures status != "pending" && status != "approved" && status != "rejected" ==>
              xs == Filter(xs, r => StatusSelects(status, r))
  {
    if status == "pending" {
      FilterExt(xs, JsPending, r => StatusSelects(status, r));
    } else if status == "approved" {
      FilterExt(xs, JsApproved, r => StatusSelects(status, r));
    } else if status == "rejected" {
      FilterExt(xs, JsRejected, r => StatusSelects(status, r));
    } else {
      FilterAll(xs, r => StatusSelects(status, r));
    }
  }

  /** After the status step, the two date steps give the shown rows. */
  lemma DateSteps(xs: seq<Request>, status: string, from: Option<int>, to: Option<int>)
    ensures var byStatus := Filter(xs, r => StatusSelects(status, r));
            var byFrom := if from.Some? then FiledFrom(byStatus, from.value) else byStatus;
            (if to.Some? then FiledUntil(byFrom, EndOfDay(to.value)) else byFrom) == ShownRows(xs, status, from, to)
  {
    var byStatus := Filter(xs, r => StatusSelects(status, r));
    var fromTest := (r: Request) => from.Some? ==> r.createdAt >= from.value;
    var bothTest := (r: Request) => StatusSelects(status, r) && (from.Some? ==> r.createdAt >= from.value);
    if from.Some? {
      FiledSteps(byStatus, from.value, fromTest, (r: Request) => r.createdAt <= from.value);
    } else {
      FilterAll(byStatus, fromTest);
    }
    FilterFilter(xs, r => StatusSelects(status, r), fromTest, bothTest);
    var byFrom := Filter(xs, bothTest);
    var toTest := (r: Request) => to.Some? ==> r.createdAt <= EndOfDay(to.value);
    if to.Some? {
      FiledSteps(byFrom, EndOfDay(to.value), (r: Request) => r.createdAt >= EndOfDay(to.value), toTest);
    } else {
      FilterAll(byFrom, toTest);
    }
    FilterFilter(xs, bothTest, toTest, r => Shown(status, from, to, r));
  }

  /** The page's state hooks. */
  class Page {
    var requests: seq<Request>
    var filtered: seq<Request>
    var statusFilter: string
    var dateFrom: Option<int>
    var dateTo: Option<int>

    constructor ()
      ensures requests == [] && filtered == [] && statusFilter == "all" && dateFrom.None? && dateTo.None?
    {
      requests := [];
      filtered := [];
      statusFilter := "all";
      dateFrom := None;
      dateTo := None;
    }

    /** `loadRequests`: without an ERP employee id it does nothing; otherwise
        a successful fetch replaces both lists, and a failed one changes nothing. */
    method LoadRequests(erpnextEmployeeId: Option<string>, fetch: string -> Option<seq<Request>>)
      modifies this
      ensures !Truthy(erpnextEmployeeId) || fetch(erpnextEmployeeId.value).None? ==>
                requests == old(requests) && filtered == old(filtered)
      ensures Truthy(erpnextEmployeeId) && fetch(erpnextEmployeeId.value).Some? ==>
                requests == fetch(erpnextEmployeeId.value).value && filtered == requests
      ensures statusFilter == old(statusFilter) && dateFrom == old(dateFrom) && dateTo == old(dateTo)
    {
      if !Truthy(erpnextEmployeeId) {
        return;
      }
      var data := fetch(erpnextEmployeeId.value);
      if data.Some? {
        requests := data.value;
        filtered := data.value;
      }
    }

    /** The filter effect: narrows a copy of `requests` test by test. */
    method ApplyFilters()
      modifies this
      ensures filtered == ShownRows(requests, statusFilter, dateFrom, dateTo)
      ensures Subsequence(filtered, requests)
      ensures requests == old(requests) && statusFilter == old(statusFilter)
      ensures dateFrom == old(dateFrom) && dateTo == old(dateTo)
    {
      var result := requests;
      if statusFilter != "all" {
        if statusFilter == "pending" {
          result := Filter(result, JsPending);
        } else if statusFilter == "approved" {
          result := Filter(result, JsApproved);
        } else if statusFilter == "rejected" {
          result := Filter(result, JsRejected);
        }
      }
      StatusStep(requests, statusFilter);
      if dateFrom.Some? {
        result := FiledFrom(result, dateFrom.value);
      }
      if dateTo.Some? {
        var endOfDay := EndOfDay(dateTo.value);
        result := FiledUntil(result, endOfDay);
      }
      DateSteps(requests, statusFilter, dateFrom, dateTo);
      filtered := result;
      var status, from, to := statusFilter, dateFrom, dateTo;
      FilterSubsequence(requests, r => Shown(status, from, to, r));
    }

    /** `clearFilters`: every filter back to its initial value. */
    method ClearFilters()
      modifies this
      ensures statusFilter == "all" && dateFrom.None? && dateTo.None?
      ensures requests == old(requests) && filtered == old(filtered)
    {
      statusFilter := "all";
      dateFrom := None;
      dateTo := None;
    }
  }

  /** With the status `all` and no dates, every request is shown. */
  lemma AllShowsEverything(requests: seq<Request>)
    ensures Filter(requests, r => Shown("all", None, None, r)) == requests
  {
    FilterAll(requests, r => Shown("all", None, None, r));
  }

  /** Both date bounds are inclusive; `dateTo` includes its whole day. */
  lemma DateBoundsInclusive(r: Request, from: int, to: int)
    ensures r.createdAt == from ==> Shown("all", Some(from), None, r)
    ensures to <= r.createdAt <= EndOfDay(to) ==> Shown("all", None, Some(to), r)
    ensures r.createdAt > EndOfDay(to) ==> !Shown("all", None, Some(to), r)
  {
  }

  /** The summary cards. */
  datatype Stats = Stats(total: nat, pending: nat, approved: nat, rejected: nat)

  function StatsOf(requests: seq<Request>): (s: Stats)
    ensures s.total == |requests|
    ensures s.pending <= s.total && s.approved <= s.total && s.rejected <= s.total
  {
    Stats(|requests|, |Filter(requests, r => JsPending(r))|, |Filter(requests, r => JsApproved(r))|,
          |Filter(requests, r => JsRejected(r))|)
  }

  /** Each card counts exactly the rows its status filter shows. */
  lemma StatsMatchFilters(requests: seq<Request>)
    ensures StatsOf(requests).pending == |Filter(requests, r => Shown("pending", None, None, r))|
    ensures StatsOf(requests).approved == |Filter(requests, r => Shown("approved", None, None, r))|
    ensures StatsOf(requests).rejected == |Filter(requests, r => Shown("rejected", None, None, r))|
  {
    FilterExt(requests, r => JsPending(r), r => Shown("pending", None, None, r));
    FilterExt(requests, r => JsApproved(r), r => Shown("approved", None, None, r));
    FilterExt(requests, r => JsRejected(r), r => Shown("rejected", None, None, r));
  }

  /** A request under the badge's state is one the matching filter shows. */
  lemma BadgeAgreesWithFilter(r: Request)
    ensures Badge(r) == Rejected <==> Shown("rejected", None, None, r)
    ensures Badge(r) == Approved <==> Shown("approved", None, None, r)
    ensures Badge(r) == Pending ==> Shown("pending", None, None, r)
  {
    BadgeMatchesFilters(r);
  }
}
