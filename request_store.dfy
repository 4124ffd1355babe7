/** The client-side request store: the fetched lists and the loading and
    message flags every page reads. Each `set` the store makes is recorded
    as a snapshot of the three flags, so the contracts can say what the
    pages saw on entry to an action and on its exit. An API call's outcome
    is given: the response body, or the message of the Error the API
    client rejects with. */
module RequestStore {
  import opened Common
  import opened Http
  import opened Requests

  /** The flags after one `set`. */
  datatype Snapshot = Snapshot(isLoading: bool, error: Option<string>, successMessage: Option<string>)

  /** `response.data.message || fallback` (a message that is not a string is read as absent). */
  function MessageOr(data: Json, fallback: string): (m: string)
    ensures m != "" || fallback == ""
  {
    match Field(data, "message")
    case Some(JStr(s)) => if s != "" then s else fallback
    case _ => fallback
  }

  /** `error.message || fallback` */
  function ErrorOr(message: string, fallback: string): (m: string)
    ensures message != "" ==> m == message
    ensures message == "" ==> m == fallback
  {
    if message != "" then message else fallback
  }

  /** What `checkDuplicate` resolves to when the call fails. */
  const NoDuplicates := JObj([("hasDuplicate", JBool(false)), ("duplicates", JArr([]))])

  /** `checkDuplicate`: the response's `data`, or no duplicates when the
      call fails; it never rejects and never touches the store. */
  function CheckDuplicate(answer: Result<Json, string>): (r: Option<Json>)
    ensures answer.Err? ==> r == Some(NoDuplicates)
    ensures answer.Ok? ==> r == Field(answer.value, "data")
  {
    match answer
    case Ok(data) => Field(data, "data")
    case Err(_) => Some(NoDuplicates)
  }

  class Store {
    var requests: seq<Request>
    var currentRequest: Option<Request>
    var statistics: Option<Json>
    var isLoading: bool
    var error: Option<string>
    var successMessage: Option<string>
    /** The flags after each `set`, oldest first. */
    var history: seq<Snapshot>

    /** The flags as they are now. */
    function Flags(): Snapshot
      reads this
    {
      Snapshot(isLoading, error, successMessage)
    }

    /** The initial state, which `reset` restores. */
    predicate Initial()
      reads this
    {
      requests == [] && currentRequest.None? && statistics.None?
      && !isLoading && error.None? && successMessage.None?
    }

    constructor ()
      ensures Initial() && history == []
    {
      requests := [];
      currentRequest := None;
      statistics := None;
      isLoading := false;
      error := None;
      successMessage := None;
      history := [];
    }

    /** One `set` of the three flags, recorded. */
    method SetFlags(loading: bool, err: Option<string>, success: Option<string>)
      modifies this
      ensures isLoading == loading && error == err && successMessage == success
      ensures history == old(history) + [Snapshot(loading, err, success)]
      ensures requests == old(requests) && currentRequest == old(currentRequest) && statistics == old(statistics)
    {
      isLoading, error, successMessage := loading, err, success;
      history := history + [Flags()];
    }

    /** `setLoading` */
    method SetLoading(loading: bool)
      modifies this
      ensures Flags() == old(Flags()).(isLoading := loading) && history == old(history) + [Flags()]
      ensures requests == old(requests) && currentRequest == old(currentRequest) && statistics == old(statistics)
    {
      SetFlags(loading, error, successMessage);
    }

    /** `setError`: also ends loading. */
    method SetError(message: Option<string>)
      modifies this
      ensures Flags() == old(Flags()).(isLoading := false, error := message) && history == old(history) + [Flags()]
      ensures requests == old(requests) && currentRequest == old(currentRequest) && statistics == old(statistics)
    {
      SetFlags(false, message, successMessage);
    }

    /** `setSuccess`: also clears the error. */
    method SetSuccess(message: string)
      modifies this
      ensures Flags() == old(Flags()).(error := None, successMessage := Some(message)) && history == old(history) + [Flags()]
      ensures requests == old(requests) && currentRequest == old(currentRequest) && statistics == old(statistics)
    {
      SetFlags(isLoading, None, Some(message));
    }

    /** `clearMessages` */
    method ClearMessages()
      modifies this
      ensures Flags() == old(Flags()).(error := None, successMessage := None) && history == old(history) + [Flags()]
      ensures requests == old(requests) && currentRequest == old(currentRequest) && statistics == old(statistics)
    {
      SetFlags(isLoading, None, None);
    }

    /** The shape of `submitRequest`, `approveRequest` and `rejectRequest`:
        both messages cleared on entry; on success the server's message or
        the default, on failure the error, which is rethrown. */
    method Mutate(answer: Result<Json, string>, successDefault: string, failureDefault: string)
      returns (out: Result<Json, string>)
      modifies this
      ensures out == answer
      ensures answer.Ok? ==>
                history == old(history) + [Snapshot(true, None, None), Snapshot(false, None, Some(MessageOr(answer.value, successDefault)))]
      ensures answer.Err? ==>
                history == old(history) + [Snapshot(true, None, None), Snapshot(false, Some(ErrorOr(answer.error, failureDefault)), None)]
      ensures Flags() == history[|history| - 1]
      ensures requests == old(requests) && currentRequest == old(currentRequest) && statistics == old(statistics)
    {
      SetFlags(true, None, None);
      out := answer;
      match answer
      case Ok(data) =>
        SetFlags(false, error, Some(MessageOr(data, successDefault)));
      case Err(message) =>
        SetFlags(false, Some(ErrorOr(message, failureDefault)), successMessage);
    }

    /** `submitRequest` */
    method SubmitRequest(answer: Result<Json, string>) returns (out: Result<Json, string>)
      modifies this
      ensures LoadingSpan(old(history), history)
      ensures out == answer
      ensures answer.Ok? ==>
                history == old(history) + [Snapshot(true, None, None),
                                           Snapshot(false, None, Some(MessageOr(answer.value, "Request submitted successfully!")))]
      ensures answer.Err? ==>
                history == old(history) + [Snapshot(true, None, None),
                                           Snapshot(false, Some(ErrorOr(answer.error, "Failed to submit request")), None)]
      ensures Flags() == history[|history| - 1]
      ensures requests == old(requests) && currentRequest == old(currentRequest) && statistics == old(statistics)
    {
      out := Mutate(answer, "Request submitted successfully!", "Failed to submit request");
    }

    /** `approveRequest` */
    method ApproveRequest(answer: Result<Json, string>) returns (out: Result<Json, string>)
      modifies this
      ensures LoadingSpan(old(history), history)
      ensures out == answer
      ensures answer.Ok? ==>
                history == old(history) + [Snapshot(true, None, None),
                                           Snapshot(false, None, Some(MessageOr(answer.value, "Request approved successfully!")))]
      ensures answer.Err? ==>
                history == old(history) + [Snapshot(true, None, None),
                                           Snapshot(false, Some(ErrorOr(answer.error, "Failed to approve request")), None)]
      ensures Flags() == history[|history| - 1]
      ensures requests == old(requests) && currentRequest == old(currentRequest) && statistics == old(statistics)
    {
      out := Mutate(answer, "Request approved successfully!", "Failed to approve request");
    }

    /** `rejectRequest` */
    method RejectRequest(answer: Result<Json, string>) returns (out: Result<Json, string>)
      modifies this
      ensures LoadingSpan(old(history), history)
      ensures out == answer
      ensures answer.Ok? ==>
                history == old(history) + [Snapshot(true, None, None),
                                           Snapshot(false, None, Some(MessageOr(answer.value, "Request rejected successfully!")))]
      ensures answer.Err? ==>
                history == old(history) + [Snapshot(true, None, None),
                                           Snapshot(false, Some(ErrorOr(answer.error, "Failed to reject request")), None)]
      ensures Flags() == history[|history| - 1]
      ensures requests == old(requests) && currentRequest == old(currentRequest) && statistics == old(statistics)
    {
      out := Mutate(answer, "Request rejected successfully!", "Failed to reject request");
    }

    /** The shape of the fetches: the error cleared on entry (the success
        message kept); the list replaced only on success; the error set
        and rethrown on failure. */
    method FetchList(answer: Result<seq<Request>, string>, failureDefault: string)
      returns (out: Result<seq<Request>, string>)
      modifies this
      ensures out == answer
      ensures answer.Ok? ==> requests == answer.value
      ensures answer.Err? ==> requests == old(requests)
      ensures history == old(history) + [Snapshot(true, None, old(successMessage)),
                                         Snapshot(false, if answer.Ok? then None else Some(ErrorOr(answer.error, failureDefault)), old(successMessage))]
      ensures Flags() == history[|history| - 1]
      ensures currentRequest == old(currentRequest) && statistics == old(statistics)
    {
      SetFlags(true, None, successMessage);
      out := answer;
      match answer
      case Ok(rows) =>
        requests := rows;
        SetFlags(false, error, successMessage);
      case Err(message) =>
        SetFlags(false, Some(ErrorOr(message, failureDefault)), successMessage);
    }

    /** `fetchRequests(filters)` */
    method FetchRequests(answer: Result<seq<Request>, string>) returns (out: Result<seq<Request>, string>)
      modifies this
      ensures LoadingSpan(old(history), history)
      ensures out == answer
      ensures answer.Ok? ==> requests == answer.value
      ensures answer.Err? ==> requests == old(requests)
      ensures history == old(history) + [Snapshot(true, None, old(successMessage)),
                                         Snapshot(false, if answer.Ok? then None else Some(ErrorOr(answer.error, "Failed to fetch requests")), old(successMessage))]
      ensures Flags() == history[|history| - 1]
      ensures currentRequest == old(currentRequest) && statistics == old(statistics)
    {
      out := FetchList(answer, "Failed to fetch requests");
    }

    /** `fetchPendingRequests()` */
    method FetchPendingRequests(answer: Result<seq<Request>, string>) returns (out: Result<seq<Request>, string>)
      modifies this
      ensures LoadingSpan(old(history), history)
      ensures out == answer
      ensures answer.Ok? ==> requests == answer.value
      ensures answer.Err? ==> requests == old(requests)
      ensures history == old(history) + [Snapshot(true, None, old(successMessage)),
                                         Snapshot(false, if answer.Ok? then None else Some(ErrorOr(answer.error, "Failed to fetch pending requests")), old(successMessage))]
      ensures Flags() == history[|history| - 1]
      ensures currentRequest == old(currentRequest) && statistics == old(statistics)
    {
      out := FetchList(answer, "Failed to fetch pending requests");
    }

    /** `fetchRequestById(id)`: replaces `currentRequest` on success. */
    method FetchRequestById(answer: Result<Request, string>) returns (out: Result<Request, string>)
      modifies this
      ensures LoadingSpan(old(history), history)
      ensures out == answer
      ensures currentRequest == if answer.Ok? then Some(answer.value) else old(currentRequest)
      ensures history == old(history) + [Snapshot(true, None, old(successMessage)),
                                         Snapshot(false, if answer.Ok? then None else Some(ErrorOr(answer.error, "Failed to fetch request")), old(successMessage))]
      ensures Flags() == history[|history| - 1]
      ensures requests == old(requests) && statistics == old(statistics)
    {
      SetFlags(true, None, successMessage);
      out := answer;
      match answer
      case Ok(r) =>
        currentRequest := Some(r);
        SetFlags(false, error, successMessage);
      case Err(message) =>
        SetFlags(false, Some(ErrorOr(message, "Failed to fetch request")), successMessage);
    }

    /** `fetchStatistics(employeeId)`: replaces `statistics` on success. */
    method FetchStatistics(answer: Result<Json, string>) returns (out: Result<Json, string>)
      modifies this
      ensures LoadingSpan(old(history), history)
      ensures out == answer
      ensures statistics == if answer.Ok? then Field(answer.value, "data") else old(statistics)
      ensures history == old(history) + [Snapshot(true, None, old(successMessage)),
                                         Snapshot(false, if answer.Ok? then None else Some(ErrorOr(answer.error, "Failed to fetch statistics")), old(successMessage))]
      ensures Flags() == history[|history| - 1]
      ensures requests == old(requests) && currentRequest == old(currentRequest)
    {
      SetFlags(true, None, successMessage);
      out := answer;
      match answer
      case Ok(data) =>
        statistics := Field(data, "data");
        SetFlags(false, error, successMessage);
      case Err(message) =>
        SetFlags(false, Some(ErrorOr(message, "Failed to fetch statistics")), successMessage);
    }

    /** `reset` */
    method Reset()
      modifies this
      ensures Initial() && history == old(history) + [Snapshot(false, None, None)]
    {
      requests := [];
      currentRequest := None;
      statistics := None;
      SetFlags(false, None, None);
    }
  }

  /** Loading is on for exactly the span of an action: on at its first
      `set`, off at its last, whichever way it ends. Every action but
      `checkDuplicate` keeps to it. */
  predicate LoadingSpan(before: seq<Snapshot>, after: seq<Snapshot>)
  {
    |after| == |before| + 2 && after[..|before|] == before
    && after[|before|].isLoading && !after[|before| + 1].isLoading
  }

  /** After a reset the store equals a fresh one. */
  method ResetIsFresh(s: Store) returns (other: Store)
    modifies s
    ensures s.Initial() && other.Initial()
    ensures s.requests == other.requests && s.Flags() == other.Flags()
    ensures s.currentRequest == other.currentRequest && s.statistics == other.statistics
  {
    s.Reset();
    other := new Store();
  }
}
