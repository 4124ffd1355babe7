/** `RequestService`: each method passes the adapter's result through and
    turns any adapter failure into an `AppError` with a fixed message. The
    adapter's outcome is the input of each function here. */
module RequestService {
  import opened Common
  import opened Requests
  import opened Database

  /** `new AppError(message, statusCode)` */
  datatype AppError = AppError(message: string, statusCode: nat)

  /** The service methods, each with its fixed failure message. */
  datatype Operation =
    | FetchAll | FetchOne | FetchByEmployee | FetchPending | FetchStatistics
    | CheckDuplicates | Approve | Reject

  function FailureMessage(op: Operation): string
  {
    match op
    case FetchAll => "Failed to fetch requests"
    case FetchOne => "Failed to fetch request"
    case FetchByEmployee => "Failed to fetch employee requests"
    case FetchPending => "Failed to fetch pending requests"
    case FetchStatistics => "Failed to fetch statistics"
    case CheckDuplicates => "Failed to check for duplicates"
    case Approve => "Failed to approve request"
    case Reject => "Failed to reject request"
  }

  /** The `catch` blocks: only `getRequestById` distinguishes a not-found
      message (404); every other failure is a 500 with the operation's message. */
  function ToAppError(op: Operation, e: DbError): (a: AppError)
    ensures a.statusCode == 404 <==> (op == FetchOne && ErrorMessage(e) == "Request not found")
    ensures a.statusCode == 404 ==> a.message == "Request not found"
    ensures a.statusCode != 404 ==> a.statusCode == 500 && a.message == FailureMessage(op)
  {
    if op == FetchOne && ErrorMessage(e) == "Request not found" then AppError("Request not found", 404)
    else AppError(FailureMessage(op), 500)
  }

  /** Any service method: the adapter's value unchanged, or its mapped error. */
  function Call<T>(op: Operation, adapter: Result<T, DbError>): (r: Result<T, AppError>)
    ensures adapter.Ok? ==> r == Ok(adapter.value)
    ensures adapter.Err? ==> r == Err(ToAppError(op, adapter.error))
  {
    match adapter
    case Ok(v) => Ok(v)
    case Err(e) => Err(ToAppError(op, e))
  }

  /** A missing request is a 404 on PostgreSQL, but a 500 on Supabase, whose
      `.single()` error carries a different message. */
  lemma NotFoundStatusByBackend(b: Backend)
    ensures var missing: Result<Request, DbError> := Err(if b == Postgres then RequestNotFound else NoSingleRow);
      Call(FetchOne, missing)
      == Err(if b == Postgres then AppError("Request not found", 404) else AppError("Failed to fetch request", 500))
  {
  }

  /** `checkDuplicate`'s result object. */
  datatype DuplicateCheck = DuplicateCheck(hasDuplicate: bool, duplicates: seq<Request>)

  function CheckDuplicate(adapter: Result<seq<Request>, DbError>): (r: Result<DuplicateCheck, AppError>)
    ensures adapter.Ok? ==>
              r.Ok? && r.value.duplicates == adapter.value && (r.value.hasDuplicate <==> |adapter.value| > 0)
    ensures adapter.Err? ==> r == Err(AppError("Failed to check for duplicates", 500))
  {
    match adapter
    case Ok(rows) => Ok(DuplicateCheck(|rows| > 0, rows))
    case Err(e) => Err(ToAppError(CheckDuplicates, e))
  }
}
