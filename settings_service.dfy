/** `SettingsService`: the settings methods pass the adapter's result
    through; a missing key becomes a 404 naming it, and any adapter failure
    a 500 with the method's fixed message. The adapter's outcome is the
    input of each function. */
module SettingsService {
  import opened Common
  import opened Database
  import RequestService

  type AppError = RequestService.AppError

  /** The 404 thrown inside the `try` for a missing key. */
  function NotFound(key: string): (e: AppError)
    ensures e.statusCode == 404 && Contains(e.message, key)
  {
    ContainsInfix("Setting '", key, "' not found");
    RequestService.AppError("Setting '" + key + "' not found", 404)
  }

  /** `getSetting(key)`: the row; the own 404 is rethrown as it is, while
      an adapter failure, which is no `AppError`, becomes a 500. */
  function GetSetting(key: string, adapter: Result<Option<Setting>, DbError>): (r: Result<Setting, AppError>)
    ensures adapter.Ok? && adapter.value.Some? ==> r == Ok(adapter.value.value)
    ensures adapter == Ok(None) ==> r == Err(NotFound(key))
    ensures adapter.Err? ==> r == Err(RequestService.AppError("Failed to fetch setting", 500))
  {
    match adapter
    case Ok(Some(s)) => Ok(s)
    case Ok(None) => Err(NotFound(key))
    case Err(_) => Err(RequestService.AppError("Failed to fetch setting", 500))
  }

  /** The three other methods: the adapter's value, or a 500 with `message`. */
  function Wrap<T>(adapter: Result<T, DbError>, message: string): (r: Result<T, AppError>)
    ensures adapter.Ok? ==> r == Ok(adapter.value)
    ensures adapter.Err? ==> r == Err(RequestService.AppError(message, 500))
  {
    match adapter
    case Ok(v) => Ok(v)
    case Err(_) => Err(RequestService.AppError(message, 500))
  }

  function GetAllSettings(adapter: Result<seq<Setting>, DbError>): (r: Result<seq<Setting>, AppError>)
    ensures adapter.Ok? ==> r == Ok(adapter.value)
    ensures adapter.Err? ==> r == Err(RequestService.AppError("Failed to fetch settings", 500))
  {
    Wrap(adapter, "Failed to fetch settings")
  }

  function UpsertSetting(adapter: Result<Setting, DbError>): (r: Result<Setting, AppError>)
    ensures adapter.Ok? ==> r == Ok(adapter.value)
    ensures adapter.Err? ==> r == Err(RequestService.AppError("Failed to update setting", 500))
  {
    Wrap(adapter, "Failed to update setting")
  }

  function DeleteSetting(adapter: Result<(), DbError>): (r: Result<(), AppError>)
    ensures adapter.Ok? ==> r.Ok?
    ensures adapter.Err? ==> r == Err(RequestService.AppError("Failed to delete setting", 500))
  {
    Wrap(adapter, "Failed to delete setting")
  }

  /** Every failure of the settings service is a 404 for a missing key or a 500. */
  lemma FailureStatuses(key: string, adapter: Result<Option<Setting>, DbError>)
    ensures GetSetting(key, adapter).Err? ==>
              (GetSetting(key, adapter).error.statusCode == 404 <==> adapter == Ok(None))
              && GetSetting(key, adapter).error.statusCode in {404, 500}
  {
  }

  /** Reading a key through the table: the stored row, or the 404 naming the key. */
  method GetStoredSetting(t: RequestTable, key: string) returns (r: Result<Setting, AppError>)
    requires t.Valid()
    ensures key in t.settings ==> r == Ok(t.settings[key]) && r.value.key == key
    ensures key !in t.settings ==> r == Err(NotFound(key))
  {
    var s := t.GetSetting(key);
    r := GetSetting(key, Ok(s));
  }
}
