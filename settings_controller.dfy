/** `SettingsController`: the settings endpoints. Service failures are
    forwarded to `next`, never answered here. The service's answer is an
    input; for `upsertSetting` it is a function of the arguments passed. */
module SettingsController {
  import opened Common
  import opened Database
  import opened Http
  import RequestService
  import N8nService

  type AppError = RequestService.AppError

  /** `{ success: true, count, data }` */
  datatype SettingsList = SettingsList(count: nat, data: seq<Setting>)

  /** `{ success: true, message?, data? }` */
  datatype Done<T> = Done(message: Option<string>, data: Option<T>)

  /** `getAllSettings`: the list with its length, or the forwarded error. */
  function GetAllSettings(service: Result<seq<Setting>, AppError>): (out: Handled<SettingsList, AppError>)
    ensures service.Ok? ==> out.Respond? && out.body.data == service.value && out.body.count == |out.body.data|
    ensures service.Err? ==> out == Forward(service.error)
  {
    match service
    case Ok(settings) => Respond(SettingsList(|settings|, settings))
    case Err(e) => Forward(e)
  }

  /** `getSetting`: the row, or the forwarded error (the 404 included). */
  function GetSetting(service: Result<Setting, AppError>): (out: Handled<Setting, AppError>)
    ensures service.Ok? ==> out == Respond(service.value)
    ensures service.Err? ==> out == Forward(service.error)
  {
    match service
    case Ok(s) => Respond(s)
    case Err(e) => Forward(e)
  }

  /** `upsertSetting`: a falsy value is refused with 400; otherwise the key
      from the path and the value and description from the body go to the
      service. */
  function UpsertSetting(key: string, value: Option<Json>, description: Option<string>,
                         service: (string, Json, Option<string>) -> Result<Setting, AppError>): (out: Handled<Done<Setting>, AppError>)
    ensures !N8nService.JsonTruthy(value) ==> out == Refuse(400, MessageField("value is required"))
    ensures N8nService.JsonTruthy(value) ==>
              match service(key, value.value, description)
              case Ok(s) => out == Respond(Done(Some("Setting updated successfully"), Some(s)))
              case Err(e) => out == Forward(e)
  {
    if !N8nService.JsonTruthy(value) then Refuse(400, MessageField("value is required"))
    else
      match service(key, value.value, description)
      case Ok(s) => Respond(Done(Some("Setting updated successfully"), Some(s)))
      case Err(e) => Forward(e)
  }

  /** A falsy value never reaches the service: any two services give the same answer. */
  lemma FalsyValueSkipsService(key: string, value: Option<Json>, description: Option<string>,
                               s1: (string, Json, Option<string>) -> Result<Setting, AppError>,
                               s2: (string, Json, Option<string>) -> Result<Setting, AppError>)
    requires !N8nService.JsonTruthy(value)
    ensures UpsertSetting(key, value, description, s1) == UpsertSetting(key, value, description, s2)
    ensures UpsertSetting(key, value, description, s1).Refuse?
  {
  }

  /** `deleteSetting`: a fixed message, or the forwarded error. */
  function DeleteSetting(service: Result<(), AppError>): (out: Handled<Done<Setting>, AppError>)
    ensures service.Ok? ==> out == Respond(Done(Some("Setting deleted successfully"), None))
    ensures service.Err? ==> out == Forward(service.error)
  {
    match service
    case Ok(_) => Respond(Done(Some("Setting deleted successfully"), None))
    case Err(e) => Forward(e)
  }

  /** No handler answers a failure itself: every service error is forwarded unchanged. */
  lemma ErrorsForwarded(e: AppError, key: string, value: Json, description: Option<string>)
    requires N8nService.JsonTruthy(Some(value))
    ensures GetAllSettings(Err(e)) == Forward(e) && GetSetting(Err(e)) == Forward(e) && DeleteSetting(Err(e)) == Forward(e)
    ensures UpsertSetting(key, Some(value), description, (k, v, d) => Err(e)) == Forward(e)
  {
  }
}
