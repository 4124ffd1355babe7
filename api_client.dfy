/** The client's axios instance: the request interceptor that attaches the
    stored session token, and the response interceptor that signs out on
    401 and turns every failure into an `Error` with one message. */
module ApiClient {
  import opened Common
  import opened Http
  import N8nService
  import AuthContext

  const LoginPath := "/login"
  const DefaultMessage := "An error occurred"

  /** The outgoing request's `Authorization` header. */
  class RequestConfig {
    var authorization: Option<string>

    constructor (authorization: Option<string>)
      ensures this.authorization == authorization
    {
      this.authorization := authorization;
    }
  }

  /** `window.location.href`. */
  class Location {
    var href: string

    constructor (href: string)
      ensures this.href == href
    {
      this.href := href;
    }
  }

  /** The request interceptor: a bearer header exactly when a non-empty
      token is stored; otherwise the config is left as it was. */
  method AttachToken(config: RequestConfig, storage: AuthContext.Storage) returns (out: RequestConfig)
    modifies config
    ensures out == config
    ensures Truthy(storage.sessionToken) ==> config.authorization == Some("Bearer " + storage.sessionToken.value)
    ensures !Truthy(storage.sessionToken) ==> config.authorization == old(config.authorization)
  {
    var sessionToken := storage.sessionToken;
    if Truthy(sessionToken) {
      config.authorization := Some("Bearer " + sessionToken.value);
    }
    out := config;
  }

  /** An axios failure: the response, when one arrived, and the error's own message. */
  datatype HttpResponse = HttpResponse(status: nat, data: Option<Json>)
  datatype AxiosError = AxiosError(response: Option<HttpResponse>, message: string)

  /** `error.response?.data?.<key>`. */
  function DataField(e: AxiosError, key: string): (v: Option<Json>)
    ensures v.Some? ==> e.response.Some? && e.response.value.data.Some?
  {
    if e.response.Some? && e.response.value.data.Some? then Field(e.response.value.data.value, key) else None
  }

  /** The message chain: `data.error`, else `data.message`, else the
      error's own message, else the default, each taken when truthy. */
  function Message(e: AxiosError): (m: Json)
    ensures N8nService.JsonTruthy(Some(m))
    ensures N8nService.JsonTruthy(DataField(e, "error")) ==> Some(m) == DataField(e, "error")
    ensures !N8nService.JsonTruthy(DataField(e, "error")) && N8nService.JsonTruthy(DataField(e, "message")) ==>
              Some(m) == DataField(e, "message")
    ensures !N8nService.JsonTruthy(DataField(e, "error")) && !N8nService.JsonTruthy(DataField(e, "message")) ==>
              m == JStr(if e.message != "" then e.message else DefaultMessage)
  {
    var error := DataField(e, "error");
    var message := DataField(e, "message");
    if N8nService.JsonTruthy(error) then error.value
    else if N8nService.JsonTruthy(message) then message.value
    else if e.message != "" then JStr(e.message)
    else JStr(DefaultMessage)
  }

  /** A call's outcome after the response interceptor. */
  datatype Settled<T> = Fulfilled(response: T) | Rejected(message: Json)

  /** The response interceptor's success half passes the response on. */
  function OnFulfilled<T>(response: T): (s: Settled<T>)
    ensures s.Fulfilled? && s.response == response
  {
    Fulfilled(response)
  }

  /** Its failure half: a 401 removes the stored token and sends the
      browser to the login page; every failure rejects with the chosen
      message, which is never empty. */
  method OnRejected<T>(e: AxiosError, storage: AuthContext.Storage, location: Location) returns (s: Settled<T>)
    modifies storage, location
    ensures s == Rejected(Message(e))
    ensures e.response.Some? && e.response.value.status == 401 ==>
              storage.sessionToken.None? && location.href == LoginPath
    ensures !(e.response.Some? && e.response.value.status == 401) ==>
              storage.sessionToken == old(storage.sessionToken) && location.href == old(location.href)
  {
    if e.response.Some? && e.response.value.status == 401 {
      storage.sessionToken := None;
      location.href := LoginPath;
    }
    s := Rejected(Message(e));
  }

  /** A server refusal's key is the message the client shows: a refusal
      body `{ error: text }` or `{ message: text }` with non-empty text
      becomes the rejection's message. */
  lemma RefusalTextReachesClient(status: nat, r: Refusal, message: string)
    requires r.text != ""
    ensures var data := match r
              case ErrorField(t) => JObj([("success", JBool(false)), ("error", JStr(t))])
              case MessageField(t) => JObj([("success", JBool(false)), ("message", JStr(t))]);
            Message(AxiosError(Some(HttpResponse(status, Some(data))), message)) == JStr(r.text)
  {
    match r
    case ErrorField(t) =>
      assert Field(JObj([("success", JBool(false)), ("error", JStr(t))]), "error") == Some(JStr(t));
    case MessageField(t) =>
      var fields := [("success", JBool(false)), ("message", JStr(t))];
      assert fields[..1] == [("success", JBool(false))];
      assert Field(JObj(fields), "error") == None;
      assert Field(JObj(fields), "message") == Some(JStr(t));
  }

  /** Without a response (a network failure or time-out) the error's own
      message is kept, or the default when it has none. */
  lemma NoResponseMessage(message: string)
    ensures Message(AxiosError(None, message)) == JStr(if message != "" then message else DefaultMessage)
  {
  }

  /** A request sent after an expired session (a 401) carries no bearer header. */
  method ExpiredSessionDropsHeader(e: AxiosError, storage: AuthContext.Storage, location: Location,
                                   config: RequestConfig)
    requires e.response.Some? && e.response.value.status == 401
    modifies storage, location, config
    ensures config.authorization == old(config.authorization)
  {
    var _ := OnRejected<()>(e, storage, location);
    var _ := AttachToken(config, storage);
  }
}
