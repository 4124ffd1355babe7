/** The parts of an Express request the middleware and handlers read or
    replace: the `Authorization` header, the JSON body and `req.user`. */
module Http {
  import opened Common

  /** A JSON value. Numbers are exact rationals (no floating point). */
  datatype Json =
    | JNull
    | JBool(b: bool)
    | JNum(n: real)
    | JStr(s: string)
    | JArr(items: seq<Json>)
    | JObj(fields: seq<(string, Json)>)

  /** The value stored under `key` in an object, None when absent or when
      `j` is not an object. As in `JSON.parse`, a later duplicate key wins. */
  function Field(j: Json, key: string): (v: Option<Json>)
    ensures v.Some? ==> j.JObj? && exists i :: 0 <= i < |j.fields| && j.fields[i] == (key, v.value)
    ensures v.None? && j.JObj? ==> forall i :: 0 <= i < |j.fields| ==> j.fields[i].0 != key
  {
    if j.JObj? then Lookup(j.fields, key) else None
  }

  function Lookup(fields: seq<(string, Json)>, key: string): (v: Option<Json>)
    ensures v.Some? ==> exists i :: 0 <= i < |fields| && fields[i] == (key, v.value)
    ensures v.None? ==> forall i :: 0 <= i < |fields| ==> fields[i].0 != key
    decreases |fields|
  {
    if fields == [] then None
    else if fields[|fields| - 1].0 == key then Some(fields[|fields| - 1].1)
    else
      var v := Lookup(fields[..|fields| - 1], key);
      if v.Some? then
        var i :| 0 <= i < |fields| - 1 && fields[..|fields| - 1][i] == (key, v.value);
        assert fields[i] == (key, v.value);
        v
      else v
  }

  /** The user object `verifySession` attaches to `req.user`. */
  datatype SessionUser = SessionUser(
    id: nat,
    email: string,
    fullName: Option<string>,
    googleId: Option<string>,
    profilePicture: Option<string>,
    role: string,
    erpnextEmployeeId: Option<string>,
    designation: Option<string>,
    reportsTo: Option<string>)

  /** Why a handler refused: the JSON key of the reason is `error` or `message`. */
  datatype Refusal = ErrorField(text: string) | MessageField(text: string)

  /** A handler's outcome: a 2xx body, a refusal with its status, or `next(error)`. */
  datatype Handled<T, E> = Respond(body: T) | Refuse(status: nat, refusal: Refusal) | Forward(error: E)

  /** The mutable Express `req` object. */
  class ServerRequest {
    var authorization: Option<string>
    var body: Json
    var user: Option<SessionUser>

    constructor (authorization: Option<string>, body: Json)
      ensures this.authorization == authorization && this.body == body && user.None?
    {
      this.authorization := authorization;
      this.body := body;
      user := None;
    }
  }
}
