/** The client's authentication context: the signed-in user, the
    `isAuthenticated` and `isLoading` flags, and the session token kept in
    the browser's local storage under `session_token`. The `/auth/me` and
    `/auth/logout` calls are inputs; the awaited calls run to completion in
    turn (interleaving of the un-awaited `login` fetch is not modelled). */
module AuthContext {
  import opened Common
  import opened Http
  import N8nService

  /** `localStorage`, as far as the `session_token` item goes. */
  class Storage {
    var sessionToken: Option<string>

    constructor (sessionToken: Option<string>)
      ensures this.sessionToken == sessionToken
    {
      this.sessionToken := sessionToken;
    }
  }

  /** The answer to `GET /auth/me`: whether the status was 2xx, and the body
      when it parses as JSON. */
  datatype MeReply = MeReply(ok: bool, body: Option<Json>)

  /** The user `fetchUser` accepts: a 2xx reply whose body has a truthy
      `success` and a truthy `user`. A failed fetch is `None`. */
  function FetchedUser(reply: Option<MeReply>): (u: Option<Json>)
    ensures u.Some? <==>
              reply.Some? && reply.value.ok && reply.value.body.Some?
              && N8nService.JsonTruthy(Field(reply.value.body.value, "success"))
              && N8nService.JsonTruthy(Field(reply.value.body.value, "user"))
    ensures u.Some? ==> Field(reply.value.body.value, "user") == u
  {
    if reply.None? || !reply.value.ok || reply.value.body.None? then None
    else
      var data := reply.value.body.value;
      if N8nService.JsonTruthy(Field(data, "success")) && N8nService.JsonTruthy(Field(data, "user"))
      then Field(data, "user")
      else None
  }

  const OutsideProvider := "useAuth must be used within an AuthProvider"

  /** The provider's state. `logoutCalls` are the tokens sent to `/auth/logout`. */
  class Auth {
    var user: Option<Json>
    var isAuthenticated: bool
    var isLoading: bool
    var logoutCalls: seq<string>
    const storage: Storage

    /** The flag says whether a user is held. */
    predicate Consistent()
      reads this
    {
      isAuthenticated <==> user.Some?
    }

    constructor (storage: Storage)
      ensures this.storage == storage && user.None? && !isAuthenticated && isLoading && logoutCalls == []
      ensures Consistent()
    {
      this.storage := storage;
      user := None;
      isAuthenticated := false;
      isLoading := true;
      logoutCalls := [];
    }

    /** `fetchUser`: an accepted user is stored and marks the context
        authenticated; any failure removes the stored token and clears both. */
    method FetchUser(token: string, me: string -> Option<MeReply>) returns (u: Option<Json>)
      modifies this, storage
      ensures u == FetchedUser(me(token)) && user == u && Consistent()
      ensures storage.sessionToken == if u.Some? then old(storage.sessionToken) else None
      ensures isLoading == old(isLoading) && logoutCalls == old(logoutCalls)
    {
      u := FetchedUser(me(token));
      if u.Some? {
        user := u;
        isAuthenticated := true;
      } else {
        storage.sessionToken := None;
        user := None;
        isAuthenticated := false;
      }
    }

    /** `initAuth`: a token in the URL is stored and fetched; otherwise a
        stored token is fetched; otherwise nothing is fetched. Loading ends
        in every case. */
    method InitAuth(urlToken: Option<string>, me: string -> Option<MeReply>)
      requires Consistent()
      modifies this, storage
      ensures !isLoading && Consistent() && logoutCalls == old(logoutCalls)
      ensures Truthy(urlToken) ==>
                user == FetchedUser(me(urlToken.value))
                && storage.sessionToken == if user.Some? then urlToken else None
      ensures !Truthy(urlToken) && Truthy(old(storage.sessionToken)) ==>
                user == FetchedUser(me(old(storage.sessionToken).value))
                && storage.sessionToken == if user.Some? then old(storage.sessionToken) else None
      ensures !Truthy(urlToken) && !Truthy(old(storage.sessionToken)) ==>
                user == old(user) && storage.sessionToken == old(storage.sessionToken)
    {
      if Truthy(urlToken) {
        storage.sessionToken := urlToken;
        var _ := FetchUser(urlToken.value, me);
      } else {
        var storedToken := storage.sessionToken;
        if Truthy(storedToken) {
          var _ := FetchUser(storedToken.value, me);
        }
      }
      isLoading := false;
    }

    /** `login`: stores the token, then fetches its user. */
    method Login(sessionToken: string, me: string -> Option<MeReply>)
      modifies this, storage
      ensures user == FetchedUser(me(sessionToken)) && Consistent()
      ensures storage.sessionToken == if user.Some? then Some(sessionToken) else None
      ensures isLoading == old(isLoading) && logoutCalls == old(logoutCalls)
    {
      storage.sessionToken := Some(sessionToken);
      var _ := FetchUser(sessionToken, me);
    }

    /** `logout`: tells the server when a token is stored (its failure is
        swallowed), then clears the token, the user and the flag. */
    method Logout()
      modifies this, storage
      ensures logoutCalls == old(logoutCalls) + (if Truthy(old(storage.sessionToken)) then [old(storage.sessionToken).value] else [])
      ensures storage.sessionToken.None? && user.None? && !isAuthenticated && Consistent()
      ensures isLoading == old(isLoading)
    {
      var token := storage.sessionToken;
      if Truthy(token) {
        logoutCalls := logoutCalls + [token.value];
      }
      storage.sessionToken := None;
      user := None;
      isAuthenticated := false;
    }

    /** `refreshUser`: fetches again with the stored token, and does
        nothing without one. */
    method RefreshUser(me: string -> Option<MeReply>)
      requires Consistent()
      modifies this, storage
      ensures Consistent() && isLoading == old(isLoading) && logoutCalls == old(logoutCalls)
      ensures !Truthy(old(storage.sessionToken)) ==>
                user == old(user) && isAuthenticated == old(isAuthenticated)
                && storage.sessionToken == old(storage.sessionToken)
      ensures Truthy(old(storage.sessionToken)) ==>
                user == FetchedUser(me(old(storage.sessionToken).value))
                && storage.sessionToken == if user.Some? then old(storage.sessionToken) else None
    {
      var token := storage.sessionToken;
      if Truthy(token) {
        var _ := FetchUser(token.value, me);
      }
    }
  }

  /** `useAuth`: the context inside a provider, an error outside one. */
  function UseAuth(context: Option<Auth>): (r: Result<Auth, string>)
    ensures r.Ok? <==> context.Some?
    ensures r.Ok? ==> r.value == context.value
    ensures r.Err? ==> r.error == OutsideProvider
  {
    if context.None? then Err(OutsideProvider) else Ok(context.value)
  }

  /** An authenticated session always has its token stored: after mounting,
      after a login and after a refresh. */
  predicate SessionBacked(a: Auth)
    reads a, a.storage
  {
    a.isAuthenticated ==> a.storage.sessionToken.Some?
  }

  /** Signing in and then out leaves no user, no token, and one logout call
      when the sign-in left a non-empty token. */
  method LoginThenLogout(a: Auth, token: string, me: string -> Option<MeReply>)
    modifies a, a.storage
    ensures a.user.None? && !a.isAuthenticated && a.storage.sessionToken.None?
    ensures a.logoutCalls == old(a.logoutCalls) + (if token != "" && FetchedUser(me(token)).Some? then [token] else [])
  {
    a.Login(token, me);
    a.Logout();
  }

  /** After a logout, a refresh fetches nothing and keeps the signed-out state. */
  method RefreshAfterLogout(a: Auth, me: string -> Option<MeReply>)
    modifies a, a.storage
    ensures a.user.None? && !a.isAuthenticated && a.storage.sessionToken.None?
  {
    a.Logout();
    a.RefreshUser(me);
  }

  /** Mounting, logging in and refreshing keep an authenticated context backed by a stored token. */
  method SessionStaysBacked(a: Auth, urlToken: Option<string>, token: string, me: string -> Option<MeReply>)
    requires a.Consistent() && SessionBacked(a)
    modifies a, a.storage
    ensures SessionBacked(a)
  {
    a.InitAuth(urlToken, me);
    a.Login(token, me);
    a.RefreshUser(me);
  }
}
