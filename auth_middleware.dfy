/** Session verification and role gates (`auth.js`). The join of `sessions`
    and `users` is modelled on the two tables passed in as sequences; the
    clock is the `now` parameter. */
module AuthMiddleware {
  import opened Common
  import opened Http

  datatype SessionRow = SessionRow(token: string, email: string, expiresAt: int, isActive: bool)

  datatype UserRow = UserRow(
    id: nat,
    email: string,
    fullName: Option<string>,
    googleId: Option<string>,
    profilePicture: Option<string>,
    role: string,
    erpnextEmployeeId: Option<string>,
    designation: Option<string>,
    reportsTo: Option<string>,
    isActive: bool,
    lastLogin: Option<int>)

  /** `req.headers.authorization?.replace('Bearer ', '')` */
  function ExtractToken(authorization: Option<string>): (t: Option<string>)
    ensures authorization.None? ==> t.None?
  {
    if authorization.None? then None else Some(ReplaceFirst(authorization.value, "Bearer ", ""))
  }

  /** What the client sends (`'Bearer ' + token`) is what the server extracts. */
  lemma BearerRoundTrip(token: string)
    ensures ExtractToken(Some("Bearer " + token)) == Some(token)
  {
    ReplacePrefix("Bearer ", token);
  }

  /** The WHERE clause of the session query, with the join condition. */
  predicate Accepts(s: SessionRow, u: UserRow, token: string, now: int)
    ensures Accepts(s, u, token, now) ==> s.token == token && s.email == u.email
    ensures s.expiresAt <= now || !s.isActive || !u.isActive ==> !Accepts(s, u, token, now)
  {
    s.email == u.email && s.token == token && s.isActive && s.expiresAt > now && u.isActive
  }

  /** The first joined row the query returns, if any. */
  function FindSession(sessions: seq<SessionRow>, users: seq<UserRow>, token: string, now: int): (r: Option<(SessionRow, UserRow)>)
    ensures r.Some? ==> r.value.0 in sessions && r.value.1 in users && Accepts(r.value.0, r.value.1, token, now)
    ensures r.None? ==> forall s, u :: s in sessions && u in users ==> !Accepts(s, u, token, now)
    decreases |sessions|
  {
    if sessions == [] then None
    else
      var u := FirstUser(sessions[0], users, token, now);
      if u.Some? then Some((sessions[0], u.value))
      else FindSession(sessions[1..], users, token, now)
  }

  function FirstUser(s: SessionRow, users: seq<UserRow>, token: string, now: int): (r: Option<UserRow>)
    ensures r.Some? ==> r.value in users && Accepts(s, r.value, token, now)
    ensures r.None? ==> forall u :: u in users ==> !Accepts(s, u, token, now)
    decreases |users|
  {
    if users == [] then None
    else if Accepts(s, users[0], token, now) then Some(users[0])
    else FirstUser(s, users[1..], token, now)
  }

  /** The nine fields copied into `req.user`; the email is the session's. */
  function ToSessionUser(s: SessionRow, u: UserRow): (user: SessionUser)
    ensures user.email == s.email && user.id == u.id && user.role == u.role
    ensures user.erpnextEmployeeId == u.erpnextEmployeeId && user.reportsTo == u.reportsTo
  {
    SessionUser(u.id, s.email, u.fullName, u.googleId, u.profilePicture, u.role,
                u.erpnextEmployeeId, u.designation, u.reportsTo)
  }

  /** How a middleware ends: a JSON error with a status, or `next()`. */
  datatype Outcome = Reject(status: nat, error: string) | Next

  /** `verifySession`: 401 without a token or without an accepted session;
      otherwise `req.user` is set from the joined row and `next()` is called. */
  method VerifySession(req: ServerRequest, sessions: seq<SessionRow>, users: seq<UserRow>, now: int)
    returns (out: Outcome)
    modifies req
    ensures req.authorization == old(req.authorization) && req.body == old(req.body)
    ensures var token := ExtractToken(req.authorization);
      if !Truthy(token) then out == Reject(401, "No session token provided") && req.user == old(req.user)
      else if FindSession(sessions, users, token.value, now).None? then
        out == Reject(401, "Invalid or expired session") && req.user == old(req.user)
      else
        var row := FindSession(sessions, users, token.value, now).value;
        out == Next && req.user == Some(ToSessionUser(row.0, row.1))
  {
    var sessionToken := ExtractToken(req.authorization);
    if !Truthy(sessionToken) {
      return Reject(401, "No session token provided");
    }
    var result := FindSession(sessions, users, sessionToken.value, now);
    if result.None? {
      return Reject(401, "Invalid or expired session");
    }
    req.user := Some(ToSessionUser(result.value.0, result.value.1));
    out := Next;
  }

  /** A token is accepted exactly when some active, unexpired session with it
      belongs to an active user. */
  lemma SessionAcceptance(sessions: seq<SessionRow>, users: seq<UserRow>, token: string, now: int)
    ensures FindSession(sessions, users, token, now).Some? <==>
      exists s, u :: s in sessions && u in users && Accepts(s, u, token, now)
  {
    if FindSession(sessions, users, token, now).Some? {
      var r := FindSession(sessions, users, token, now).value;
      assert r.0 in sessions && r.1 in users && Accepts(r.0, r.1, token, now);
    }
  }

  /** `requireRole(...allowedRoles)` */
  function RequireRole(allowed: seq<string>, user: Option<SessionUser>): (out: Outcome)
    ensures user.None? ==> out == Reject(401, "Authentication required")
    ensures user.Some? && user.value.role !in allowed ==> out == Reject(403, "Insufficient permissions")
    ensures out == Next <==> user.Some? && user.value.role in allowed
  {
    if user.None? then Reject(401, "Authentication required")
    else if user.value.role !in allowed then Reject(403, "Insufficient permissions")
    else Next
  }

  /** `canApprove`: both branches call `next()`, so only a missing user is refused. */
  function CanApprove(user: Option<SessionUser>): (out: Outcome)
    ensures out == Next <==> user.Some?
    ensures user.None? ==> out == Reject(401, "Authentication required")
  {
    if user.None? then Reject(401, "Authentication required")
    else if user.value.role in ["Owner", "HR", "Project Coordinator"] then Next
    else Next
  }
}
