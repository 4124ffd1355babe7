/** `AuthController`: the Google callback (guards, role assignment on first
    login, user and session writes) and logout. Google, the ERP and the
    access-control service are inputs: the verified Google profile (or the
    failure message), the ERP answers and the access check's boolean. */
module AuthController {
  import opened Common
  import opened ErpNextService
  import opened OAuthService
  import opened AuthMiddleware

  /** What `verifyGoogleToken` returns. */
  datatype GoogleUser = GoogleUser(email: string, fullName: Option<string>, googleId: Option<string>, profilePicture: Option<string>)

  const Roles: seq<string> := ["Owner", "HR", "Project Coordinator", "Employee"]

  /** The role of a new user: Owner when the ERP says so, else a lower-cased
      designation containing "hr" gives HR, "coordinator" or "manager" gives
      Project Coordinator, and anything else (or no ERP record) Employee. */
  function DetermineRole(erp: Option<Employee>, ownerLookup: Response<EmployeeDoc>): (role: string)
    ensures role in Roles
    ensures erp.None? ==> role == "Employee"
    ensures role == "Owner" <==> erp.Some? && IsCompanyOwner(ownerLookup)
    ensures role == "HR" <==>
              erp.Some? && !IsCompanyOwner(ownerLookup) && erp.value.designation != ""
              && Contains(ToLower(erp.value.designation), "hr")
    ensures role == "Project Coordinator" ==>
              Contains(ToLower(erp.value.designation), "coordinator") || Contains(ToLower(erp.value.designation), "manager")
  {
    if erp.None? then "Employee"
    else
      var d := erp.value.designation;
      if IsCompanyOwner(ownerLookup) then "Owner"
      else if d != "" && Contains(ToLower(d), "hr") then "HR"
      else if d != "" && (Contains(ToLower(d), "coordinator") || Contains(ToLower(d), "manager")) then "Project Coordinator"
      else "Employee"
  }

  /** A non-owner's designation is classified by its lower-cased text alone. */
  lemma RoleFromDesignation(e: Employee, ownerLookup: Response<EmployeeDoc>)
    requires !IsCompanyOwner(ownerLookup) && e.designation != ""
    ensures DetermineRole(Some(e), ownerLookup) ==
      if Contains(ToLower(e.designation), "hr") then "HR"
      else if Contains(ToLower(e.designation), "coordinator") || Contains(ToLower(e.designation), "manager") then "Project Coordinator"
      else "Employee"
  {
  }

  /** "HR" wins over "manager": an HR Manager becomes HR. */
  lemma HrManagerIsHr(e: Employee, ownerLookup: Response<EmployeeDoc>)
    requires !IsCompanyOwner(ownerLookup) && e.designation == "HR Manager"
    ensures DetermineRole(Some(e), ownerLookup) == "HR"
  {
    var lower := ToLower("HR Manager");
    assert lower == "hr manager" by {
      assert forall i :: 0 <= i < |lower| ==> lower[i] == "hr manager"[i];
    }
    assert StartsWith(lower, "hr");
  }

  /** A Project Manager becomes Project Coordinator. */
  lemma ProjectManagerIsCoordinator(e: Employee, ownerLookup: Response<EmployeeDoc>)
    requires !IsCompanyOwner(ownerLookup) && e.designation == "Project Manager"
    ensures DetermineRole(Some(e), ownerLookup) == "Project Coordinator"
  {
    LowerProjectManager();
    ProjectManagerHasNoHr();
    ProjectManagerHasManager();
    RoleFromDesignation(e, ownerLookup);
  }

  lemma ProjectManagerHasManager()
    ensures Contains("project manager", "manager")
  {
    var lower := "project manager";
    assert lower[8..15] == "manager";
    assert OccursAt(lower, "manager", 8);
    ContainsAt(lower, "manager");
  }

  lemma ProjectManagerHasNoHr()
    ensures !Contains("project manager", "hr")
  {
    var lower := "project manager";
    assert forall i :: 0 <= i < |lower| ==> lower[i] != 'h';
    NotContainsWithoutFirstChar(lower, "hr");
  }

  lemma LowerProjectManager()
    ensures ToLower("Project Manager") == "project manager"
  {
    var lower := ToLower("Project Manager");
    assert forall i :: 0 <= i < |lower| ==> lower[i] == "project manager"[i];
  }

  /** `oauthService.checkCetAccess` as the controller calls it: the service
      defines no such method, so the call throws a TypeError. */
  function CheckCetAccessAsWritten(email: string): (r: Result<bool, string>)
    ensures r.Err?
  {
    Err("oauthService.checkCetAccess is not a function")
  }

  /** The evidently intended call, `cetAccessService.checkUserAccess`, which
      never throws and answers with a boolean. */
  function CheckCetAccessCorrected(checkUserAccess: string -> bool, email: string): (r: Result<bool, string>)
    ensures r.Ok? && r.value == checkUserAccess(email)
  {
    Ok(checkUserAccess(email))
  }

  /** Where the callback goes before it touches the database. */
  datatype Gate = Stop(error: string) | Proceed(user: GoogleUser)

  /** The three guards in order, then the catch-all `auth_failed` for a
      failed Google exchange or a failed access check. */
  function CallbackGate(code: Option<string>, google: Result<GoogleUser, string>,
                        cet: string -> Result<bool, string>): (g: Gate)
    ensures !Truthy(code) ==> g == Stop("no_code")
    ensures g.Proceed? <==>
              Truthy(code) && google.Ok? && CheckDomainAccess(google.value.email)
              && cet(google.value.email) == Ok(true)
    ensures g.Proceed? ==> g.user == google.value
    ensures g == Stop("unauthorized_domain") <==> Truthy(code) && google.Ok? && !CheckDomainAccess(google.value.email)
    ensures g == Stop("access_denied") <==>
              Truthy(code) && google.Ok? && CheckDomainAccess(google.value.email) && cet(google.value.email) == Ok(false)
  {
    if !Truthy(code) then Stop("no_code")
    else if google.Err? then Stop("auth_failed")
    else if !CheckDomainAccess(google.value.email) then Stop("unauthorized_domain")
    else
      var access := cet(google.value.email);
      if access.Err? then Stop("auth_failed")
      else if !access.value then Stop("access_denied")
      else Proceed(google.value)
  }

  /** As written, no login gets past the access check: every callback with
      a code and an allowed domain ends in `auth_failed`. */
  lemma AsWrittenEveryLoginFails(code: Option<string>, google: Result<GoogleUser, string>)
    requires Truthy(code) && google.Ok? && CheckDomainAccess(google.value.email)
    ensures CallbackGate(code, google, CheckCetAccessAsWritten) == Stop("auth_failed")
  {
    assert CheckCetAccessAsWritten(google.value.email).Err?;
  }

  /** With the intended call, a user the access service admits gets in. */
  lemma CorrectedAdmitsGrantedUsers(code: Option<string>, g: GoogleUser, checkUserAccess: string -> bool)
    requires Truthy(code) && CheckDomainAccess(g.email)
    ensures CallbackGate(code, Ok(g), e => CheckCetAccessCorrected(checkUserAccess, e)) ==
              if checkUserAccess(g.email) then Proceed(g) else Stop("access_denied")
  {
  }

  /** Where the callback redirects. */
  datatype Redirect = LoginError(error: string) | Frontend(sessionToken: string, newUser: bool)

  /** `x || null` on a nullable text. */
  function OrNull(o: Option<string>): (r: Option<string>)
    ensures r.Some? <==> Truthy(o)
    ensures r.Some? ==> r == o
  {
    if Truthy(o) then o else None
  }

  /** The row inserted for a first login. */
  function NewUserRow(id: nat, g: GoogleUser, erp: Option<Employee>, role: string, now: int): UserRow
  {
    UserRow(id, g.email, g.fullName, g.googleId, g.profilePicture, role,
            if erp.Some? then OrNull(Some(erp.value.employeeId)) else None,
            if erp.Some? then OrNull(Some(erp.value.designation)) else None,
            if erp.Some? then OrNull(erp.value.reportsTo) else None,
            true, Some(now))
  }

  /** Is there a row for this e-mail (`SELECT * FROM users WHERE email = $1`)? */
  predicate HasUser(users: seq<UserRow>, email: string)
  {
    exists i :: 0 <= i < |users| && users[i].email == email
  }

  /** `UPDATE users SET profile_picture = $1, last_login = NOW() WHERE email = $2` */
  function UpdateLogin(users: seq<UserRow>, email: string, picture: Option<string>, now: int): (r: seq<UserRow>)
    ensures |r| == |users|
    ensures forall i :: 0 <= i < |users| && users[i].email != email ==> r[i] == users[i]
    ensures forall i :: 0 <= i < |users| && users[i].email == email ==>
              r[i] == users[i].(profilePicture := picture, lastLogin := Some(now))
  {
    seq(|users|, i requires 0 <= i < |users| =>
      if users[i].email == email then users[i].(profilePicture := picture, lastLogin := Some(now)) else users[i])
  }

  /** An existing user's role and ERP fields survive a login. */
  lemma LoginKeepsRoles(users: seq<UserRow>, email: string, picture: Option<string>, now: int)
    ensures forall i :: 0 <= i < |users| ==>
      var u := UpdateLogin(users, email, picture, now)[i];
      u.role == users[i].role && u.erpnextEmployeeId == users[i].erpnextEmployeeId
      && u.email == users[i].email && u.isActive == users[i].isActive
  {
  }

  /** `UPDATE sessions SET is_active = false WHERE session_token = $1` */
  function Deactivate(sessions: seq<SessionRow>, token: string): (r: seq<SessionRow>)
    ensures |r| == |sessions|
    ensures forall i :: 0 <= i < |sessions| ==>
              r[i] == if sessions[i].token == token then sessions[i].(isActive := false) else sessions[i]
  {
    seq(|sessions|, i requires 0 <= i < |sessions| =>
      if sessions[i].token == token then sessions[i].(isActive := false) else sessions[i])
  }

  /** After logout the token no longer opens a session, whatever the users and the clock. */
  lemma LoggedOutTokenRefused(sessions: seq<SessionRow>, users: seq<UserRow>, token: string, now: int)
    ensures FindSession(Deactivate(sessions, token), users, token, now).None?
  {
    var d := Deactivate(sessions, token);
    forall s, u | s in d && u in users ensures !Accepts(s, u, token, now) {
      var i :| 0 <= i < |d| && d[i] == s;
      assert d[i].token == token ==> !d[i].isActive;
    }
  }

  /** The `users` and `sessions` tables. */
  class AuthStore {
    var users: seq<UserRow>
    var sessions: seq<SessionRow>
    var nextUserId: nat

    constructor (users: seq<UserRow>, sessions: seq<SessionRow>, nextUserId: nat)
      ensures this.users == users && this.sessions == sessions && this.nextUserId == nextUserId
    {
      this.users := users;
      this.sessions := sessions;
      this.nextUserId := nextUserId;
    }

    /** `googleCallback`. `cet` is the access check the controller calls;
        `erpLookup` answers `getEmployeeByEmail`, `ownerLookup` the
        `isCompanyOwner` fetch; `random` is the token's bytes and `expiresAt`
        the session's expiry. */
    method GoogleCallback(code: Option<string>, google: Result<GoogleUser, string>,
                          cet: string -> Result<bool, string>,
                          erpLookup: Response<seq<EmployeeDoc>>, ownerLookup: Response<EmployeeDoc>,
                          random: seq<Byte>, expiresAt: int, now: int)
      returns (r: Redirect)
      requires |random| == 32
      modifies this
      ensures CallbackGate(code, google, cet).Stop? ==>
                r == LoginError(CallbackGate(code, google, cet).error)
                && users == old(users) && sessions == old(sessions) && nextUserId == old(nextUserId)
      ensures CallbackGate(code, google, cet).Proceed? ==>
                var g := google.value;
                var token := GenerateSessionToken(random);
                sessions == old(sessions) + [SessionRow(token, g.email, expiresAt, true)]
                && r == Frontend(token, !HasUser(old(users), g.email))
      ensures CallbackGate(code, google, cet).Proceed? && !HasUser(old(users), google.value.email) ==>
                var erp := GetEmployeeByEmail(erpLookup);
                users == old(users) + [NewUserRow(old(nextUserId), google.value, erp, DetermineRole(erp, ownerLookup), now)]
                && nextUserId == old(nextUserId) + 1
      ensures CallbackGate(code, google, cet).Proceed? && HasUser(old(users), google.value.email) ==>
                users == UpdateLogin(old(users), google.value.email, google.value.profilePicture, now)
                && nextUserId == old(nextUserId)
    {
      var gate := CallbackGate(code, google, cet);
      if gate.Stop? {
        return LoginError(gate.error);
      }
      var g := gate.user;
      var isNewUser := false;
      if !HasUser(users, g.email) {
        var erp := GetEmployeeByEmail(erpLookup);
        var role := DetermineRole(erp, ownerLookup);
        users := users + [NewUserRow(nextUserId, g, erp, role, now)];
        nextUserId := nextUserId + 1;
        isNewUser := true;
      } else {
        users := UpdateLogin(users, g.email, g.profilePicture, now);
      }
      var sessionToken := GenerateSessionToken(random);
      sessions := sessions + [SessionRow(sessionToken, g.email, expiresAt, true)];
      r := Frontend(sessionToken, isNewUser);
    }

    /** `logout`: deactivates the sessions holding the stripped bearer token,
        if there is one, and reports success either way. */
    method Logout(authorization: Option<string>) returns (message: string)
      modifies this
      ensures message == "Logged out successfully"
      ensures users == old(users) && nextUserId == old(nextUserId)
      ensures var token := ExtractToken(authorization);
        sessions == if Truthy(token) then Deactivate(old(sessions), token.value) else old(sessions)
    {
      var sessionToken := ExtractToken(authorization);
      if Truthy(sessionToken) {
        sessions := Deactivate(sessions, sessionToken.value);
      }
      message := "Logged out successfully";
    }
  }

  /** Logging out with `Bearer t` makes every later `verifySession` with `t` answer 401. */
  method LogoutThenVerify(store: AuthStore, req: Http.ServerRequest, token: string, now: int) returns (out: Outcome)
    requires token != "" && req.authorization == Some("Bearer " + token)
    modifies store, req
    ensures out == Reject(401, "Invalid or expired session")
  {
    BearerRoundTrip(token);
    var _ := store.Logout(req.authorization);
    LoggedOutTokenRefused(old(store.sessions), store.users, token, now);
    out := VerifySession(req, store.sessions, store.users, now);
  }
}
