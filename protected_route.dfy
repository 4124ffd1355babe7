/** `ProtectedRoute`: what a guarded route renders from the authentication
    context and the roles it requires. The user is the JSON object the
    context holds; its role is the `role` field. */
module ProtectedRoute {
  import opened Common
  import opened Http
  import AuthContext

  /** What the route renders. `AccessDenied` shows the user's role. */
  datatype Screen = Spinner | RedirectLogin | AccessDenied(role: Option<Json>) | Children

  /** `requireRole.includes(user.role)`: strict equality with one of the
      listed names, so a missing or non-string role is never included. */
  predicate Includes(roles: seq<string>, role: Option<Json>)
  {
    role.Some? && role.value.JStr? && role.value.s in roles
  }

  /** The guards in order: loading, then signed out, then a present user
      whose role is not listed when a role list is given (an array, even an
      empty one, is truthy). */
  function Guard(isLoading: bool, isAuthenticated: bool, user: Option<Json>, requireRole: Option<seq<string>>): (s: Screen)
    ensures isLoading ==> s == Spinner
    ensures s == RedirectLogin <==> !isLoading && !isAuthenticated
    ensures s.AccessDenied? <==>
              !isLoading && isAuthenticated && requireRole.Some? && user.Some?
              && !Includes(requireRole.value, Field(user.value, "role"))
    ensures s.AccessDenied? ==> s.role == Field(user.value, "role")
    ensures s == Children <==>
              !isLoading && isAuthenticated
              && (requireRole.None? || user.None? || Includes(requireRole.value, Field(user.value, "role")))
  {
    if isLoading then Spinner
    else if !isAuthenticated then RedirectLogin
    else if requireRole.Some? && user.Some? && !Includes(requireRole.value, Field(user.value, "role"))
    then AccessDenied(Field(user.value, "role"))
    else Children
  }

  /** The route as rendered from a context. */
  function Render(a: AuthContext.Auth, requireRole: Option<seq<string>>): Screen
    reads a
  {
    Guard(a.isLoading, a.isAuthenticated, a.user, requireRole)
  }

  /** Without a role list, every signed-in user past loading sees the page. */
  lemma NoRoleListAdmitsAll(isAuthenticated: bool, user: Option<Json>)
    ensures Guard(false, isAuthenticated, user, None) == (if isAuthenticated then Children else RedirectLogin)
  {
  }

  /** An empty role list turns every present user away. */
  lemma EmptyRoleListDeniesAll(user: Json)
    ensures Guard(false, true, Some(user), Some([])).AccessDenied?
  {
  }

  /** The roles the admin route requires. */
  const AdminRoles: seq<string> := ["Owner", "HR", "Project Coordinator"]

  /** The admin route shows its page to a user of a listed role and denies
      an employee. */
  lemma AdminRouteRoles(fields: seq<(string, Json)>, role: string)
    requires Field(JObj(fields), "role") == Some(JStr(role))
    ensures Guard(false, true, Some(JObj(fields)), Some(AdminRoles)) == Children <==> role in AdminRoles
    ensures role == "Employee" ==> Guard(false, true, Some(JObj(fields)), Some(AdminRoles)).AccessDenied?
  {
  }

  /** Once mounting has finished, a guarded route never shows the spinner,
      and a signed-out context is sent to the login page. */
  method RouteAfterMount(a: AuthContext.Auth, urlToken: Option<string>,
                         me: string -> Option<AuthContext.MeReply>, requireRole: Option<seq<string>>)
    returns (screen: Screen)
    requires a.Consistent()
    modifies a, a.storage
    ensures screen == Render(a, requireRole)
    ensures screen != Spinner
    ensures a.user.None? ==> screen == RedirectLogin
  {
    a.InitAuth(urlToken, me);
    screen := Guard(a.isLoading, a.isAuthenticated, a.user, requireRole);
  }

  /** After a logout every guarded route redirects to the login page. */
  method RouteAfterLogout(a: AuthContext.Auth, requireRole: Option<seq<string>>) returns (screen: Screen)
    requires !a.isLoading
    modifies a, a.storage
    ensures screen == RedirectLogin
  {
    a.Logout();
    screen := Guard(a.isLoading, a.isAuthenticated, a.user, requireRole);
  }
}
