/** The route guard: what a protected route renders for a session. */
module PrivateRoute {
  import opened Types

  /** The loading indicator, a redirect to /unauthorized, the nested page
      (the outlet), or a redirect to /login. */
  datatype Outcome = Spinner | ToUnauthorized | Outlet | ToLogin

  /** An absent or empty role list admits every role. */
  predicate RoleAllowed(allowedRoles: Option<seq<Role>>, role: Role) {
    allowedRoles.None? || |allowedRoles.value| == 0 || role in allowedRoles.value
  }

  /** The render decision over `(isLoading, user, allowedRoles)`. */
  function Decide(isLoading: bool, user: Option<User>, allowedRoles: Option<seq<Role>>): (o: Outcome)
    ensures o == Spinner <==> isLoading
    ensures o == ToLogin <==> !isLoading && user.None?
    ensures o == ToUnauthorized <==> !isLoading && user.Some? && !RoleAllowed(allowedRoles, user.value.role)
    ensures o == Outlet <==> !isLoading && user.Some? && RoleAllowed(allowedRoles, user.value.role)
  {
    if isLoading then Spinner
    else if allowedRoles.Some? && |allowedRoles.value| > 0 && user.Some? && user.value.role !in allowedRoles.value then ToUnauthorized
    else if user.Some? then Outlet
    else ToLogin
  }

  /** The guard's effect: once loading is over without a user, go to /login. */
  function EffectNavigation(isLoading: bool, user: Option<User>): (target: Option<string>)
    ensures target.Some? <==> !isLoading && user.None?
    ensures target.Some? ==> target.value == "/login"
  {
    if !isLoading && user.None? then Some("/login") else None
  }

  /** The effect fires exactly when the render itself redirects to /login,
      so the two never disagree. */
  lemma EffectAgreesWithRender(isLoading: bool, user: Option<User>, allowedRoles: Option<seq<Role>>)
    ensures EffectNavigation(isLoading, user).Some? <==> Decide(isLoading, user, allowedRoles) == ToLogin
    ensures EffectNavigation(isLoading, user) != Some("/unauthorized")
  {
  }
}
