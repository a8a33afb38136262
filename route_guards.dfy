/**
 * The two route guards: the one in front of each dashboard, admitting only
 * a logged-in user of the right role, and the one in front of the login
 * page, sending a logged-in user to their dashboard.
 */
module RouteGuards {
  import opened Wrappers
  import opened Auth
  import Routes

  /** What a guard renders. */
  datatype Rendered = RenderChildren | RedirectTo(path: string) | RenderNothing

  /**
   * `ProtectedRoute`: the children exactly when logged in with the required
   * role; every other case redirects, and only ever to the login route.
   */
  function ProtectedRoute(isLoggedIn: bool, userType: Option<UserType>, required: UserType): (r: Rendered)
    ensures r == RenderChildren <==> isLoggedIn && userType == Some(required)
    ensures r != RenderChildren ==> r == RedirectTo(Routes.LOGIN)
  {
    if !isLoggedIn then RedirectTo(Routes.LOGIN)
    else if userType != Some(required) then RedirectTo(Routes.LOGIN)
    else RenderChildren
  }

  /**
   * `AuthRedirect`: nothing until initialized, whatever the login state;
   * then a logged-in user with a role goes to that role's dashboard, and
   * anyone else sees the children (the login page).
   */
  function AuthRedirect(isInitialized: bool, isLoggedIn: bool, userType: Option<UserType>): (r: Rendered)
    ensures !isInitialized <==> r == RenderNothing
    ensures r.RedirectTo? <==> isInitialized && isLoggedIn && userType.Some?
    ensures r.RedirectTo? ==> r.path == Routes.DashboardFor(userType.value)
    ensures r == RenderChildren <==> isInitialized && (!isLoggedIn || userType.None?)
  {
    if !isInitialized then RenderNothing
    else if isLoggedIn && userType.Some? then RedirectTo(Routes.DashboardFor(userType.value))
    else RenderChildren
  }

  /**
   * No redirect loop: where the login-page guard sends a user, the dashboard
   * guard of that route admits the same user; and the dashboard guard only
   * ever sends users back to the login page.
   */
  lemma NoRedirectLoop(isInitialized: bool, isLoggedIn: bool, userType: Option<UserType>)
    ensures var r := AuthRedirect(isInitialized, isLoggedIn, userType);
      r.RedirectTo? ==>
        && Routes.GuardedRole(r.path).Some?
        && ProtectedRoute(isLoggedIn, userType, Routes.GuardedRole(r.path).value) == RenderChildren
  {
  }
}
