/**
 * The route guard around the dashboard: what it renders and where it
 * redirects, from the session's loading flag, whether a user is signed in,
 * and whether the route demands an administrator.
 */
module AuthGuard {
  import opened Common
  import opened AuthContext

  /** What the guard renders: the "checking session" spinner, nothing, or the protected children. */
  datatype View = Spinner | Blank | Children

  /** The `requireAdmin` prop, false when left out. */
  function RequireAdmin(prop: Option<bool>): bool
  {
    if prop.Some? then prop.value else false
  }

  /** `user?.isAdmin` is truthy. */
  predicate IsAdmin(user: Option<User>)
  {
    user.Some? && user.value.isAdmin
  }

  /** The redirect the guard's effect issues. */
  function Redirect(isLoading: bool, isAuthenticated: bool, requireAdmin: bool, user: Option<User>): Navigation
  {
    if isLoading then Stay
    else if !isAuthenticated then Replace("/login")
    else if requireAdmin && !IsAdmin(user) then Replace("/dashboard")
    else Stay
  }

  /** What the guard renders. */
  function Render(isLoading: bool, isAuthenticated: bool, requireAdmin: bool, user: Option<User>): View
  {
    if isLoading || !isAuthenticated then Spinner
    else if requireAdmin && !IsAdmin(user) then Blank
    else Children
  }

  /** With the prop omitted `requireAdmin` is false, so any signed-in user passes. */
  lemma RequireAdminDefault(user: Option<User>)
    ensures !RequireAdmin(None)
    ensures Render(false, true, RequireAdmin(None), user) == Children
  {
  }

  /** While the session loads nothing redirects and the spinner shows. */
  lemma LoadingWaits(isAuthenticated: bool, requireAdmin: bool, user: Option<User>)
    ensures Redirect(true, isAuthenticated, requireAdmin, user) == Stay
    ensures Render(true, isAuthenticated, requireAdmin, user) == Spinner
  {
  }

  /** Once loaded, a visitor who is not signed in is sent to the login page and never sees the children. */
  lemma SignedOutRedirected(requireAdmin: bool, user: Option<User>)
    ensures Redirect(false, false, requireAdmin, user) == Replace("/login")
    ensures Render(false, false, requireAdmin, user) != Children
  {
  }

  /** A signed-in user who is not an administrator, on an admin route, goes to the dashboard and sees nothing. */
  lemma NonAdminRedirected(user: Option<User>)
    requires !IsAdmin(user)
    ensures Redirect(false, true, true, user) == Replace("/dashboard")
    ensures Render(false, true, true, user) == Blank
  {
  }

  /**
   * The children render exactly when loading is over, a user is signed in,
   * and the route needs no administrator or the user is one; then nothing
   * redirects.
   */
  lemma ChildrenExactly(isLoading: bool, isAuthenticated: bool, requireAdmin: bool, user: Option<User>)
    ensures Render(isLoading, isAuthenticated, requireAdmin, user) == Children <==>
      !isLoading && isAuthenticated && (!requireAdmin || IsAdmin(user))
    ensures Render(isLoading, isAuthenticated, requireAdmin, user) == Children ==>
      Redirect(isLoading, isAuthenticated, requireAdmin, user) == Stay
    ensures Redirect(isLoading, isAuthenticated, requireAdmin, user) == Stay ==>
      Render(isLoading, isAuthenticated, requireAdmin, user) == Children || isLoading
  {
  }
}
