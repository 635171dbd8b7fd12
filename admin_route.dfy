/**
 * The standalone `AdminRoute` wrapper component, which guards its children
 * with the derived flags of the auth context.
 */
module AdminRouteGuard {
  import opened Wrappers
  import opened AuthContext
  import AppRoutes

  /** What the component returns: `null`, its `children`, or a `<Navigate replace>`. */
  datatype Element = Nothing | Children | Redirect(to: string)

  function AdminRoute(loading: bool, isAuthenticated: bool, isAdmin: bool): (r: Element)
    ensures r == Nothing <==> loading
    ensures r == Children <==> !loading && isAuthenticated && isAdmin
    ensures r.Redirect? ==> r.to == AppRoutes.AdminLogin
  {
    if loading then Nothing
    else if !isAuthenticated || !isAdmin then Redirect(AppRoutes.AdminLogin)
    else Children
  }

  /** The guard as the context drives it. */
  function Guard(loading: bool, user: Option<ClientUser>): Element {
    AdminRoute(loading, IsAuthenticated(user), IsAdmin(user))
  }

  /**
   * Both admin guards admit exactly the admins, but a signed-in non-admin is
   * sent to the admin login here and to the user dashboard by the guard in
   * `AppRoutes`.
   */
  lemma DiffersFromAppRoutesGuard(user: Option<ClientUser>)
    ensures Guard(false, user) == Children <==> AppRoutes.AdminRoute(false, user) == AppRoutes.Outlet
    ensures user.None? ==>
      Guard(false, user) == Redirect(AppRoutes.AdminLogin) && AppRoutes.AdminRoute(false, user) == AppRoutes.Redirect(AppRoutes.AdminLogin)
    ensures user.Some? && user.value.role != "admin" ==>
      Guard(false, user) == Redirect(AppRoutes.AdminLogin) && AppRoutes.AdminRoute(false, user) == AppRoutes.Redirect(UserHome)
  {
  }
}
