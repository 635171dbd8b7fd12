/**
 * The route guards of `AppRoutes` as decision functions over the auth
 * context (`user`, `loading`) and the current path, and the route table
 * that nests them.
 */
module AppRoutes {
  import opened Wrappers
  import Text
  import opened AuthContext

  /** What a guard renders: the loading spinner, its child routes, or a `<Navigate replace>`. */
  datatype Render = Spinner | Outlet | Redirect(to: string)

  datatype Guard = Protected | AdminOnly | UserOnly | PublicOnly

  const AdminLogin: string := "/admin/login"

  /** Any signed-in user, admin or not; the login page is chosen by the path's prefix. */
  function ProtectedRoute(loading: bool, user: Option<ClientUser>, pathname: string): (r: Render)
    ensures r == Spinner <==> loading
    ensures r == Outlet <==> !loading && IsAuthenticated(user)
    ensures r == Redirect(AdminLogin) <==> !loading && !IsAuthenticated(user) && Text.StartsWith(pathname, "/admin")
    ensures r == Redirect(LoginPage) <==> !loading && !IsAuthenticated(user) && !Text.StartsWith(pathname, "/admin")
  {
    if loading then Spinner
    else if user.None? then Redirect(if Text.StartsWith(pathname, "/admin") then AdminLogin else LoginPage)
    else Outlet
  }

  /** Admins only: nobody goes to the admin login, a non-admin to the user dashboard. */
  function AdminRoute(loading: bool, user: Option<ClientUser>): (r: Render)
    ensures r == Spinner <==> loading
    ensures r == Outlet <==> !loading && IsAdmin(user)
    ensures r == Redirect(AdminLogin) <==> !loading && !IsAuthenticated(user)
    ensures r == Redirect(UserHome) <==> !loading && IsAuthenticated(user) && !IsAdmin(user)
  {
    if loading then Spinner
    else if user.None? then Redirect(AdminLogin)
    else if user.value.role != "admin" then Redirect(UserHome)
    else Outlet
  }

  /** Everyone signed in but admins: any role other than 'admin' is admitted, not only 'user'. */
  function UserRoute(loading: bool, user: Option<ClientUser>): (r: Render)
    ensures r == Spinner <==> loading
    ensures r == Outlet <==> !loading && IsAuthenticated(user) && !IsAdmin(user)
    ensures r == Redirect(LoginPage) <==> !loading && !IsAuthenticated(user)
    ensures r == Redirect(AdminHome) <==> !loading && IsAdmin(user)
  {
    if loading then Spinner
    else if user.None? then Redirect(LoginPage)
    else if user.value.role == "admin" then Redirect(AdminHome)
    else Outlet
  }

  /** Signed-out visitors only; it does not wait for `loading`. */
  function PublicRoute(user: Option<ClientUser>): (r: Render)
    ensures r != Spinner
    ensures r == Outlet <==> !IsAuthenticated(user)
    ensures r == Redirect(AdminHome) <==> IsAdmin(user)
    ensures r == Redirect(UserHome) <==> IsAuthenticated(user) && !IsAdmin(user)
  {
    if user.Some? then Redirect(if user.value.role == "admin" then AdminHome else UserHome)
    else Outlet
  }

  function RenderGuard(g: Guard, loading: bool, user: Option<ClientUser>, pathname: string): Render {
    match g
    case Protected => ProtectedRoute(loading, user, pathname)
    case AdminOnly => AdminRoute(loading, user)
    case UserOnly => UserRoute(loading, user)
    case PublicOnly => PublicRoute(user)
  }

  const PublicPaths: seq<string> := ["/login", "/signup", "/admin/login"]
  const AdminPaths: seq<string> := ["/admin/dashboard", "/admin/users"]
  const UserPaths: seq<string> := ["/dashboard", "/dashboard/services", "/dashboard/tradelines", "/lessons"]

  /** `path` without the slashes that end it. */
  function StripTrailingSlashes(path: string): (r: string)
    ensures |r| <= |path|
  {
    if path != [] && path[|path| - 1] == '/' then StripTrailingSlashes(path[..|path| - 1]) else path
  }

  /** The result is a prefix of the path not ending in a slash, and only slashes were dropped. */
  lemma {:induction false} StripTrailingSlashesSpec(path: string)
    ensures var r := StripTrailingSlashes(path);
      && r == path[..|r|]
      && (r == [] || r[|r| - 1] != '/')
      && (forall i :: |r| <= i < |path| ==> path[i] == '/')
  {
    if path != [] && path[|path| - 1] == '/' {
      var p := path[..|path| - 1];
      StripTrailingSlashesSpec(p);
      var r := StripTrailingSlashes(p);
      assert p[..|r|] == path[..|r|];
    }
  }

  /**
   * The path React Router compares with each route's `path`: its matcher
   * ignores trailing slashes and, the routes not being `caseSensitive`,
   * the case of ASCII letters.
   */
  function RoutePath(path: string): string {
    Text.ToLower(StripTrailingSlashes(path))
  }

  /** The guards `<Routes>` nests above a path, outermost first; the main-layout pages have none. */
  function GuardsFor(path: string): (r: seq<Guard>)
    ensures r == [] || r == [PublicOnly] || r == [Protected, AdminOnly] || r == [Protected, UserOnly]
    ensures r == [PublicOnly] <==> RoutePath(path) in PublicPaths
    ensures r == [Protected, AdminOnly] <==> RoutePath(path) in AdminPaths
    ensures r == [Protected, UserOnly] <==> RoutePath(path) in UserPaths
    ensures r == [] <==> RoutePath(path) !in PublicPaths && RoutePath(path) !in AdminPaths && RoutePath(path) !in UserPaths
  {
    var p := RoutePath(path);
    if p in PublicPaths then [PublicOnly]
    else if p in AdminPaths then [Protected, AdminOnly]
    else if p in UserPaths then [Protected, UserOnly]
    else []
  }

  lemma {:induction false} StripLowerCommute(s: string)
    ensures StripTrailingSlashes(Text.ToLower(s)) == Text.ToLower(StripTrailingSlashes(s))
  {
    if s != [] {
      var t := Text.ToLower(s);
      Text.ToLowerMaps(s);
      Text.ToLowerMaps(s[..|s| - 1]);
      assert t[..|s| - 1] == Text.ToLower(s[..|s| - 1]);
      if s[|s| - 1] == '/' {
        StripLowerCommute(s[..|s| - 1]);
      } else {
        assert t[|s| - 1] != '/';
      }
    }
  }

  /** Matching ignores one more trailing slash and the case of ASCII letters. */
  lemma RoutePathIgnoresSlashAndCase(path: string)
    ensures RoutePath(path + "/") == RoutePath(path)
    ensures RoutePath(Text.ToLower(path)) == RoutePath(path)
  {
    assert (path + "/")[..|path|] == path;
    StripLowerCommute(path);
    Text.ToLowerMaps(StripTrailingSlashes(path));
    Text.ToLowerFixesLower(Text.ToLower(StripTrailingSlashes(path)));
  }

  /** A path is guarded the same with a slash appended or its letters in lower case. */
  lemma GuardsIgnoreSlashAndCase(path: string)
    ensures GuardsFor(path + "/") == GuardsFor(path)
    ensures GuardsFor(Text.ToLower(path)) == GuardsFor(path)
  {
    RoutePathIgnoresSlashAndCase(path);
  }

  /** The first guard that does not render its outlet decides; past all of them the page renders. */
  function Resolve(guards: seq<Guard>, loading: bool, user: Option<ClientUser>, pathname: string): (r: Render)
    ensures r == Outlet <==> forall i :: 0 <= i < |guards| ==> RenderGuard(guards[i], loading, user, pathname) == Outlet
  {
    if guards == [] then Outlet
    else
      var first := RenderGuard(guards[0], loading, user, pathname);
      if first != Outlet then first else Resolve(guards[1..], loading, user, pathname)
  }

  /** What visiting `path` renders; `ProtectedRoute` reads the path as typed, not as matched. */
  function Visit(path: string, loading: bool, user: Option<ClientUser>): Render {
    Resolve(GuardsFor(path), loading, user, path)
  }

  /** Which visitors each kind of page admits, and that dashboards wait for loading. */
  lemma VisitAdmits(path: string, loading: bool, user: Option<ClientUser>)
    ensures var r := Visit(path, loading, user);
      && (RoutePath(path) in PublicPaths ==> (r == Outlet <==> !IsAuthenticated(user)))
      && ((RoutePath(path) in AdminPaths || RoutePath(path) in UserPaths) && loading ==> r == Spinner)
      && (RoutePath(path) in AdminPaths && !loading ==> (r == Outlet <==> IsAdmin(user)))
      && (RoutePath(path) in UserPaths && !loading ==> (r == Outlet <==> IsAuthenticated(user) && !IsAdmin(user)))
      && (RoutePath(path) !in PublicPaths && RoutePath(path) !in AdminPaths && RoutePath(path) !in UserPaths
          ==> r == Outlet)
  {
  }

  /** Matching keeps the `a` of a leading `/admin`. */
  lemma AdminPrefixSurvivesMatching(path: string)
    requires Text.StartsWith(path, "/admin")
    ensures |RoutePath(path)| > 5 && RoutePath(path)[1] == 'a'
  {
    var r := StripTrailingSlashes(path);
    StripTrailingSlashesSpec(path);
    Text.ToLowerMaps(r);
    assert path[5] == 'n' && path[1] == 'a';
    assert |r| > 5;
  }

  /**
   * A signed-out visitor of a dashboard page is sent to the admin login iff
   * the path as typed starts with `/admin`: `/Admin/users` leads to `/login`.
   */
  lemma SignedOutGoesToLogin(path: string)
    requires RoutePath(path) in AdminPaths || RoutePath(path) in UserPaths
    ensures Visit(path, false, None) == Redirect(if Text.StartsWith(path, "/admin") then AdminLogin else LoginPage)
    ensures RoutePath(path) in UserPaths ==> Visit(path, false, None) == Redirect(LoginPage)
  {
    if Text.StartsWith(path, "/admin") {
      AdminPrefixSurvivesMatching(path);
      assert RoutePath(path) !in UserPaths;
    }
  }

  /** A path without trailing slashes or upper-case letters matches itself. */
  lemma MatchesItself(p: string)
    requires StripTrailingSlashes(p) == p && Text.IsLower(p)
    ensures RoutePath(p) == p
  {
    Text.ToLowerFixesLower(p);
  }

  /** For a signed-in user, once loaded, exactly one of AdminRoute and UserRoute admits. */
  lemma ExactlyOneAdmits(user: Option<ClientUser>)
    requires user.Some?
    ensures (AdminRoute(false, user) == Outlet) != (UserRoute(false, user) == Outlet)
  {
  }

  lemma AdminLoginMatchesItself() ensures RoutePath(AdminLogin) == AdminLogin { MatchesItself(AdminLogin); }
  lemma LoginPageMatchesItself() ensures RoutePath(LoginPage) == LoginPage { MatchesItself(LoginPage); }
  lemma AdminHomeMatchesItself() ensures RoutePath(AdminHome) == AdminHome { MatchesItself(AdminHome); }
  lemma UserHomeMatchesItself() ensures RoutePath(UserHome) == UserHome { MatchesItself(UserHome); }

  /** The pages the guards redirect to are guarded as the route table says. */
  lemma RedirectTargetGuards()
    ensures GuardsFor(AdminLogin) == [PublicOnly] && GuardsFor(LoginPage) == [PublicOnly]
    ensures GuardsFor(AdminHome) == [Protected, AdminOnly] && GuardsFor(UserHome) == [Protected, UserOnly]
  {
    AdminLoginMatchesItself();
    LoginPageMatchesItself();
    AdminHomeMatchesItself();
    UserHomeMatchesItself();
  }

  /** Where a redirect lands, once loaded: the guards of the target page decide. */
  lemma VisitRedirectTargets(user: Option<ClientUser>)
    ensures Visit(AdminLogin, false, user) == PublicRoute(user)
    ensures Visit(LoginPage, false, user) == PublicRoute(user)
    ensures Visit(AdminHome, false, user) == Resolve([Protected, AdminOnly], false, user, AdminHome)
    ensures Visit(UserHome, false, user) == Resolve([Protected, UserOnly], false, user, UserHome)
  {
    RedirectTargetGuards();
  }

  /** Where the guard chains of the route table redirect, and for whom. */
  lemma GuardRedirects(g: seq<Guard>, user: Option<ClientUser>, path: string)
    requires g == [] || g == [PublicOnly] || g == [Protected, AdminOnly] || g == [Protected, UserOnly]
    ensures var r := Resolve(g, false, user, path);
      r.Redirect? ==>
        || ((r.to == AdminLogin || r.to == LoginPage) && !IsAuthenticated(user))
        || (r.to == AdminHome && IsAdmin(user))
        || (r.to == UserHome && IsAuthenticated(user) && !IsAdmin(user))
  {
  }

  /**
   * No redirect loops: once loading is over, every redirect the guards
   * issue, signed in or not, leads to a page that renders for the same user.
   */
  lemma RedirectsSettle(path: string, user: Option<ClientUser>)
    ensures Visit(path, false, user).Redirect? ==> Visit(Visit(path, false, user).to, false, user) == Outlet
  {
    VisitRedirectTargets(user);
    GuardRedirects(GuardsFor(path), user, path);
  }

  /** A successful login lands on a page that renders for the user it signed in. */
  lemma LoginLandsOnAdmittingPage(u: ReplyUser, token: string)
    ensures var n := Normalize(u, token);
      Visit(n.redirectUrl, false, Some(n)) == Outlet
  {
    var n := Normalize(u, token);
    VisitRedirectTargets(Some(n));
  }
}
