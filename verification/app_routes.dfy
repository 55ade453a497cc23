/** The route table of the application shell (`AppRoutes`): which element
    each path renders for the current session, and the role-to-dashboard
    rule behind every redirect. */
module AppRoutes {
  import opened Wrappers
  import opened Json

  /** `getDashboardRoute()`. */
  function DashboardRoute(user: Option<User>): (r: string)
    ensures user.None? ==> r == "/login"
    ensures user.Some? && user.value.role == Some("admin") ==> r == "/admin"
    ensures user.Some? && user.value.role == Some("user") ==> r == "/user"
    ensures user.Some? && user.value.role == Some("store_owner") ==> r == "/store-owner"
    ensures r == "/login" <==> user.None? || !KnownRole(user.value.role)
  {
    if user.None? then "/login"
    else if user.value.role == Some("admin") then "/admin"
    else if user.value.role == Some("user") then "/user"
    else if user.value.role == Some("store_owner") then "/store-owner"
    else "/login"
  }

  predicate KnownRole(role: Option<string>) {
    role == Some("admin") || role == Some("user") || role == Some("store_owner")
  }

  datatype Page = LoginPage | RegisterPage | AdminDashboard | UserDashboard | StoreOwnerDashboard

  /** `Guarded` is a page behind `ProtectedRoute` with the role it asks for. */
  datatype Element =
    | Redirect(to: string)
    | Render(page: Page)
    | Guarded(requiredRole: string, page: Page)

  datatype View =
    | Spinner
    | Shell(navbar: bool, element: Element)

  /** `path` is matched by the splat route under `base`: `base` itself, or
      `base` and a slash followed by anything. */
  predicate UnderSplat(path: string, base: string) {
    path == base || (|path| > |base| && path[..|base| + 1] == base + "/")
  }

  function ElementFor(user: Option<User>, path: string): Element {
    if path == "/login" then
      if user.Some? then Redirect(DashboardRoute(user)) else Render(LoginPage)
    else if path == "/register" then
      if user.Some? then Redirect(DashboardRoute(user)) else Render(RegisterPage)
    else if UnderSplat(path, "/admin") then Guarded("admin", AdminDashboard)
    else if UnderSplat(path, "/user") then Guarded("user", UserDashboard)
    else if UnderSplat(path, "/store-owner") then Guarded("store_owner", StoreOwnerDashboard)
    else if path == "/" then Redirect(DashboardRoute(user))
    else Redirect("/")
  }

  /** What `AppRoutes` renders. */
  function Screen(loading: bool, user: Option<User>, path: string): (v: View)
    ensures loading <==> v == Spinner
    ensures v.Shell? ==> (v.navbar <==> user.Some?)
  {
    if loading then Spinner else Shell(user.Some?, ElementFor(user, path))
  }

  /** A signed-in user on a public page is sent to their dashboard. */
  lemma SignedInLeavesPublicPages(user: Option<User>, path: string)
    requires user.Some? && (path == "/login" || path == "/register")
    ensures Screen(false, user, path) == Shell(true, Redirect(DashboardRoute(user)))
  {
  }

  /** A signed-in user whose role is none of the three is redirected from
      `/login` to `/login` itself, on every render. */
  lemma UnknownRoleSelfRedirect(user: Option<User>)
    requires user.Some? && !KnownRole(user.value.role)
    ensures Screen(false, user, "/login") == Shell(true, Redirect("/login"))
  {
  }

  /** For a known role the dashboard route leads to a guarded page that
      asks for exactly that role, so the redirect chain ends. */
  lemma KnownRoleReachesOwnDashboard(user: Option<User>)
    requires user.Some? && KnownRole(user.value.role)
    ensures ElementFor(user, DashboardRoute(user)).Guarded?
    ensures Some(ElementFor(user, DashboardRoute(user)).requiredRole) == user.value.role
  {
    if user.value.role == Some("user") {
      assert !UnderSplat("/user", "/admin");
    } else if user.value.role == Some("store_owner") {
      var p := "/store-owner";
      assert p[..7][1] == 's' && ("/admin" + "/")[1] == 'a';
      assert p[..6][1] == 's' && ("/user" + "/")[1] == 'u';
    }
  }

  /** `/` goes to the dashboard route, an unmatched path goes to `/`. */
  lemma RootAndFallback(user: Option<User>, path: string)
    ensures ElementFor(user, "/") == Redirect(DashboardRoute(user))
    ensures path !in {"/login", "/register", "/"} && !UnderSplat(path, "/admin")
            && !UnderSplat(path, "/user") && !UnderSplat(path, "/store-owner")
            ==> ElementFor(user, path) == Redirect("/")
  {
  }

  /** Signed out, `/` ends on the login page after two steps. */
  lemma SignedOutRootReachesLogin()
    ensures ElementFor(None, "/") == Redirect("/login")
    ensures ElementFor(None, "/login") == Render(LoginPage)
  {
  }
}
