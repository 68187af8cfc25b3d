/** The second front end's router (task4/frontend/src/App.tsx): the route table, the
    guards that send a visitor to the login page or to the dashboard, and the header that
    only signed-in users see. Paths are compared exactly. */
module Routes {
  import opened Wrappers

  /** The signed-in user of the auth store; only the role matters to routing. */
  datatype AuthUser = AuthUser(username: string, role: string)

  /** The auth store's `isAuthenticated` flag and `user`. */
  datatype AuthState = AuthState(isAuthenticated: bool, user: Option<AuthUser>)

  /** `user?.role === 'ADMIN'`: false when there is no user. */
  predicate IsAdminUser(user: Option<AuthUser>) {
    user.Some? && user.value.role == "ADMIN"
  }

  datatype Page = LoginPage | RegisterPage | HomePage | DashboardPage | ProfilePage | AdminPage

  /** What a route element renders: a page, or a replacing redirect to another path. */
  datatype Element = Render(page: Page) | Redirect(to: string)

  /** `ProtectedRoute`: visitors go to the login page; signed-in non-admins asking for an
      admin-only page go to the dashboard; everyone else gets the page. */
  function ProtectedRoute(auth: AuthState, adminOnly: bool, page: Page): (e: Element)
    ensures !auth.isAuthenticated ==> e == Redirect("/login")
    ensures auth.isAuthenticated && adminOnly && !IsAdminUser(auth.user) ==> e == Redirect("/dashboard")
    ensures auth.isAuthenticated && (!adminOnly || IsAdminUser(auth.user)) ==> e == Render(page)
  {
    if !auth.isAuthenticated then Redirect("/login")
    else if adminOnly && !IsAdminUser(auth.user) then Redirect("/dashboard")
    else Render(page)
  }

  /** `PublicRoute`: signed-in users go to the dashboard; visitors get the page. */
  function PublicRoute(auth: AuthState, page: Page): (e: Element)
    ensures auth.isAuthenticated ==> e == Redirect("/dashboard")
    ensures !auth.isAuthenticated ==> e == Render(page)
  {
    if auth.isAuthenticated then Redirect("/dashboard") else Render(page)
  }

  /** The path at which the route table places each page. */
  function PathOf(p: Page): string {
    match p
    case LoginPage => "/login"
    case RegisterPage => "/register"
    case HomePage => "/"
    case DashboardPage => "/dashboard"
    case ProfilePage => "/profile"
    case AdminPage => "/admin"
  }

  /** The `<Routes>` table; every other path falls back to a redirect to "/". A page renders
      only at its own path, the login and register pages only for visitors and every other
      page only for signed-in users; every redirect goes to the login page, the dashboard
      or the home page. */
  function RouteElement(path: string, auth: AuthState): (e: Element)
    ensures e.Render? ==> path == PathOf(e.page)
    ensures e.Render? ==> (auth.isAuthenticated <==> e.page != LoginPage && e.page != RegisterPage)
    ensures e.Redirect? ==> e.to == "/login" || e.to == "/dashboard" || e.to == "/"
    ensures path !in {"/login", "/register", "/", "/dashboard", "/profile", "/admin"} ==> e == Redirect("/")
  {
    if path == "/login" then PublicRoute(auth, LoginPage)
    else if path == "/register" then PublicRoute(auth, RegisterPage)
    else if path == "/" then ProtectedRoute(auth, false, HomePage)
    else if path == "/dashboard" then ProtectedRoute(auth, false, DashboardPage)
    else if path == "/profile" then ProtectedRoute(auth, false, ProfilePage)
    else if path == "/admin" then ProtectedRoute(auth, true, AdminPage)
    else Redirect("/")
  }

  /** The page shown after following at most `hops` redirects from `path`; the page
      shown is the one the table renders at that page's own path. */
  function Resolve(path: string, auth: AuthState, hops: nat): (r: Option<Page>)
    ensures r.Some? ==> RouteElement(PathOf(r.value), auth) == Render(r.value)
    decreases hops
  {
    match RouteElement(path, auth)
    case Render(p) => Some(p)
    case Redirect(to) => if hops == 0 then None else Resolve(to, auth, hops - 1)
  }

  /** Every path shows a page after at most two redirects: visitors see the login page
      (or the register page when they ask for it), signed-in users never see either. */
  lemma VisitorLanding(path: string, auth: AuthState)
    requires !auth.isAuthenticated
    ensures Resolve(path, auth, 2) == Some(if path == "/register" then RegisterPage else LoginPage)
  {
    if path !in {"/login", "/register"} {
      assert Resolve("/login", auth, 0) == Some(LoginPage);
    }
  }

  /** Signed-in users land on the page they asked for, on the dashboard when they ask for
      the login, register or (without the admin role) admin page, and on the home page for
      any path outside the table. */
  lemma SignedInLanding(path: string, auth: AuthState)
    requires auth.isAuthenticated
    ensures Resolve(path, auth, 2) == Some(
      if path == "/" then HomePage
      else if path == "/profile" then ProfilePage
      else if path == "/admin" && IsAdminUser(auth.user) then AdminPage
      else if path in {"/dashboard", "/login", "/register", "/admin"} then DashboardPage
      else HomePage)
  {
    assert Resolve("/dashboard", auth, 0) == Some(DashboardPage);
    assert Resolve("/", auth, 0) == Some(HomePage);
  }

  /** `/admin` is the only path whose outcome depends on the role. */
  lemma OnlyAdminPathDependsOnRole(path: string, auth: AuthState, auth': AuthState)
    requires auth.isAuthenticated && auth'.isAuthenticated
    requires path != "/admin"
    ensures RouteElement(path, auth) == RouteElement(path, auth')
  {
  }

  /** `{isAuthenticated && <Header />}`. */
  predicate ShowsHeader(auth: AuthState) {
    auth.isAuthenticated
  }
}
