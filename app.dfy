/** The route table: each path is public, a redirect, guarded by the route
    guard (with or without a role list), or not found. */
module App {
  import opened Types
  import PrivateRoute

  datatype Page = LoginPage | RegisterPage | UnauthorizedPage | DashboardPage | MachinesPage
                | TasksPage | TicketsPage | MachineInstallationPage | NotFoundPage

  datatype Route = Public(page: Page) | Redirect(target: string) | Guarded(allowedRoles: Option<seq<Role>>, page: Page)

  /** The roles the installation route admits. */
  const InstallerRoles: seq<Role> := [CompanyEmployee, DealerEmployee, CompanyAdmin, ApplicationAdmin]

  /** Every path the table names explicitly. */
  const DeclaredPaths: seq<string> := ["/login", "/register", "/unauthorized", "/", "/dashboard",
                                      "/machines", "/tasks", "/tickets", "/machine-installation"]

  /** Paths are compared as exact strings: they are taken to be normalised
      already (the router's case-insensitive matching and trailing-slash
      handling are not part of this model). */
  function RouteOf(path: string): (r: Route)
    ensures r.Redirect? <==> path == "/"
    ensures r.Guarded? <==> path in ["/dashboard", "/machines", "/tasks", "/tickets", "/machine-installation"]
    ensures r.Guarded? && r.allowedRoles.Some? <==> path == "/machine-installation"
    ensures path !in DeclaredPaths <==> r == Public(NotFoundPage)
  {
    if path == "/login" then Public(LoginPage)
    else if path == "/register" then Public(RegisterPage)
    else if path == "/unauthorized" then Public(UnauthorizedPage)
    else if path == "/" then Redirect("/dashboard")
    else if path == "/dashboard" then Guarded(None, DashboardPage)
    else if path == "/machines" then Guarded(None, MachinesPage)
    else if path == "/tasks" then Guarded(None, TasksPage)
    else if path == "/tickets" then Guarded(None, TicketsPage)
    else if path == "/machine-installation" then Guarded(Some(InstallerRoles), MachineInstallationPage)
    else Public(NotFoundPage)
  }

  /** What the browser ends up with: a page, the guard's spinner, or a
      redirect. */
  datatype View = Show(page: Page) | Loading | NavigateTo(target: string)

  function Render(path: string, isLoading: bool, user: Option<User>): (v: View)
    ensures RouteOf(path).Public? ==> v == Show(RouteOf(path).page)
    ensures RouteOf(path).Guarded? ==> (v == Loading <==> isLoading)
    ensures RouteOf(path).Guarded? && v.Show? ==> user.Some? && v.page == RouteOf(path).page
    ensures v == NavigateTo("/login") <==> RouteOf(path).Guarded? && !isLoading && user.None?
  {
    match RouteOf(path)
    case Public(p) => Show(p)
    case Redirect(t) => NavigateTo(t)
    case Guarded(allowed, p) =>
      match PrivateRoute.Decide(isLoading, user, allowed)
      case Spinner => Loading
      case ToUnauthorized => NavigateTo("/unauthorized")
      case Outlet => Show(p)
      case ToLogin => NavigateTo("/login")
  }

  /** The pages a signed-in user of role `role` reaches at `path`. */
  predicate RoleOpens(role: Role, path: string) {
    match RouteOf(path)
    case Public(_) => true
    case Redirect(_) => false
    case Guarded(allowed, _) => PrivateRoute.RoleAllowed(allowed, role)
  }

  /** The public pages and the four main pages are open to every role. */
  lemma OpenToEveryRole(role: Role, path: string)
    requires path in ["/login", "/register", "/unauthorized", "/dashboard", "/machines", "/tasks", "/tickets"]
    ensures path in DeclaredPaths && RoleOpens(role, path)
  {
  }

  /** Once loading is over, a signed-in user sees a page exactly where the
      role opens the path. */
  lemma RenderShowsIffRoleOpens(path: string, u: User)
    ensures Render(path, false, Some(u)).Show? <==> RoleOpens(u.role, path)
  {
  }

  /** /login, /register and /unauthorized render whatever the session. */
  lemma PublicRoutesIgnoreSession(isLoading: bool, user: Option<User>)
    ensures Render("/login", isLoading, user) == Show(LoginPage)
    ensures Render("/register", isLoading, user) == Show(RegisterPage)
    ensures Render("/unauthorized", isLoading, user) == Show(UnauthorizedPage)
  {
  }

  /** / always redirects to /dashboard. */
  lemma RootRedirectsToDashboard(isLoading: bool, user: Option<User>)
    ensures Render("/", isLoading, user) == NavigateTo("/dashboard")
  {
  }

  /** The four main pages need a user and nothing more. */
  lemma MainPagesNeedOnlyAUser(path: string, isLoading: bool, user: Option<User>)
    requires path in ["/dashboard", "/machines", "/tasks", "/tickets"]
    ensures isLoading ==> Render(path, isLoading, user) == Loading
    ensures !isLoading && user.Some? ==> Render(path, isLoading, user).Show?
    ensures !isLoading && user.None? ==> Render(path, isLoading, user) == NavigateTo("/login")
  {
  }

  /** /machine-installation: granted to every role but the dealer admin, who
      is sent to /unauthorized; without a user, to /login. */
  lemma MachineInstallationAccess(isLoading: bool, user: Option<User>)
    ensures isLoading ==> Render("/machine-installation", isLoading, user) == Loading
    ensures !isLoading && user.None? ==> Render("/machine-installation", isLoading, user) == NavigateTo("/login")
    ensures !isLoading && user.Some? ==>
      (Render("/machine-installation", isLoading, user) == Show(MachineInstallationPage) <==> user.value.role != DealerAdmin)
    ensures !isLoading && user.Some? ==>
      (Render("/machine-installation", isLoading, user) == NavigateTo("/unauthorized") <==> user.value.role == DealerAdmin)
  {
  }

  /** Any path outside the table renders the not-found page. */
  lemma UndeclaredPathsNotFound(path: string, isLoading: bool, user: Option<User>)
    requires path !in DeclaredPaths
    ensures Render(path, isLoading, user) == Show(NotFoundPage)
  {
  }

  /** While the session loads, no guarded page is ever shown. */
  lemma NoGuardedPageWhileLoading(path: string, user: Option<User>)
    ensures RouteOf(path).Guarded? ==> Render(path, true, user) == Loading
    ensures Render(path, true, user).Show? ==> RouteOf(path).Public?
  {
  }
}
