/**
 * `src/hooks/useAuth.js`: the navigation decisions the auth hook takes
 * around the (opaque) auth store: where sign-in, registration and sign-out
 * lead, and the two access checks.
 */
module UseAuth {
  import opened Wrappers
  import Routes
  import ProtectedRoute
  import LoginPage
  import Storage

  /** What a hook action did: the page it navigated to and the message it rethrew. */
  datatype Step = Step(navigateTo: Option<string>, thrown: Option<string>)

  /** What an access check answered and where it navigated. */
  datatype Check = Check(allowed: bool, navigateTo: Option<string>)

  /** The page a signed-in role lands on when no target is given. */
  function DashboardOf(role: Option<string>): (path: string)
    ensures role == Some("admin") ==> path == Routes.GetPath("ADMIN_DASHBOARD")
    ensures role != Some("admin") ==> path == Routes.GetPath("USER_DASHBOARD")
  {
    if role == Some("admin") then Routes.Table["ADMIN_DASHBOARD"].path else Routes.Table["USER_DASHBOARD"].path
  }

  /**
   * `login(email, password, redirectTo)`: the store's failure (`Some`) is
   * rethrown with no navigation; on success the given target wins, else the
   * dashboard of the role the store reports.
   */
  function Login(failure: Option<string>, redirectTo: Option<string>, role: Option<string>): (r: Step)
    ensures r.thrown == failure
    ensures failure.Some? ==> r.navigateTo == None
    ensures failure.None? && Truthy(redirectTo) ==> r.navigateTo == redirectTo
    ensures failure.None? && !Truthy(redirectTo) ==> r.navigateTo == Some(DashboardOf(role))
  {
    if failure.Some? then Step(None, failure)
    else if Truthy(redirectTo) then Step(redirectTo, None)
    else Step(Some(DashboardOf(role)), None)
  }

  /** `register(userData, redirectTo)`: the given target, else the user dashboard whatever the role. */
  function Register(failure: Option<string>, redirectTo: Option<string>): (r: Step)
    ensures r.thrown == failure
    ensures failure.Some? ==> r.navigateTo == None
    ensures failure.None? && Truthy(redirectTo) ==> r.navigateTo == redirectTo
    ensures failure.None? && !Truthy(redirectTo) ==> r.navigateTo == Some(Routes.GetPath("USER_DASHBOARD"))
  {
    if failure.Some? then Step(None, failure)
    else if Truthy(redirectTo) then Step(redirectTo, None)
    else Step(Some(Routes.Table["USER_DASHBOARD"].path), None)
  }

  /** `logout()`: the login page follows whether or not the store's sign-out failed, and nothing is rethrown. */
  function Logout(failure: Option<string>): (r: Step)
    ensures r == Step(Some(Routes.GetPath("LOGIN")), None)
  {
    Step(Some(Routes.Table["LOGIN"].path), None)
  }

  /** `hasRole(role)`: the store's role is exactly the one asked for. */
  function HasRole(current: Option<string>, role: Option<string>): (r: bool)
    ensures r <==> current == role
  {
    current == role
  }

  /** `requireAuth()`: a signed-out visitor is sent to the login page and refused. */
  function RequireAuth(isAuthenticated: bool): (r: Check)
    ensures r.allowed <==> isAuthenticated
    ensures r.allowed ==> r.navigateTo == None
    ensures !r.allowed ==> r.navigateTo == Some(Routes.GetPath("LOGIN"))
  {
    if !isAuthenticated then Check(false, Some(Routes.Table["LOGIN"].path)) else Check(true, None)
  }

  /**
   * `requireAdmin()`: signed-out visitors get `requireAuth`'s answer (the
   * login page, not the unauthorized page); signed-in visitors who are not
   * admins are sent to the unauthorized page.
   */
  function RequireAdmin(isAuthenticated: bool, isAdmin: bool): (r: Check)
    ensures r.allowed <==> isAuthenticated && isAdmin
    ensures !isAuthenticated ==> r == RequireAuth(false)
    ensures isAuthenticated && !isAdmin ==> r.navigateTo == Some(Routes.GetPath("UNAUTHORIZED"))
    ensures r.allowed ==> r.navigateTo == None
  {
    var auth := RequireAuth(isAuthenticated);
    if !auth.allowed then auth
    else if !isAdmin then Check(false, Some(Routes.Table["UNAUTHORIZED"].path))
    else Check(true, None)
  }

  /**
   * The hook's admin check and the route guard requiring `admin` admit the
   * same visitors and send signed-out visitors to the same page; they part
   * only on where a signed-in `user` is sent.
   */
  lemma RequireAdminAgreesWithGuard(authenticated: bool, role: Option<string>)
    ensures var check := RequireAdmin(authenticated, role == Some("admin"));
      var outcome := ProtectedRoute.Decide(authenticated, role, Some("admin"));
      (check.allowed <==> outcome == ProtectedRoute.Children)
      && (!authenticated ==> outcome.Redirect? && check.navigateTo == Some(outcome.path))
      && (authenticated && role == Some("user") ==> outcome == ProtectedRoute.Redirect("/user/dashboard") && check.navigateTo == Some("/unauthorized"))
  {
  }

  /**
   * The hook and the login page agree on where an `admin` or `user` signs
   * in to; a visitor with any other role lands on the user dashboard
   * through the hook and on the home page through the page.
   */
  lemma LoginAgreesWithLoginPage(user: Option<Storage.UserData>)
    ensures var r := Login(None, None, LoginPage.RoleOf(user));
      (LoginPage.RoleOf(user) in {Some("admin"), Some("user")} ==> r.navigateTo == Some(LoginPage.LoginRedirect(user)))
      && (LoginPage.RoleOf(user) !in {Some("admin"), Some("user")} ==> r.navigateTo == Some(LoginPage.RegisterRedirect(user)))
  {
  }
}
