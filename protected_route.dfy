/**
 * `src/components/ProtectedRoute.jsx`: the guard around the signed-in
 * pages. It either renders the page it wraps or redirects, replacing the
 * history entry.
 */
module ProtectedRoute {
  import opened Wrappers
  import opened Storage
  import Api
  import Routes

  /** What the guard renders; `Crash` is a stored user record that does not parse. */
  datatype Outcome = Children | Redirect(path: string) | Crash

  const LoginPath := "/login"
  const AdminHome := "/admin"
  const UserHome := "/user/dashboard"
  const UnauthorizedPath := "/unauthorized"

  /** The page a signed-in role is sent to when it lacks the required role. */
  function HomeOf(role: Option<string>): (path: string)
    ensures role == Some("admin") ==> path == Routes.GetPath("ADMIN_DASHBOARD")
    ensures role == Some("user") ==> path == Routes.GetPath("USER_DASHBOARD")
    ensures role != Some("admin") && role != Some("user") ==> path == Routes.GetPath("UNAUTHORIZED")
  {
    if role == Some("admin") then AdminHome
    else if role == Some("user") then UserHome
    else UnauthorizedPath
  }

  /**
   * The decision, given whether the visitor is signed in and the role read
   * for them: the page renders exactly when signed in and either no role is
   * required or the role is the required one; a visitor who is not signed
   * in is always sent to the login page.
   */
  function Decide(authenticated: bool, role: Option<string>, requiredRole: Option<string>): (r: Outcome)
    ensures r != Crash
    ensures r == Children <==> authenticated && (!Truthy(requiredRole) || role == requiredRole)
    ensures !authenticated ==> r == Redirect(LoginPath)
    ensures authenticated && r.Redirect? ==> r == Redirect(HomeOf(role))
  {
    if !authenticated then Redirect(LoginPath)
    else if Truthy(requiredRole) && role != requiredRole then Redirect(HomeOf(role))
    else Children
  }

  /**
   * The guard over the browser's stored credentials: `isAuthenticated()`
   * first, and the role is read only when a role is required.
   */
  function Guard(b: Browser, requiredRole: Option<string>): (r: Outcome)
    reads b
    requires b.Valid()
    ensures r == Crash <==> Api.IsAuthenticated(b) && Truthy(requiredRole) && ReadUser(b.local).Err?
    ensures !(Api.IsAuthenticated(b) && Truthy(requiredRole)) ==> r == Decide(Api.IsAuthenticated(b), None, requiredRole)
    ensures Api.IsAuthenticated(b) && Truthy(requiredRole) && Api.GetUserRole(b).Ok? ==>
      r == Decide(true, Api.GetUserRole(b).value, requiredRole)
  {
    if !Api.IsAuthenticated(b) then Redirect(LoginPath)
    else if !Truthy(requiredRole) then Children
    else
      match Api.GetUserRole(b)
      case Err(_) => Crash
      case Ok(role) => Decide(true, role, requiredRole)
  }

  /**
   * Every redirect lands on a route of the route table that the same visitor
   * may open, so the guard never sends anyone to a page that refuses them.
   */
  lemma RedirectsLandOnOpenRoutes(authenticated: bool, role: Option<string>, requiredRole: Option<string>)
    ensures var r := Decide(authenticated, role, requiredRole);
      r.Redirect? ==> exists key :: key in Routes.Table && Routes.Table[key].path == r.path && Routes.CanAccess(key, role)
  {
    var r := Decide(authenticated, role, requiredRole);
    if r.Redirect? {
      if !authenticated {
        assert Routes.Table["LOGIN"].path == r.path && Routes.CanAccess("LOGIN", role);
      } else if role == Some("admin") {
        assert Routes.Table["ADMIN_DASHBOARD"].path == r.path && Routes.CanAccess("ADMIN_DASHBOARD", role);
      } else if role == Some("user") {
        assert Routes.Table["USER_DASHBOARD"].path == r.path && Routes.CanAccess("USER_DASHBOARD", role);
      } else {
        assert Routes.Table["UNAUTHORIZED"].path == r.path && Routes.CanAccess("UNAUTHORIZED", role);
      }
    }
  }

  /**
   * A guard requiring `admin` admits a signed-in visitor exactly when the
   * route table admits them to the admin pages, and likewise for `user` and
   * the user pages.
   */
  lemma GuardAgreesWithTable(key: string, role: Option<string>)
    ensures key in Routes.AdminKeys ==> (Decide(true, role, Some("admin")) == Children <==> Routes.CanAccess(key, role))
    ensures key in Routes.UserKeys ==> (Decide(true, role, Some("user")) == Children <==> Routes.CanAccess(key, role))
  {
    Routes.RoleGates(key, role);
  }
}
