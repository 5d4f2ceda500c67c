/**
 * `src/config/routes.js`: the route table and the helpers that read it.
 * Route keys are strings, so a key outside the table is possible.
 */
module Routes {
  import opened Wrappers

  /**
   * One route. `build`, when present, is the prefix its builder puts in
   * front of the parameter; `allowedRoles` is absent on routes open to every
   * signed-in role.
   */
  datatype Route = Route(path: string, requireAuth: bool, allowedRoles: Option<seq<string>>, build: Option<string>)

  const AdminOnly: Option<seq<string>> := Some(["admin"])
  const UserOnly: Option<seq<string>> := Some(["user"])

  /** `ROUTES`. */
  const Table: map<string, Route> := map[
    "HOME" := Route("/", false, None, None),
    "LOGIN" := Route("/login", false, None, None),
    "UNAUTHORIZED" := Route("/unauthorized", false, None, None),
    "SUCCESS" := Route("/success", false, None, None),
    "ADMIN_DASHBOARD" := Route("/admin", true, AdminOnly, None),
    "ADMIN_FORMS" := Route("/admin/forms", true, AdminOnly, None),
    "ADMIN_FORMS_NEW" := Route("/admin/forms/new", true, AdminOnly, None),
    "ADMIN_FORMS_EDIT" := Route("/admin/forms/edit/:formId", true, AdminOnly, Some("/admin/forms/edit/")),
    "ADMIN_FORMS_RESPONSES" := Route("/admin/forms/responses/:formSlug", true, AdminOnly, Some("/admin/forms/responses/")),
    "ADMIN_ANNOUNCEMENTS" := Route("/admin/announcements", true, AdminOnly, None),
    "ADMIN_AFFILIATES" := Route("/admin/affiliates", true, AdminOnly, None),
    "USER_DASHBOARD" := Route("/user/dashboard", true, UserOnly, None),
    "USER_LEADERBOARD" := Route("/user/leaderboard", true, UserOnly, None),
    "USER_FORM_VIEW" := Route("/user/form/:formSlug", false, None, Some("/user/form/")),
    "USER_ANNOUNCEMENTS" := Route("/user/announcements", false, None, None),
    "FORM_REDIRECT" := Route("/forms/:slug", false, None, Some("/forms/"))
  ]

  const AdminKeys := {"ADMIN_DASHBOARD", "ADMIN_FORMS", "ADMIN_FORMS_NEW", "ADMIN_FORMS_EDIT",
                      "ADMIN_FORMS_RESPONSES", "ADMIN_ANNOUNCEMENTS", "ADMIN_AFFILIATES"}
  const UserKeys := {"USER_DASHBOARD", "USER_LEADERBOARD"}

  /**
   * `requiresAuth(routeKey)`: an unknown key counts as protected. Keys are
   * looked up in `Table` only; the names `ROUTES[key]` would also find on
   * `Object.prototype` (`constructor`, `toString`) are not modelled, since
   * every caller passes one of the route keys literally.
   */
  function RequiresAuth(key: string): (r: bool)
    ensures key !in Table ==> r
    ensures key in Table ==> r == Table[key].requireAuth
  {
    if key in Table then Table[key].requireAuth else true
  }

  /** `canAccess(routeKey, userRole)`; `role` is `None` for a missing role. */
  function CanAccess(key: string, role: Option<string>): (r: bool)
    ensures key !in Table ==> !r
    ensures key in Table && !Table[key].requireAuth ==> r
    ensures r && key in Table && Table[key].allowedRoles.Some? && Table[key].requireAuth ==>
      role.Some? && role.value in Table[key].allowedRoles.value
  {
    if key !in Table then false
    else
      var route := Table[key];
      if !route.requireAuth then true
      else if route.allowedRoles.None? then true
      else role.Some? && role.value in route.allowedRoles.value
  }

  /** `getPath(routeKey)`: the table path, `/` for an unknown key. */
  function GetPath(key: string): (r: string)
    ensures key !in Table ==> r == "/"
    ensures key in Table ==> r == Table[key].path
  {
    if key in Table && Table[key].path != "" then Table[key].path else "/"
  }

  /** `buildRoute(routeKey, params)`. */
  function BuildRoute(key: string, param: string): (r: string)
    ensures key !in Table ==> r == "/"
    ensures key in Table && Table[key].build.None? ==> r == GetPath(key)
    ensures key in Table && Table[key].build.Some? ==> r == Table[key].build.value + param
  {
    if key !in Table then "/"
    else
      var route := Table[key];
      if route.build.Some? then route.build.value + param else route.path
  }

  /** Every route needing no sign-in is open to every role, including none. */
  lemma PublicRoutesOpen(key: string, role: Option<string>)
    requires key in Table && !RequiresAuth(key)
    ensures CanAccess(key, role)
  {
  }

  /** The admin pages admit exactly the `admin` role, the user pages exactly the `user` role. */
  lemma RoleGates(key: string, role: Option<string>)
    ensures key in AdminKeys ==> (CanAccess(key, role) <==> role == Some("admin"))
    ensures key in UserKeys ==> (CanAccess(key, role) <==> role == Some("user"))
    ensures key in Table && key !in AdminKeys && key !in UserKeys ==> CanAccess(key, role)
  {
  }

  /** The form editor route fills in the form id. */
  lemma BuildEditRoute(formId: string)
    ensures BuildRoute("ADMIN_FORMS_EDIT", formId) == "/admin/forms/edit/" + formId
    ensures BuildRoute("ADMIN_FORMS", formId) == "/admin/forms"
  {
  }
}
