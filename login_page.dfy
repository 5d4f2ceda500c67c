/**
 * `src/pages/LoginPage.jsx`: the sign-in and registration handlers of the
 * login page: which page follows a successful call, what the page shows on
 * a failure, and when the registration form is cleared.
 */
module LoginPage {
  import opened Wrappers
  import opened Storage
  import Routes

  const MismatchMessage := "Password dan konfirmasi password tidak sama."
  const LoginFailed := "Email atau password salah."
  const RegisterFailed := "Gagal membuat akun."
  const DefaultName := "User"

  /** `registerData`. */
  datatype RegisterForm = RegisterForm(name: string, email: string, password: string, confirmation: string)

  const EmptyRegisterForm := RegisterForm("", "", "", "")

  /** The toast the page shows: a welcome with a name, or a failure with a description. */
  datatype Notice = Welcome(name: string) | Failure(description: string)

  /** The page state the handlers change; `navigateTo` is the page the delayed redirect opens. */
  datatype PageState = PageState(isLoading: bool, registerForm: RegisterForm, notice: Option<Notice>, navigateTo: Option<string>)

  /** The reply of `login` or `register`: the response's `user` (absent as `None`), or the thrown message. */
  type Reply = Result<Option<UserData>, string>

  /** `response.user?.role`. */
  function RoleOf(user: Option<UserData>): Option<string>
  {
    if user.Some? then user.value.role else None
  }

  /** `response.user?.name || 'User'`. */
  function WelcomeName(user: Option<UserData>): (name: string)
    ensures name != ""
    ensures user.Some? && Truthy(user.value.name) ==> name == user.value.name.value
  {
    if user.Some? && Truthy(user.value.name) then user.value.name.value else DefaultName
  }

  /** `error.message || fallback`. */
  function FailureText(message: string, fallback: string): (text: string)
    ensures fallback != "" ==> text != ""
    ensures message != "" ==> text == message
  {
    if message != "" then message else fallback
  }

  /** After sign-in: the admin dashboard for `admin`, the user dashboard for `user`, the home page otherwise. */
  function LoginRedirect(user: Option<UserData>): (path: string)
    ensures RoleOf(user) == Some("admin") ==> path == Routes.GetPath("ADMIN_DASHBOARD")
    ensures RoleOf(user) == Some("user") ==> path == Routes.GetPath("USER_DASHBOARD")
    ensures RoleOf(user) != Some("admin") && RoleOf(user) != Some("user") ==> path == Routes.GetPath("HOME")
  {
    var role := RoleOf(user);
    if role == Some("admin") then Routes.Table["ADMIN_DASHBOARD"].path
    else if role == Some("user") then Routes.Table["USER_DASHBOARD"].path
    else Routes.Table["HOME"].path
  }

  /** After registration: a missing role counts as `user`; only `admin` goes to the admin dashboard. */
  function RegisterRedirect(user: Option<UserData>): (path: string)
    ensures RoleOf(user) == Some("admin") ==> path == Routes.GetPath("ADMIN_DASHBOARD")
    ensures RoleOf(user) != Some("admin") ==> path == Routes.GetPath("USER_DASHBOARD")
  {
    var role := if Truthy(RoleOf(user)) then RoleOf(user).value else "user";
    if role == "admin" then Routes.Table["ADMIN_DASHBOARD"].path else Routes.Table["USER_DASHBOARD"].path
  }

  /**
   * `handleLogin`, once `login` has answered: a success welcomes the user
   * and schedules the role's page; a failure shows the message. Either way
   * loading ends and the registration form is untouched.
   */
  function HandleLogin(state: PageState, reply: Reply): (r: PageState)
    ensures !r.isLoading && r.registerForm == state.registerForm
    ensures reply.Ok? ==> r.notice == Some(Welcome(WelcomeName(reply.value))) && r.navigateTo == Some(LoginRedirect(reply.value))
    ensures reply.Err? ==> r.notice == Some(Failure(FailureText(reply.error, LoginFailed))) && r.navigateTo == state.navigateTo
  {
    match reply
    case Ok(user) => state.(isLoading := false, notice := Some(Welcome(WelcomeName(user))), navigateTo := Some(LoginRedirect(user)))
    case Err(message) => state.(isLoading := false, notice := Some(Failure(FailureText(message, LoginFailed))))
  }

  /** What `handleRegister` did: the new state and the form sent to `register`, if any. */
  datatype RegisterStep = RegisterStep(state: PageState, sent: Option<RegisterForm>)

  /**
   * `handleRegister`: a password that differs from its confirmation is
   * refused before anything is sent, leaving the form and the loading flag
   * as they were; otherwise the form is sent, a success clears all four
   * fields and schedules the role's page, and loading ends either way.
   */
  function HandleRegister(state: PageState, reply: Reply): (r: RegisterStep)
    ensures r.sent.Some? <==> state.registerForm.password == state.registerForm.confirmation
    ensures r.sent.None? ==> r.state == state.(notice := Some(Failure(MismatchMessage)))
    ensures r.sent.Some? ==> r.sent.value == state.registerForm && !r.state.isLoading
    ensures r.sent.Some? && reply.Ok? ==>
      r.state.registerForm == EmptyRegisterForm && r.state.navigateTo == Some(RegisterRedirect(reply.value))
      && r.state.notice == Some(Welcome(WelcomeName(reply.value)))
    ensures r.sent.Some? && reply.Err? ==>
      r.state.registerForm == state.registerForm && r.state.navigateTo == state.navigateTo
      && r.state.notice == Some(Failure(FailureText(reply.error, RegisterFailed)))
  {
    var form := state.registerForm;
    if form.password != form.confirmation then
      RegisterStep(state.(notice := Some(Failure(MismatchMessage))), None)
    else
      match reply
      case Ok(user) =>
        RegisterStep(state.(isLoading := false, registerForm := EmptyRegisterForm,
                            notice := Some(Welcome(WelcomeName(user))), navigateTo := Some(RegisterRedirect(user))), Some(form))
      case Err(message) =>
        RegisterStep(state.(isLoading := false, notice := Some(Failure(FailureText(message, RegisterFailed)))), Some(form))
  }

  /**
   * The two redirects agree on the `admin` and `user` roles; without a
   * role, or with another one, sign-in goes home while registration goes to
   * the user dashboard.
   */
  lemma RedirectsAgreeOnKnownRoles(user: Option<UserData>)
    ensures RoleOf(user) in {Some("admin"), Some("user")} ==> LoginRedirect(user) == RegisterRedirect(user)
    ensures RoleOf(user) !in {Some("admin"), Some("user")} ==>
      LoginRedirect(user) == "/" && RegisterRedirect(user) == "/user/dashboard"
  {
  }

  /** Every page sign-in leads to is a route of the table that the signed-in role may open. */
  lemma LoginLandsOnOpenRoute(user: Option<UserData>)
    ensures exists key :: key in Routes.Table && Routes.Table[key].path == LoginRedirect(user) && Routes.CanAccess(key, RoleOf(user))
  {
    var role := RoleOf(user);
    if role == Some("admin") {
      assert Routes.Table["ADMIN_DASHBOARD"].path == LoginRedirect(user) && Routes.CanAccess("ADMIN_DASHBOARD", role);
    } else if role == Some("user") {
      assert Routes.Table["USER_DASHBOARD"].path == LoginRedirect(user) && Routes.CanAccess("USER_DASHBOARD", role);
    } else {
      assert Routes.Table["HOME"].path == LoginRedirect(user) && Routes.CanAccess("HOME", role);
    }
  }
}
