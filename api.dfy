/**
 * `src/lib/api.js`: the token store kept in localStorage and a cookie, the
 * login, registration, logout and refresh calls, `apiFetch` with its single
 * refresh-and-retry on 401, and the verb helpers of the `api` object.
 */
module Api {
  import opened Wrappers
  import opened JsStrings
  import opened Cookies
  import opened Storage
  import opened Http

  const LoginEndpoint := "/api/auth/login"
  const RegisterEndpoint := "/api/auth/register"
  const RefreshEndpoint := "/api/auth/refresh"
  const LogoutEndpoint := "/api/auth/logout"

  const SessionExpired := "Session expired. Please login again."

  const JsonHeaders: Headers := map["Content-Type" := "application/json", "Accept" := "application/json"]

  /** The refresh-token key is a name a cookie may carry. */
  lemma RefreshKeyIsCookieName()
    ensures ValidName(RefreshTokenKey)
  {
  }

  // ---------------------------------------------------------------- token store

  /** `getAccessToken()`: the raw localStorage entry. */
  function GetAccessToken(b: Browser): (r: Option<string>)
    reads b
    requires b.Valid()
    ensures r.Some? <==> AccessTokenKey in b.local
    ensures r.Some? ==> b.local[AccessTokenKey] == Text(r.value)
  {
    TokenText(b.local, AccessTokenKey)
  }

  /** `getRefreshToken()`: the cookie when it is truthy, else the localStorage fallback. */
  function GetRefreshToken(b: Browser): (r: Option<string>)
    reads b
    requires b.Valid()
    ensures Truthy(Lookup(b.jar, RefreshTokenKey)) ==> r == Lookup(b.jar, RefreshTokenKey)
    ensures !Truthy(Lookup(b.jar, RefreshTokenKey)) ==> r == TokenText(b.local, RefreshTokenKey)
  {
    RefreshKeyIsCookieName();
    GetCookieReadsJar(b.jar, RefreshTokenKey);
    OrElse(GetCookie(Render(b.jar), RefreshTokenKey), TokenText(b.local, RefreshTokenKey))
  }

  /** `isAuthenticated()`: both tokens are truthy. */
  predicate IsAuthenticated(b: Browser)
    reads b
    requires b.Valid()
  {
    Truthy(GetAccessToken(b)) && Truthy(GetRefreshToken(b))
  }

  /**
   * In storage terms: a non-empty access token entry, and a non-empty
   * refresh cookie or refresh token entry; the placeholder `temp_missing`
   * is such an entry.
   */
  lemma AuthenticatedFromStorage(b: Browser)
    requires b.Valid()
    ensures IsAuthenticated(b) <==>
      Truthy(TokenText(b.local, AccessTokenKey))
      && (Truthy(Lookup(b.jar, RefreshTokenKey)) || Truthy(TokenText(b.local, RefreshTokenKey)))
    ensures TokenText(b.local, RefreshTokenKey) == Some(TempMissing) ==>
      (IsAuthenticated(b) <==> Truthy(TokenText(b.local, AccessTokenKey)))
  {
  }

  /** `getUserRole()`: `getUserData()?.role || null`; a stored entry that is not JSON throws. */
  function GetUserRole(b: Browser): (r: Result<Option<string>, ParseError>)
    reads b
    requires b.Valid()
    ensures r.Err? <==> ReadUser(b.local).Err?
    ensures r.Ok? && r.value.Some? ==> r.value.value != ""
    ensures r.Ok? && r.value.Some? ==> ReadUser(b.local).value.Some? && ReadUser(b.local).value.value.role == r.value
    ensures ReadUser(b.local) == Ok(None) ==> r == Ok(None)
  {
    match ReadUser(b.local)
    case Err(e) => Err(e)
    case Ok(None) => Ok(None)
    case Ok(Some(u)) => Ok(if Truthy(u.role) then u.role else None)
  }

  /** `isAdmin()`: the role is exactly `admin`. */
  function IsAdmin(b: Browser): (r: Result<bool, ParseError>)
    reads b
    requires b.Valid()
    ensures r.Err? <==> ReadUser(b.local).Err?
    ensures r == Ok(true) <==> GetUserRole(b) == Ok(Some("admin"))
  {
    match GetUserRole(b)
    case Err(e) => Err(e)
    case Ok(role) => Ok(role == Some("admin"))
  }

  /**
   * `setTokens(accessToken, refreshToken, userData)`: each argument that is
   * truthy is written; the refresh token goes to the cookie (which keeps it
   * up to its first `;`) and to localStorage; nothing else changes.
   */
  method SetTokens(b: Browser, access: Option<string>, refresh: Option<string>, user: Option<UserData>)
    requires b.Valid()
    modifies b
    ensures b.Valid()
    ensures GetAccessToken(b) == if Truthy(access) then access else old(GetAccessToken(b))
    ensures TokenText(b.local, RefreshTokenKey) == if Truthy(refresh) then refresh else old(TokenText(b.local, RefreshTokenKey))
    ensures Lookup(b.jar, RefreshTokenKey) == if Truthy(refresh) then Some(Split(refresh.value, ";")[0]) else old(Lookup(b.jar, RefreshTokenKey))
    ensures Truthy(refresh) && NoChar(refresh.value, ';') ==> GetRefreshToken(b) == refresh
    ensures ReadUser(b.local) == if user.Some? then Ok(user) else old(ReadUser(b.local))
    ensures WithoutCredentials(b.local) == WithoutCredentials(old(b.local))
    ensures forall name :: name != RefreshTokenKey ==> Lookup(b.jar, name) == old(Lookup(b.jar, name))
    ensures b.location == old(b.location)
  {
    if Truthy(access) {
      WithoutCredentialsUpdate(b.local, AccessTokenKey, Text(access.value));
      b.SetItem(AccessTokenKey, Text(access.value));
    }
    if Truthy(refresh) {
      WithoutCredentialsUpdate(b.local, RefreshTokenKey, Text(refresh.value));
      WriteRefreshToken(b, refresh.value);
    }
    if user.Some? {
      WithoutCredentialsUpdate(b.local, UserDataKey, UserDoc(user.value));
      b.SetItem(UserDataKey, UserDoc(user.value));
    }
  }

  /** The refresh-token half of `setTokens`: the cookie and the localStorage fallback. */
  method WriteRefreshToken(b: Browser, token: string)
    requires b.Valid()
    modifies b
    ensures b.Valid()
    ensures b.local == old(b.local)[RefreshTokenKey := Text(token)]
    ensures Lookup(b.jar, RefreshTokenKey) == Some(Split(token, ";")[0])
    ensures NoChar(token, ';') ==> Lookup(b.jar, RefreshTokenKey) == Some(token)
    ensures forall name :: name != RefreshTokenKey ==> Lookup(b.jar, name) == old(Lookup(b.jar, name))
    ensures b.location == old(b.location)
  {
    RefreshKeyIsCookieName();
    b.SetCookie(RefreshTokenKey, token);
    b.SetItem(RefreshTokenKey, Text(token));
    if NoChar(token, ';') {
      SplitNoSep(token, ';');
    }
  }

  /** `clearTokens()`: the three credential entries and the refresh cookie are removed. */
  method ClearTokens(b: Browser)
    requires b.Valid()
    modifies b
    ensures b.Valid()
    ensures b.local == WithoutCredentials(old(b.local))
    ensures b.jar == Remove(old(b.jar), RefreshTokenKey)
    ensures b.location == old(b.location)
    ensures GetAccessToken(b) == None && GetRefreshToken(b) == None && !IsAuthenticated(b)
    ensures ReadUser(b.local) == Ok(None)
  {
    WithoutCredentialsStepwise(b.local);
    b.RemoveItem(AccessTokenKey);
    b.RemoveItem(RefreshTokenKey);
    b.RemoveItem(UserDataKey);
    assert b.local == WithoutCredentials(old(b.local));
    b.DeleteCookie(RefreshTokenKey);
    assert Lookup(b.jar, RefreshTokenKey) == None;
  }

  // ---------------------------------------------------------------- requests

  /** The POST to the refresh endpoint carrying `{refresh_token}`. */
  function RefreshRequest(token: string): Request
  {
    Request(ApiBase + RefreshEndpoint, "POST", JsonHeaders,
      JsonText(JObj([("refresh_token", JStr(token))])), false)
  }

  /** The request `login` sends: a JSON POST of the credentials, without cookies. */
  function LoginRequest(email: string, password: string): Request
  {
    Request(ApiBase + LoginEndpoint, "POST", JsonHeaders,
      JsonText(JObj([("email", JStr(email)), ("password", JStr(password))])), false)
  }

  /** The request `register` sends: a JSON POST of the user data, without cookies. */
  function RegisterRequest(user: Json): Request
  {
    Request(ApiBase + RegisterEndpoint, "POST", JsonHeaders, JsonText(user), false)
  }

  /** The request `logout` sends: a bodiless POST with the bearer token. */
  function LogoutRequest(access: string): Request
  {
    Request(ApiBase + LogoutEndpoint, "POST",
      map["Authorization" := "Bearer " + access, "Accept" := "application/json"], NoBody, false)
  }

  // ---------------------------------------------------------------- refresh

  /**
   * How the refresh call reads its answer: a rejection propagates, a non-OK
   * status, a body that is not JSON and a body without an access token are
   * errors; otherwise the new access token and the returned refresh token.
   */
  function RefreshReply(o: FetchOutcome): (r: Result<(string, Option<string>), JsError>)
    ensures o.Rejected? ==> r == Err(o.error)
    ensures o.Received? && !IsOk(o.response) ==> r == Err(Error("Refresh token expired or invalid"))
    ensures o.Received? && IsOk(o.response) && o.response.body.None? ==> r == Err(JsonSyntaxError)
    ensures r.Ok? <==> o.Received? && IsOk(o.response) && o.response.body.Some? && Truthy(IssuedAccess(o.response.body.value))
    ensures r.Ok? ==>
      Some(r.value.0) == IssuedAccess(o.response.body.value) && r.value.0 != ""
      && r.value.1 == o.response.body.value.refreshToken
  {
    match o
    case Rejected(e) => Err(e)
    case Received(resp) =>
      if !IsOk(resp) then Err(Error("Refresh token expired or invalid"))
      else if resp.body.None? then Err(JsonSyntaxError)
      else
        var access := IssuedAccess(resp.body.value);
        if !Truthy(access) then Err(Error("No access token in refresh response"))
        else Ok((access.value, resp.body.value.refreshToken))
  }

  /** A refresh token `refreshAccessToken` is willing to send. */
  predicate Usable(token: Option<string>)
  {
    Truthy(token) && token.value != TempMissing
  }

  /**
   * `refreshAccessToken()`: without a usable refresh token it clears the
   * session, goes to `/login` and fails without a request; otherwise it posts
   * the token once, stores the new access token (keeping the old refresh
   * token when none is returned) or, on any failure, clears the session and
   * goes to `/login`.
   */
  method RefreshAccessToken(b: Browser, net: Network) returns (r: Result<string, JsError>)
    requires b.Valid()
    modifies b, net
    ensures b.Valid()
    ensures !Usable(old(GetRefreshToken(b))) ==>
      r == Err(Error("No refresh token available")) && net.sent == old(net.sent) && net.pending == old(net.pending)
    ensures Usable(old(GetRefreshToken(b))) ==>
      net.sent == old(net.sent) + [RefreshRequest(old(GetRefreshToken(b)).value)]
      && net.pending == (if old(net.pending) == [] then [] else old(net.pending)[1..])
      && (r.Err? <==> RefreshReply(NextOutcome(old(net.pending))).Err?)
    ensures r.Err? ==>
      b.local == WithoutCredentials(old(b.local)) && b.jar == Remove(old(b.jar), RefreshTokenKey)
      && b.location == Some("/login")
    ensures r.Err? && Usable(old(GetRefreshToken(b))) ==> r == Err(RefreshReply(NextOutcome(old(net.pending))).error)
    ensures r.Ok? ==> Usable(old(GetRefreshToken(b))) && RefreshReply(NextOutcome(old(net.pending))).Ok?
    ensures r.Ok? ==>
      var reply := RefreshReply(NextOutcome(old(net.pending))).value;
      r.value == reply.0 && GetAccessToken(b) == Some(r.value)
      && TokenText(b.local, RefreshTokenKey) == OrElse(reply.1, old(GetRefreshToken(b)))
      && WithoutCredentials(b.local) == WithoutCredentials(old(b.local))
      && (forall name :: name != RefreshTokenKey ==> Lookup(b.jar, name) == old(Lookup(b.jar, name)))
      && b.location == old(b.location)
  {
    var token := GetRefreshToken(b);
    if !Usable(token) {
      ClearTokens(b);
      b.Navigate("/login");
      return Err(Error("No refresh token available"));
    }
    var outcome := net.Fetch(RefreshRequest(token.value));
    var reply := RefreshReply(outcome);
    if reply.Err? {
      ClearTokens(b);
      b.Navigate("/login");
      return Err(reply.error);
    }
    SetTokens(b, Some(reply.value.0), OrElse(reply.value.1, token), None);
    r := Ok(reply.value.0);
  }

  // ---------------------------------------------------------------- login, register, logout

  /**
   * The login error message: the body's `message`, else its `error`, else
   * the body itself as JSON text; `HTTP <status>: <statusText>` when the body
   * is not JSON.
   */
  function LoginFailure(resp: Response): (message: string)
    ensures resp.body.None? ==> message == "HTTP " + IntToString(resp.status) + ": " + resp.statusText
    ensures resp.body.Some? && Truthy(resp.body.value.message) ==> message == resp.body.value.message.value
    ensures resp.body.Some? && !Truthy(resp.body.value.message) && Truthy(resp.body.value.error) ==> message == resp.body.value.error.value
    ensures resp.body.Some? && !Truthy(resp.body.value.message) && !Truthy(resp.body.value.error) ==> message == resp.body.value.text
  {
    if resp.body.None? then "HTTP " + IntToString(resp.status) + ": " + resp.statusText
    else OrElse(resp.body.value.message, OrElse(resp.body.value.error, Some(resp.body.value.text))).value
  }

  /** What `login` returns or throws for one fetch outcome. */
  function LoginResult(o: FetchOutcome): (r: Result<Body, JsError>)
    ensures o.Rejected? ==> r == Err(o.error)
    ensures o.Received? && !IsOk(o.response) ==> r == Err(Error(LoginFailure(o.response)))
    ensures r.Ok? <==> o.Received? && IsOk(o.response) && o.response.body.Some?
    ensures r.Ok? ==> r.value == o.response.body.value
  {
    match o
    case Rejected(e) => Err(e)
    case Received(resp) =>
      if !IsOk(resp) then Err(Error(LoginFailure(resp)))
      else if resp.body.None? then Err(JsonSyntaxError)
      else Ok(resp.body.value)
  }

  /** What `register` returns or throws: a non-OK body that is not JSON throws its parse error. */
  function RegisterResult(o: FetchOutcome): (r: Result<Body, JsError>)
    ensures o.Rejected? ==> r == Err(o.error)
    ensures o.Received? && o.response.body.None? ==> r == Err(JsonSyntaxError)
    ensures o.Received? && !IsOk(o.response) && o.response.body.Some? ==>
      r == Err(Error(if Truthy(o.response.body.value.message) then o.response.body.value.message.value else "Registration failed"))
    ensures r.Ok? <==> o.Received? && IsOk(o.response) && o.response.body.Some?
    ensures r.Ok? ==> r.value == o.response.body.value
  {
    match o
    case Rejected(e) => Err(e)
    case Received(resp) =>
      if resp.body.None? then Err(JsonSyntaxError)
      else if !IsOk(resp) then Err(Error(if Truthy(resp.body.value.message) then resp.body.value.message.value else "Registration failed"))
      else Ok(resp.body.value)
  }

  /**
   * The session stored after a successful login or registration: only when
   * an access token came back, with `temp_missing` standing in for a missing
   * refresh token.
   */
  method StoreSession(b: Browser, body: Body)
    requires b.Valid()
    modifies b
    ensures b.Valid()
    ensures Truthy(IssuedAccess(body)) ==>
      GetAccessToken(b) == IssuedAccess(body)
      && TokenText(b.local, RefreshTokenKey) == OrElse(body.refreshToken, Some(TempMissing))
      && ReadUser(b.local) == (if body.user.Some? then Ok(body.user) else old(ReadUser(b.local)))
    ensures Truthy(IssuedAccess(body)) && !Truthy(body.refreshToken) ==>
      GetRefreshToken(b) == Some(TempMissing) && IsAuthenticated(b)
    ensures !Truthy(IssuedAccess(body)) ==> b.local == old(b.local) && b.jar == old(b.jar)
    ensures WithoutCredentials(b.local) == WithoutCredentials(old(b.local))
    ensures forall name :: name != RefreshTokenKey ==> Lookup(b.jar, name) == old(Lookup(b.jar, name))
    ensures b.location == old(b.location)
  {
    var access := IssuedAccess(body);
    if Truthy(access) {
      assert NoChar(TempMissing, ';');
      SetTokens(b, access, OrElse(body.refreshToken, Some(TempMissing)), body.user);
    }
  }

  /** `login(email, password)`: one POST; the session is stored only from an OK JSON answer. */
  method Login(b: Browser, net: Network, email: string, password: string) returns (r: Result<Body, JsError>)
    requires b.Valid()
    modifies b, net
    ensures b.Valid()
    ensures net.sent == old(net.sent) + [LoginRequest(email, password)]
    ensures r == LoginResult(NextOutcome(old(net.pending)))
    ensures r.Err? ==> b.local == old(b.local) && b.jar == old(b.jar)
    ensures r.Ok? && Truthy(IssuedAccess(r.value)) ==> GetAccessToken(b) == IssuedAccess(r.value) && IsAuthenticated(b)
    ensures r.Ok? && !Truthy(IssuedAccess(r.value)) ==> b.local == old(b.local) && b.jar == old(b.jar)
    ensures WithoutCredentials(b.local) == WithoutCredentials(old(b.local))
    ensures forall name :: name != RefreshTokenKey ==> Lookup(b.jar, name) == old(Lookup(b.jar, name))
    ensures b.location == old(b.location)
  {
    var outcome := net.Fetch(LoginRequest(email, password));
    r := LoginResult(outcome);
    if r.Ok? {
      StoreSession(b, r.value);
      if Truthy(IssuedAccess(r.value)) && Truthy(r.value.refreshToken) {
        // the refresh token was written to localStorage, so the fallback is truthy at least
        assert Truthy(TokenText(b.local, RefreshTokenKey));
      }
    }
  }

  /** `register(userData)`: the same as `login` for the registration endpoint. */
  method Register(b: Browser, net: Network, user: Json) returns (r: Result<Body, JsError>)
    requires b.Valid()
    modifies b, net
    ensures b.Valid()
    ensures net.sent == old(net.sent) + [RegisterRequest(user)]
    ensures r == RegisterResult(NextOutcome(old(net.pending)))
    ensures r.Err? ==> b.local == old(b.local) && b.jar == old(b.jar)
    ensures r.Ok? && Truthy(IssuedAccess(r.value)) ==> GetAccessToken(b) == IssuedAccess(r.value) && IsAuthenticated(b)
    ensures r.Ok? && !Truthy(IssuedAccess(r.value)) ==> b.local == old(b.local) && b.jar == old(b.jar)
    ensures WithoutCredentials(b.local) == WithoutCredentials(old(b.local))
    ensures forall name :: name != RefreshTokenKey ==> Lookup(b.jar, name) == old(Lookup(b.jar, name))
    ensures b.location == old(b.location)
  {
    var outcome := net.Fetch(RegisterRequest(user));
    r := RegisterResult(outcome);
    if r.Ok? {
      StoreSession(b, r.value);
    }
  }

  /** `logout()`: tells the backend only when an access token is stored, then always clears the session. */
  method Logout(b: Browser, net: Network)
    requires b.Valid()
    modifies b, net
    ensures b.Valid()
    ensures Truthy(old(GetAccessToken(b))) ==> net.sent == old(net.sent) + [LogoutRequest(old(GetAccessToken(b)).value)]
    ensures !Truthy(old(GetAccessToken(b))) ==> net.sent == old(net.sent)
    ensures b.local == WithoutCredentials(old(b.local)) && b.jar == Remove(old(b.jar), RefreshTokenKey)
    ensures b.location == old(b.location)
    ensures !IsAuthenticated(b)
  {
    var access := GetAccessToken(b);
    if Truthy(access) {
      var _ := net.Fetch(LogoutRequest(access.value));
    }
    ClearTokens(b);
  }

  // ---------------------------------------------------------------- apiFetch

  /** The first request `apiFetch` sends. */
  function FirstRequest(endpoint: string, options: Options, bearer: Option<string>): Request
  {
    Request(ResolveUrl(ApiBase, endpoint), options.verb, PrepareHeaders(options, bearer), options.body, false)
  }

  /** The same request carrying a new bearer token. */
  function WithBearer(request: Request, access: string): (r: Request)
    ensures r.url == request.url && r.verb == request.verb && r.body == request.body
    ensures "Authorization" in r.headers && r.headers["Authorization"] == "Bearer " + access
    ensures forall k :: k != "Authorization" ==> (k in r.headers <==> k in request.headers)
    ensures forall k :: k in request.headers && k != "Authorization" ==> r.headers[k] == request.headers[k]
  {
    request.(headers := request.headers["Authorization" := "Bearer " + access])
  }

  /** The condition under which `apiFetch` refreshes and retries. */
  predicate WantsRefresh(o: FetchOutcome, requireAuth: bool, refresh: Option<string>)
  {
    o.Received? && o.response.status == 401 && requireAuth && Truthy(refresh)
  }

  /** The outcomes still to come after one `fetch`. */
  function Rest(pending: seq<FetchOutcome>): seq<FetchOutcome>
  {
    if pending == [] then [] else pending[1..]
  }

  /** The refresh inside `apiFetch` succeeds: a usable refresh token, answered with an access token. */
  predicate RefreshSucceeds(refresh: Option<string>, pending: seq<FetchOutcome>)
  {
    Usable(refresh) && RefreshReply(NextOutcome(pending)).Ok?
  }

  /**
   * What the refresh-and-retry half of `apiFetch` yields, given the stored
   * refresh token and the outcomes still to come: the retry's response,
   * whatever its status, when the refresh succeeded and the retry was
   * answered; `Session expired` otherwise.
   */
  function RetryResult(refresh: Option<string>, pending: seq<FetchOutcome>): (r: Result<Response, JsError>)
    ensures r.Ok? <==> RefreshSucceeds(refresh, pending) && NextOutcome(Rest(pending)).Received?
    ensures r.Ok? ==> r.value == NextOutcome(Rest(pending)).response
    ensures r.Err? ==> r.error == Error(SessionExpired)
  {
    if !RefreshSucceeds(refresh, pending) then Err(Error(SessionExpired))
    else match NextOutcome(Rest(pending))
      case Rejected(_) => Err(Error(SessionExpired))
      case Received(resp) => Ok(resp)
  }

  /**
   * What `apiFetch` yields, given the outcomes to come, whether the request
   * is authenticated and the stored refresh token: the first response or
   * the first fetch's error, unless that response asks for a refresh.
   */
  function FetchResult(pending: seq<FetchOutcome>, requireAuth: bool, refresh: Option<string>): Result<Response, JsError>
  {
    var first := NextOutcome(pending);
    if WantsRefresh(first, requireAuth, refresh) then RetryResult(refresh, Rest(pending))
    else match first
      case Rejected(e) => Err(e)
      case Received(resp) => Ok(resp)
  }

  /**
   * `apiFetch` refreshes at most once: only a 401 to an authenticated
   * request with a stored refresh token leads to a refresh; the retry's
   * answer is returned as it is, even a second 401; a failed refresh or an
   * unanswered retry ends in `Session expired`.
   */
  lemma RefreshAtMostOnce(pending: seq<FetchOutcome>, requireAuth: bool, refresh: Option<string>)
    ensures pending != [] && pending[0].Received? && pending[0].response.status != 401 ==>
      FetchResult(pending, requireAuth, refresh) == Ok(pending[0].response)
    ensures pending == [] ==> FetchResult(pending, requireAuth, refresh) == Err(FailedToFetch)
    ensures !requireAuth || !Truthy(refresh) ==>
      FetchResult(pending, requireAuth, refresh) == (match NextOutcome(pending) case Rejected(e) => Err(e) case Received(resp) => Ok(resp))
    ensures (WantsRefresh(NextOutcome(pending), requireAuth, refresh) && RefreshSucceeds(refresh, Rest(pending))
             && |pending| >= 3 && pending[2].Received?) ==>
      FetchResult(pending, requireAuth, refresh) == Ok(pending[2].response)
    ensures WantsRefresh(NextOutcome(pending), requireAuth, refresh) && !RefreshSucceeds(refresh, Rest(pending)) ==>
      FetchResult(pending, requireAuth, refresh) == Err(Error(SessionExpired))
  {
    if |pending| >= 3 {
      assert Rest(Rest(pending)) == pending[2..];
    }
  }

  /**
   * `apiFetch(endpoint, options, requireAuth)`: one request; on a 401 to an
   * authenticated request while a refresh token is stored, one refresh and
   * one retry with the new token. A failed refresh or a rejected retry
   * clears the session and fails with `Session expired`; only a failed
   * refresh also goes to `/login`.
   */
  method ApiFetch(b: Browser, net: Network, endpoint: string, options: Options, requireAuth: bool)
    returns (r: Result<Response, JsError>)
    requires b.Valid()
    modifies b, net
    ensures b.Valid()
    ensures r == FetchResult(old(net.pending), requireAuth, old(GetRefreshToken(b)))
    ensures |net.sent| > |old(net.sent)|
    ensures net.sent[..|old(net.sent)| + 1]
      == old(net.sent) + [FirstRequest(endpoint, options, if requireAuth then old(GetAccessToken(b)) else None)]
    ensures !WantsRefresh(NextOutcome(old(net.pending)), requireAuth, old(GetRefreshToken(b))) ==>
      |net.sent| == |old(net.sent)| + 1
      && b.local == old(b.local) && b.jar == old(b.jar) && b.location == old(b.location)
    ensures WantsRefresh(NextOutcome(old(net.pending)), requireAuth, old(GetRefreshToken(b))) && r.Err? ==>
      b.local == WithoutCredentials(old(b.local))
      && (forall name :: Lookup(b.jar, name) == if name == RefreshTokenKey then None else old(Lookup(b.jar, name)))
      && b.location == (if RefreshSucceeds(old(GetRefreshToken(b)), Rest(old(net.pending))) then old(b.location) else Some("/login"))
    ensures WantsRefresh(NextOutcome(old(net.pending)), requireAuth, old(GetRefreshToken(b))) && r.Ok? ==>
      |net.sent| == |old(net.sent)| + 3
      && GetAccessToken(b).Some?
      && net.sent[|old(net.sent)| + 2]
         == WithBearer(FirstRequest(endpoint, options, if requireAuth then old(GetAccessToken(b)) else None), GetAccessToken(b).value)
    ensures r.Ok? ==>
      WithoutCredentials(b.local) == WithoutCredentials(old(b.local))
      && (forall name :: name != RefreshTokenKey ==> Lookup(b.jar, name) == old(Lookup(b.jar, name)))
      && b.location == old(b.location)
  {
    var bearer := if requireAuth then GetAccessToken(b) else None;
    var first := FirstRequest(endpoint, options, bearer);
    var outcome := net.Fetch(first);
    ghost var afterFirst := net.sent;
    if !WantsRefresh(outcome, requireAuth, GetRefreshToken(b)) {
      r := match outcome
        case Rejected(e) => Err(e)
        case Received(resp) => Ok(resp);
      return;
    }
    r := RefreshAndRetry(b, net, first);
    assert net.sent[..|old(net.sent)| + 1] == afterFirst;
  }

  /**
   * The second half of `apiFetch`, after a 401: one refresh, then the
   * request again with the new token, whose answer is returned as it is. A
   * failed refresh (which also goes to `/login`) or a rejected retry clears
   * the session and fails with `Session expired`.
   */
  method RefreshAndRetry(b: Browser, net: Network, first: Request) returns (r: Result<Response, JsError>)
    requires b.Valid()
    modifies b, net
    ensures b.Valid()
    ensures r == RetryResult(old(GetRefreshToken(b)), old(net.pending))
    ensures |net.sent| >= |old(net.sent)| && net.sent[..|old(net.sent)|] == old(net.sent)
    ensures r.Err? ==>
      b.local == WithoutCredentials(old(b.local))
      && (forall name :: Lookup(b.jar, name) == if name == RefreshTokenKey then None else old(Lookup(b.jar, name)))
      && b.location == (if RefreshSucceeds(old(GetRefreshToken(b)), old(net.pending)) then old(b.location) else Some("/login"))
    ensures r.Ok? ==>
      |net.sent| == |old(net.sent)| + 2
      && GetAccessToken(b).Some?
      && net.sent[|old(net.sent)| + 1] == WithBearer(first, GetAccessToken(b).value)
    ensures r.Ok? ==>
      WithoutCredentials(b.local) == WithoutCredentials(old(b.local))
      && (forall name :: name != RefreshTokenKey ==> Lookup(b.jar, name) == old(Lookup(b.jar, name)))
      && b.location == old(b.location)
  {
    var renewed := RefreshAccessToken(b, net);
    if renewed.Err? {
      ClearTokens(b);
      ClearTwice(old(b.local), old(b.jar));
      return Err(Error(SessionExpired));
    }
    r := RetryWithToken(b, net, first, renewed.value);
    assert net.sent[..|old(net.sent)|] == old(net.sent);
  }

  /** The retry of `apiFetch` with the renewed token: its answer is returned; a rejected retry clears the session. */
  method RetryWithToken(b: Browser, net: Network, first: Request, token: string) returns (r: Result<Response, JsError>)
    requires b.Valid()
    modifies b, net
    ensures b.Valid()
    ensures net.sent == old(net.sent) + [WithBearer(first, token)]
    ensures net.pending == Rest(old(net.pending))
    ensures r == match NextOutcome(old(net.pending))
      case Rejected(_) => Err(Error(SessionExpired))
      case Received(resp) => Ok(resp)
    ensures b.location == old(b.location)
    ensures r.Ok? ==> b.local == old(b.local) && b.jar == old(b.jar)
    ensures r.Err? ==>
      b.local == WithoutCredentials(old(b.local)) && b.jar == Remove(old(b.jar), RefreshTokenKey)
  {
    var retry := net.Fetch(WithBearer(first, token));
    if retry.Rejected? {
      ClearTokens(b);
      return Err(Error(SessionExpired));
    }
    r := Ok(retry.response);
  }

  // ---------------------------------------------------------------- the api object

  /**
   * The body a helper sends: GET and DELETE keep the caller's, POST, PUT and
   * PATCH send the data as JSON, `publicPost` passes a `FormData` through.
   */
  function VerbBody(v: Verb, data: Data, options: Options): (r: RequestBody)
    ensures (v.Get? || v.Delete? || v.PublicGet?) ==> r == options.body
    ensures (v.Post? || v.Put? || v.Patch?) ==> r.JsonText? && (data.Value? ==> r.json == data.json)
    ensures v.PublicPost? && data.Form? ==> r == Multipart(data.entries)
    ensures v.PublicPost? && data.Value? ==> r == JsonText(data.json)
  {
    match v
    case Get => options.body
    case Delete => options.body
    case PublicGet => options.body
    case PublicPost => if data.Form? then Multipart(data.entries) else Stringify(data)
    case _ => Stringify(data)
  }

  /** The message a helper throws for a non-OK response. */
  function FailureMessage(v: Verb, endpoint: string, resp: Response): (message: string)
    ensures message != ""
    ensures resp.body.None? ==> message == "Request failed"
    ensures resp.body.Some? && Truthy(resp.body.value.message) ==> message == resp.body.value.message.value
    ensures resp.body.Some? && !Truthy(resp.body.value.message) ==> message == VerbMethod(v) + " " + endpoint + " failed"
  {
    if resp.body.None? then "Request failed"
    else if Truthy(resp.body.value.message) then resp.body.value.message.value
    else VerbMethod(v) + " " + endpoint + " failed"
  }

  /**
   * What a helper makes of `apiFetch`'s result: an error propagates, a
   * non-OK response throws `FailureMessage`, an OK response gives its JSON
   * body, or the parse error when the body is not JSON.
   */
  function HelperResult(v: Verb, endpoint: string, fetched: Result<Response, JsError>): (r: Result<Body, JsError>)
    ensures fetched.Err? ==> r == Err(fetched.error)
    ensures fetched.Ok? && !IsOk(fetched.value) ==> r == Err(Error(FailureMessage(v, endpoint, fetched.value)))
    ensures fetched.Ok? && IsOk(fetched.value) && fetched.value.body.None? ==> r == Err(JsonSyntaxError)
    ensures r.Ok? <==> fetched.Ok? && IsOk(fetched.value) && fetched.value.body.Some?
    ensures r.Ok? ==> r.value == fetched.value.body.value
  {
    match fetched
    case Err(e) => Err(e)
    case Ok(resp) =>
      if !IsOk(resp) then Err(Error(FailureMessage(v, endpoint, resp)))
      else if resp.body.None? then Err(JsonSyntaxError)
      else Ok(resp.body.value)
  }

  /**
   * A helper answered at once: an OK JSON answer is returned, any other
   * status but 401 throws the helper's message, and the public helpers
   * never refresh, so a 401 to them throws as well.
   */
  lemma HelperFirstAnswer(v: Verb, endpoint: string, pending: seq<FetchOutcome>, refresh: Option<string>)
    requires pending != [] && pending[0].Received?
    requires pending[0].response.status != 401 || !Authenticated(v)
    ensures var resp := pending[0].response;
      HelperResult(v, endpoint, FetchResult(pending, Authenticated(v), refresh))
      == if !IsOk(resp) then Err(Error(FailureMessage(v, endpoint, resp)))
         else if resp.body.None? then Err(JsonSyntaxError)
         else Ok(resp.body.value)
  {
    RefreshAtMostOnce(pending, Authenticated(v), refresh);
  }

  /** `api.get`, `api.post`, …: `apiFetch`, then the JSON body or the helper's error. */
  method Call(b: Browser, net: Network, v: Verb, endpoint: string, data: Data, options: Options)
    returns (r: Result<Body, JsError>)
    requires b.Valid()
    modifies b, net
    ensures b.Valid()
    ensures r == HelperResult(v, endpoint, FetchResult(old(net.pending), Authenticated(v), old(GetRefreshToken(b))))
    ensures |net.sent| > |old(net.sent)|
    ensures net.sent[|old(net.sent)|] == FirstRequest(endpoint,
      options.(verb := VerbMethod(v), body := VerbBody(v, data, options)),
      if Authenticated(v) then old(GetAccessToken(b)) else None)
    ensures !WantsRefresh(NextOutcome(old(net.pending)), Authenticated(v), old(GetRefreshToken(b))) ==>
      |net.sent| == |old(net.sent)| + 1
      && b.local == old(b.local) && b.jar == old(b.jar) && b.location == old(b.location)
    ensures WantsRefresh(NextOutcome(old(net.pending)), Authenticated(v), old(GetRefreshToken(b)))
            && FetchResult(old(net.pending), Authenticated(v), old(GetRefreshToken(b))).Err? ==>
      b.local == WithoutCredentials(old(b.local))
      && (forall name :: Lookup(b.jar, name) == if name == RefreshTokenKey then None else old(Lookup(b.jar, name)))
      && b.location == (if RefreshSucceeds(old(GetRefreshToken(b)), Rest(old(net.pending))) then old(b.location) else Some("/login"))
    ensures FetchResult(old(net.pending), Authenticated(v), old(GetRefreshToken(b))).Ok? ==>
      WithoutCredentials(b.local) == WithoutCredentials(old(b.local))
      && (forall name :: name != RefreshTokenKey ==> Lookup(b.jar, name) == old(Lookup(b.jar, name)))
      && b.location == old(b.location)
  {
    var fetched := ApiFetch(b, net, endpoint, options.(verb := VerbMethod(v), body := VerbBody(v, data, options)), Authenticated(v));
    assert net.sent[|old(net.sent)|] == net.sent[..|old(net.sent)| + 1][|old(net.sent)|];
    r := HelperResult(v, endpoint, fetched);
  }
}
