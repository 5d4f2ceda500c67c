/**
 * `src/services/AuthService.js`: login, registration, logout and token
 * refresh as sequences of an `HttpClient` call and `TokenService` updates.
 */
module AuthService {
  import opened Wrappers
  import opened Storage
  import opened Http
  import opened TokenService
  import opened HttpClient

  const LoginPath := "/login"
  const RegisterPath := "/register"
  const RefreshPath := "/refresh"
  const LogoutPath := "/logout"

  const NoOptions := Options("", map[], NoBody)

  const NoAccessToken := "No access token in response"
  const NoRefreshedToken := "No access token in refresh response"

  /**
   * What `login` makes of the client's answer: an answer carrying an access
   * token is returned; an answer without one throws; an error propagates.
   */
  function LoginReply(answer: Result<Body, JsError>): (r: Result<Body, JsError>)
    ensures r.Ok? <==> answer.Ok? && Truthy(IssuedAccess(answer.value))
    ensures r.Ok? ==> r == answer
    ensures answer.Err? ==> r == answer
    ensures answer.Ok? && !Truthy(IssuedAccess(answer.value)) ==> r == Err(Error(NoAccessToken))
  {
    match answer
    case Err(_) => answer
    case Ok(data) => if Truthy(IssuedAccess(data)) then answer else Err(Error(NoAccessToken))
  }

  /**
   * What `refreshToken` makes of the client's answer: the access token it
   * carries, or the error thrown when it carries none or the call failed.
   */
  function RefreshReply(answer: Result<Body, JsError>): (r: Result<string, JsError>)
    ensures r.Ok? <==> answer.Ok? && Truthy(IssuedAccess(answer.value))
    ensures r.Ok? ==> r.value != "" && Some(r.value) == IssuedAccess(answer.value)
    ensures answer.Err? ==> r == Err(answer.error)
    ensures answer.Ok? && !Truthy(IssuedAccess(answer.value)) ==> r == Err(Error(NoRefreshedToken))
  {
    match answer
    case Err(e) => Err(e)
    case Ok(data) =>
      var access := IssuedAccess(data);
      if Truthy(access) then Ok(access.value) else Err(Error(NoRefreshedToken))
  }

  /**
   * The request a `publicPost(path, data)` of this service sends: a POST to
   * the resolved URL with the default headers and no `Authorization`, the
   * data as its JSON body, cookies included.
   */
  function PublicPostRequest(baseURL: string, path: string, data: Data): (r: Request)
    ensures r.url == ResolveUrl(baseURL, path) && r.verb == "POST" && r.includeCredentials
    ensures r.body == VerbBody(PublicPost, data, NoOptions)
    ensures "Authorization" !in r.headers
    ensures "Accept" in r.headers && r.headers["Accept"] == "application/json"
  {
    Request(ResolveUrl(baseURL, path), VerbMethod(PublicPost),
      PrepareHeaders(NoOptions.(body := VerbBody(PublicPost, data, NoOptions)), None),
      VerbBody(PublicPost, data, NoOptions), true)
  }

  /** `login(email, password)`: a public POST; the tokens are stored only when an access token came back. */
  method Login(client: Client, net: Network, email: string, password: string) returns (r: Result<Body, JsError>)
    requires client.Valid()
    modifies client.tokens, client.tokens.browser, net
    ensures client.Valid()
    ensures |net.sent| > |old(net.sent)|
    ensures net.sent[|old(net.sent)|]
      == PublicPostRequest(client.baseURL, LoginPath, Value(JObj([("email", JStr(email)), ("password", JStr(password))])))
    ensures net.sent[|old(net.sent)|].body == JsonText(JObj([("email", JStr(email)), ("password", JStr(password))]))
    ensures r == LoginReply(CallOutcome(old(net.pending)))
    ensures client.tokens.browser.jar == old(client.tokens.browser.jar) && client.tokens.browser.location == old(client.tokens.browser.location)
    ensures WithoutCredentials(client.tokens.browser.local) == WithoutCredentials(old(client.tokens.browser.local))
    ensures r.Ok? ==>
      Truthy(IssuedAccess(r.value))
      && client.tokens.inMemory == IssuedAccess(r.value)
      && TokenText(client.tokens.browser.local, AccessTokenKey) == IssuedAccess(r.value)
      && ReadUser(client.tokens.browser.local) == (if r.value.user.Some? then Ok(r.value.user) else old(ReadUser(client.tokens.browser.local)))
      && TokenText(client.tokens.browser.local, RefreshTokenKey)
         == (if Storable(r.value.refreshToken) then r.value.refreshToken else old(TokenText(client.tokens.browser.local, RefreshTokenKey)))
    ensures r.Err? ==>
      client.tokens.inMemory == old(client.tokens.inMemory) && client.tokens.browser.local == old(client.tokens.browser.local)
  {
    var data := client.Call(net, PublicPost, LoginPath,
      Value(JObj([("email", JStr(email)), ("password", JStr(password))])), NoOptions);
    if data.Err? {
      return data;
    }
    var access := IssuedAccess(data.value);
    if !Truthy(access) {
      return Err(Error(NoAccessToken));
    }
    client.tokens.SetTokens(access, data.value.refreshToken, data.value.user);
    r := data;
  }

  /** `register(userData)`: like `login`, but an answer without an access token is returned without storing anything. */
  method Register(client: Client, net: Network, user: Data) returns (r: Result<Body, JsError>)
    requires client.Valid()
    modifies client.tokens, client.tokens.browser, net
    ensures client.Valid()
    ensures |net.sent| > |old(net.sent)|
    ensures net.sent[|old(net.sent)|] == PublicPostRequest(client.baseURL, RegisterPath, user)
    ensures r == CallOutcome(old(net.pending))
    ensures client.tokens.browser.jar == old(client.tokens.browser.jar) && client.tokens.browser.location == old(client.tokens.browser.location)
    ensures WithoutCredentials(client.tokens.browser.local) == WithoutCredentials(old(client.tokens.browser.local))
    ensures r.Ok? && Truthy(IssuedAccess(r.value)) ==>
      client.tokens.inMemory == IssuedAccess(r.value)
      && TokenText(client.tokens.browser.local, AccessTokenKey) == IssuedAccess(r.value)
      && ReadUser(client.tokens.browser.local) == (if r.value.user.Some? then Ok(r.value.user) else old(ReadUser(client.tokens.browser.local)))
      && TokenText(client.tokens.browser.local, RefreshTokenKey)
         == (if Storable(r.value.refreshToken) then r.value.refreshToken else old(TokenText(client.tokens.browser.local, RefreshTokenKey)))
    ensures (r.Ok? && !Truthy(IssuedAccess(r.value))) || r.Err? ==>
      client.tokens.inMemory == old(client.tokens.inMemory) && client.tokens.browser.local == old(client.tokens.browser.local)
  {
    r := client.Call(net, PublicPost, RegisterPath, user, NoOptions);
    if r.Ok? && Truthy(IssuedAccess(r.value)) {
      client.tokens.SetTokens(IssuedAccess(r.value), r.value.refreshToken, r.value.user);
    }
  }

  /**
   * `logout()`: the server is told only when `getAccessToken` yields a token;
   * a failure of that call is ignored and the tokens are always cleared.
   */
  method Logout(client: Client, net: Network)
    requires client.Valid()
    modifies client.tokens, client.tokens.browser, net
    ensures client.Valid()
    ensures CachedAccess(old(client.tokens.inMemory), old(client.tokens.browser.local)).None? ==> net.sent == old(net.sent)
    ensures CachedAccess(old(client.tokens.inMemory), old(client.tokens.browser.local)).Some? ==>
      |net.sent| > |old(net.sent)|
      && net.sent[|old(net.sent)|].url == ResolveUrl(client.baseURL, LogoutPath)
      && net.sent[|old(net.sent)|].verb == "POST"
      && "Authorization" in net.sent[|old(net.sent)|].headers
      && net.sent[|old(net.sent)|].headers["Authorization"]
         == "Bearer " + CachedAccess(old(client.tokens.inMemory), old(client.tokens.browser.local)).value
    ensures client.tokens.inMemory == None
    ensures client.tokens.browser.local == WithoutCredentials(old(client.tokens.browser.local))
    ensures client.tokens.browser.jar == Cookies.Remove(old(client.tokens.browser.jar), RefreshTokenKey)
    ensures client.tokens.browser.location == old(client.tokens.browser.location)
  {
    var access := client.tokens.GetAccessToken();
    if Truthy(access) {
      var _ := client.Call(net, Post, LogoutPath, Value(JObj([])), NoOptions);
    }
    client.tokens.ClearTokens();
  }

  /**
   * `refreshToken()`: a public POST; the new access token is stored with the
   * returned refresh token (a missing one leaves the stored one in place);
   * any failure clears the tokens and is rethrown.
   */
  method RefreshToken(client: Client, net: Network) returns (r: Result<string, JsError>)
    requires client.Valid()
    modifies client.tokens, client.tokens.browser, net
    ensures client.Valid()
    ensures |net.sent| > |old(net.sent)|
    ensures net.sent[|old(net.sent)|] == PublicPostRequest(client.baseURL, RefreshPath, Value(JObj([])))
    ensures r == RefreshReply(CallOutcome(old(net.pending)))
    ensures client.tokens.browser.location == old(client.tokens.browser.location)
    ensures r.Ok? ==>
      client.tokens.browser.jar == old(client.tokens.browser.jar)
      && WithoutCredentials(client.tokens.browser.local) == WithoutCredentials(old(client.tokens.browser.local))
    ensures r.Ok? ==>
      r.value != "" && client.tokens.inMemory == Some(r.value)
      && TokenText(client.tokens.browser.local, AccessTokenKey) == Some(r.value)
      && ReadUser(client.tokens.browser.local) == old(ReadUser(client.tokens.browser.local))
    ensures r.Ok? ==> exists k | 0 <= k < |net.sent| - |old(net.sent)| ::
      NthOutcome(old(net.pending), k).Received?
      && HandleResponse(NthOutcome(old(net.pending), k).response).Ok?
      && IssuedAccess(HandleResponse(NthOutcome(old(net.pending), k).response).value) == Some(r.value)
      && TokenText(client.tokens.browser.local, RefreshTokenKey)
         == (var returned := HandleResponse(NthOutcome(old(net.pending), k).response).value.refreshToken;
             if Storable(returned) then returned else old(TokenText(client.tokens.browser.local, RefreshTokenKey)))
    ensures r.Err? ==>
      client.tokens.inMemory == None
      && client.tokens.browser.local == WithoutCredentials(old(client.tokens.browser.local))
      && client.tokens.browser.jar == Cookies.Remove(old(client.tokens.browser.jar), RefreshTokenKey)
  {
    var data := client.Call(net, PublicPost, RefreshPath, Value(JObj([])), NoOptions);
    if data.Err? {
      client.tokens.ClearTokens();
      return Err(data.error);
    }
    var access := IssuedAccess(data.value);
    if !Truthy(access) {
      client.tokens.ClearTokens();
      return Err(Error(NoRefreshedToken));
    }
    client.tokens.SetTokens(access, data.value.refreshToken, None);
    r := Ok(access.value);
  }
}
