/**
 * `src/services/TokenService.js`: the token store of the service layer. The
 * access token is cached in a module variable (`inMemoryAccessToken`) in
 * front of localStorage; the refresh token is only read from a cookie, never
 * written there.
 */
module TokenService {
  import opened Wrappers
  import opened Cookies
  import opened Storage

  /** What `getRefreshToken` answers when neither the cookie nor localStorage holds a token. */
  const HttpOnlyCookie := "http_only_cookie"

  /**
   * What `getAccessToken` returns given the cached value and localStorage: a
   * truthy cache wins; otherwise a truthy stored token other than
   * `temp_missing`; otherwise null.
   */
  function CachedAccess(memory: Option<string>, local: Store): (r: Option<string>)
    requires TokensAreText(local)
    ensures r.Some? ==> r.value != ""
    ensures Truthy(memory) ==> r == memory
    ensures !Truthy(memory) ==>
      (r.Some? <==> Present(local, AccessTokenKey) && local[AccessTokenKey] != Text(TempMissing))
    ensures !Truthy(memory) && r.Some? ==> local[AccessTokenKey] == Text(r.value)
    ensures r == Some(TempMissing) ==> memory == Some(TempMissing)
  {
    if Truthy(memory) then memory
    else
      var stored := TokenText(local, AccessTokenKey);
      if Truthy(stored) && stored.value != TempMissing then stored else None
  }

  /** A refresh token `setTokens` writes: truthy and neither placeholder. */
  predicate Storable(refresh: Option<string>)
  {
    Truthy(refresh) && refresh.value != TempMissing && refresh.value != HttpOnlyCookie
  }

  /** `getUserRole()`: the stored role when truthy, `user` otherwise; a stored entry that is not JSON throws. */
  function UserRole(local: Store): (r: Result<string, ParseError>)
    ensures r.Err? <==> ReadUser(local).Err?
    ensures r.Ok? ==> r.value != ""
    ensures ReadUser(local) == Ok(None) ==> r == Ok("user")
    ensures r.Ok? && r.value != "user" ==>
      ReadUser(local).value.Some? && ReadUser(local).value.value.role == Some(r.value)
  {
    match ReadUser(local)
    case Err(e) => Err(e)
    case Ok(None) => Ok("user")
    case Ok(Some(u)) => Ok(if Truthy(u.role) then u.role.value else "user")
  }

  /** `isAdmin()`. */
  function IsAdmin(local: Store): (r: Result<bool, ParseError>)
    ensures r.Err? <==> ReadUser(local).Err?
    ensures r == Ok(true) <==> UserRole(local) == Ok("admin")
  {
    match UserRole(local)
    case Err(e) => Err(e)
    case Ok(role) => Ok(role == "admin")
  }

  /** Whether `migrateFromLocalStorage` gets as far as removing the old entries. */
  predicate Migrates(local: Store)
  {
    (Present(local, AccessTokenKey) || Present(local, UserDataKey))
    && !(Present(local, AccessTokenKey) && ReadUser(local).Err?)
  }

  class TokenStore {
    /** `inMemoryAccessToken`. */
    var inMemory: Option<string>
    const browser: Browser

    ghost predicate Valid()
      reads this, browser
    {
      browser.Valid()
    }

    /** The store as the module starts: an empty cache. */
    constructor (browser: Browser)
      requires browser.Valid()
      ensures Valid() && this.browser == browser && inMemory == None
    {
      this.browser := browser;
      inMemory := None;
    }

    /** `getAccessToken()`: a token read from localStorage is copied into the cache. */
    method GetAccessToken() returns (r: Option<string>)
      requires Valid()
      modifies this
      ensures Valid()
      ensures r == CachedAccess(old(inMemory), browser.local)
      ensures inMemory == if r.Some? then r else old(inMemory)
    {
      if Truthy(inMemory) {
        return inMemory;
      }
      var stored := TokenText(browser.local, AccessTokenKey);
      if Truthy(stored) && stored.value != TempMissing {
        inMemory := stored;
        return stored;
      }
      return None;
    }

    /**
     * `getRefreshToken()`: the cookie when truthy, else a truthy stored token
     * other than `temp_missing`, else the `http_only_cookie` indicator; never
     * empty.
     */
    function RefreshToken(): (r: string)
      reads this, browser
      requires Valid()
      ensures r != ""
      ensures Truthy(Lookup(browser.jar, RefreshTokenKey)) ==> r == Lookup(browser.jar, RefreshTokenKey).value
      ensures !Truthy(Lookup(browser.jar, RefreshTokenKey)) ==>
        r == (if Present(browser.local, RefreshTokenKey) && browser.local[RefreshTokenKey] != Text(TempMissing)
              then browser.local[RefreshTokenKey].text else HttpOnlyCookie)
    {
      assert ValidName(RefreshTokenKey);
      GetCookieReadsJar(browser.jar, RefreshTokenKey);
      var cookie := GetCookie(Render(browser.jar), RefreshTokenKey);
      if Truthy(cookie) then cookie.value
      else
        var stored := TokenText(browser.local, RefreshTokenKey);
        if Truthy(stored) && stored.value != TempMissing then stored.value else HttpOnlyCookie
    }

    /**
     * `setTokens(accessToken, refreshToken, userData)`: nothing happens
     * without a truthy access token; otherwise it is cached and stored, the
     * refresh token is stored when `Storable`, and the user when given.
     */
    method SetTokens(access: Option<string>, refresh: Option<string>, user: Option<UserData>)
      requires Valid()
      modifies this, browser
      ensures Valid()
      ensures !Truthy(access) ==> inMemory == old(inMemory) && browser.local == old(browser.local)
      ensures Truthy(access) ==> inMemory == access && TokenText(browser.local, AccessTokenKey) == access
      ensures Truthy(access) ==> CachedAccess(inMemory, browser.local) == access
      ensures TokenText(browser.local, RefreshTokenKey)
        == if Truthy(access) && Storable(refresh) then refresh else old(TokenText(browser.local, RefreshTokenKey))
      ensures ReadUser(browser.local)
        == if Truthy(access) && user.Some? then Ok(user) else old(ReadUser(browser.local))
      ensures WithoutCredentials(browser.local) == WithoutCredentials(old(browser.local))
      ensures browser.jar == old(browser.jar) && browser.location == old(browser.location)
    {
      if !Truthy(access) {
        return;
      }
      inMemory := access;
      WithoutCredentialsUpdate(browser.local, AccessTokenKey, Text(access.value));
      browser.SetItem(AccessTokenKey, Text(access.value));
      if Storable(refresh) {
        WithoutCredentialsUpdate(browser.local, RefreshTokenKey, Text(refresh.value));
        browser.SetItem(RefreshTokenKey, Text(refresh.value));
      }
      if user.Some? {
        WithoutCredentialsUpdate(browser.local, UserDataKey, UserDoc(user.value));
        browser.SetItem(UserDataKey, UserDoc(user.value));
      }
    }

    /** `isAuthenticated()`: the access token `getAccessToken` yields is truthy and not `temp_missing`. */
    method IsAuthenticated() returns (r: bool)
      requires Valid()
      modifies this
      ensures Valid()
      ensures r <==> (CachedAccess(old(inMemory), browser.local).Some?
                      && CachedAccess(old(inMemory), browser.local) != Some(TempMissing))
      ensures inMemory == if CachedAccess(old(inMemory), browser.local).Some? then CachedAccess(old(inMemory), browser.local) else old(inMemory)
    {
      var token := GetAccessToken();
      r := Truthy(token) && token.value != TempMissing;
    }

    /**
     * `clearTokens()`: the cache, the three localStorage entries and the
     * refresh cookie are cleared; afterwards there is no access token, no
     * user and the role reads as `user`.
     */
    method ClearTokens()
      requires Valid()
      modifies this, browser
      ensures Valid()
      ensures inMemory == None
      ensures browser.local == WithoutCredentials(old(browser.local))
      ensures browser.jar == Remove(old(browser.jar), RefreshTokenKey)
      ensures browser.location == old(browser.location)
      ensures CachedAccess(inMemory, browser.local) == None
      ensures ReadUser(browser.local) == Ok(None) && UserRole(browser.local) == Ok("user")
      ensures RefreshToken() == HttpOnlyCookie
    {
      inMemory := None;
      WithoutCredentialsStepwise(browser.local);
      browser.RemoveItem(AccessTokenKey);
      browser.RemoveItem(RefreshTokenKey);
      browser.RemoveItem(UserDataKey);
      assert browser.local == WithoutCredentials(old(browser.local));
      browser.DeleteCookie(RefreshTokenKey);
      assert Lookup(browser.jar, RefreshTokenKey) == None;
    }

    /**
     * `migrateFromLocalStorage()`: when an access token or user entry is
     * stored, the access token (with the stored refresh token and user) goes
     * through `setTokens` and then all three entries are removed, leaving the
     * token only in the cache. A user entry that is not JSON aborts the
     * migration before anything is written; the error is swallowed.
     */
    method MigrateFromLocalStorage()
      requires Valid()
      modifies this, browser
      ensures Valid()
      ensures !Present(old(browser.local), AccessTokenKey) && !Present(old(browser.local), UserDataKey) ==>
        browser.local == old(browser.local) && inMemory == old(inMemory)
      ensures Present(old(browser.local), AccessTokenKey) && ReadUser(old(browser.local)).Err? ==>
        browser.local == old(browser.local) && inMemory == old(inMemory)
      ensures Migrates(old(browser.local)) ==> browser.local == WithoutCredentials(old(browser.local))
      ensures Present(old(browser.local), AccessTokenKey) && ReadUser(old(browser.local)).Ok? ==>
        inMemory == Some(old(browser.local)[AccessTokenKey].text)
      ensures !Present(old(browser.local), AccessTokenKey) ==> inMemory == old(inMemory)
      ensures browser.jar == old(browser.jar) && browser.location == old(browser.location)
    {
      var oldAccess := TokenText(browser.local, AccessTokenKey);
      var oldRefresh := TokenText(browser.local, RefreshTokenKey);
      var oldUser := ReadUser(browser.local);
      if !Truthy(oldAccess) && !Present(browser.local, UserDataKey) {
        return;
      }
      if Truthy(oldAccess) {
        if oldUser.Err? {
          return;
        }
        SetTokens(oldAccess, oldRefresh, oldUser.value);
      }
      browser.RemoveItem(AccessTokenKey);
      browser.RemoveItem(RefreshTokenKey);
      browser.RemoveItem(UserDataKey);
    }
  }
}
