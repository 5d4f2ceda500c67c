/**
 * The browser state the client reads and writes: `localStorage`, the cookie
 * jar behind `document.cookie`, and the page location that
 * `window.location.href` assignments change.
 *
 * localStorage holds strings. A value the client wrote with
 * `JSON.stringify` is kept here as the document it encodes; `Text` is any
 * other string (the tokens, or text that does not decode as the document a
 * reader expects).
 */
module Storage {
  import opened Wrappers
  import opened Cookies
  import JsStrings

  /** Keys shared by `src/lib/api.js` and `src/services/TokenService.js`. */
  const AccessTokenKey := "smartpath_access_token"
  const RefreshTokenKey := "smartpath_refresh_token"
  const UserDataKey := "smartpath_user_data"

  /** The form cache of the admin pages, and the prefix of one saved form's entry. */
  const FormsKey := "smartpath_forms"
  const FormKeyPrefix := "smartpath_form_"

  /** The folder-name cache of the form list page. */
  const FoldersKey := "smartpath_folders"

  /** The announcement list shared by the admin and user announcement pages. */
  const AnnouncementsKey := "smartpath_announcements"

  /** The placeholder refresh token stored when the backend returns none. */
  const TempMissing := "temp_missing"

  /** The fields of the stored user record that the client reads. */
  datatype UserData = UserData(name: Option<string>, email: Option<string>, role: Option<string>, phone: Option<string>)

  /** A form summary in the `smartpath_forms` cache. */
  datatype CachedForm = CachedForm(id: string, slug: Option<string>, title: string, folder: string, submissions: int, createdAt: string)

  /** A form record as the backend returned it (0 and `""` stand for absent attributes). */
  datatype SavedForm = SavedForm(id: string, title: string, submissionsCount: int, responsesCount: int, createdAt: string)

  /** One participant row of an announcement. */
  datatype Entry = Entry(id: Option<string>, name: Option<string>, status: string, note: string)

  /** An announcement; `kind` is the source's `type` field. */
  datatype Announcement = Announcement(
    id: int, title: string, kind: string, date: string,
    passedData: seq<Entry>, failedData: seq<Entry>)

  /** A submission kept locally after a form is sent. */
  datatype LocalResponse = LocalResponse(
    id: int, submittedAt: string, data: seq<(string, string)>, tier: Option<string>, amount: int)

  datatype Item =
    | Text(text: string)
    | UserDoc(user: UserData)
    | FormsDoc(forms: seq<CachedForm>)
    | FormDoc(form: SavedForm)
    | FoldersDoc(folders: seq<string>)
    | AnnouncementsDoc(announcements: seq<Announcement>)
    | ResponsesDoc(responses: seq<LocalResponse>)

  type Store = map<string, Item>

  /** `if (localStorage.getItem(key))`: present and not the empty string. */
  predicate Present(local: Store, key: string)
  {
    key in local && local[key] != Text("")
  }

  /** A key under the form prefix is never a credential key, nor the form cache key. */
  lemma PrefixedKeyNotCredential(suffix: string)
    ensures FormKeyPrefix + suffix != AccessTokenKey && FormKeyPrefix + suffix != RefreshTokenKey
    ensures FormKeyPrefix + suffix != UserDataKey && FormKeyPrefix + suffix != FormsKey
  {
    assert (FormKeyPrefix + suffix)[10] == 'f' && (FormKeyPrefix + suffix)[14] == '_';
    assert FormsKey[14] == 's';
    assert AccessTokenKey[10] == 'a' && RefreshTokenKey[10] == 'r' && UserDataKey[10] == 'u';
  }

  /** The token entries only ever hold plain strings. */
  predicate TokensAreText(local: Store)
  {
    (AccessTokenKey in local ==> local[AccessTokenKey].Text?)
    && (RefreshTokenKey in local ==> local[RefreshTokenKey].Text?)
  }

  /** `localStorage.getItem` on a token key. */
  function TokenText(local: Store, key: string): (r: Option<string>)
    requires TokensAreText(local) && (key == AccessTokenKey || key == RefreshTokenKey)
    ensures r.Some? <==> key in local
    ensures Truthy(r) <==> Present(local, key)
  {
    if key in local then Some(local[key].text) else None
  }

  /** A JSON parse failure, as `JSON.parse` reports it. */
  datatype ParseError = ParseError

  /**
   * `getUserData()`: `null` for a missing or empty entry, the decoded record
   * otherwise. A list document decodes to a value without any of the user
   * fields; other text does not parse.
   */
  function ReadUser(local: Store): (r: Result<Option<UserData>, ParseError>)
    ensures !Present(local, UserDataKey) ==> r == Ok(None)
    ensures UserDataKey in local && local[UserDataKey].UserDoc? ==> r == Ok(Some(local[UserDataKey].user))
    ensures r.Err? <==> Present(local, UserDataKey) && local[UserDataKey].Text?
  {
    if !Present(local, UserDataKey) then Ok(None)
    else match local[UserDataKey]
      case Text(_) => Err(ParseError)
      case UserDoc(u) => Ok(Some(u))
      case _ => Ok(Some(UserData(None, None, None, None)))
  }

  /** The three credential entries removed. */
  function WithoutCredentials(local: Store): (r: Store)
    ensures AccessTokenKey !in r && RefreshTokenKey !in r && UserDataKey !in r
    ensures forall k :: k in local && k !in {AccessTokenKey, RefreshTokenKey, UserDataKey} ==> k in r && r[k] == local[k]
    ensures forall k :: k in r ==> k in local
  {
    local - {AccessTokenKey, RefreshTokenKey, UserDataKey}
  }

  /** Removing the three credential entries one by one. */
  lemma WithoutCredentialsStepwise(local: Store)
    ensures local - {AccessTokenKey} - {RefreshTokenKey} - {UserDataKey} == WithoutCredentials(local)
  {
  }

  /** Writing a credential entry leaves everything else in place. */
  lemma WithoutCredentialsUpdate(local: Store, key: string, value: Item)
    requires key in {AccessTokenKey, RefreshTokenKey, UserDataKey}
    ensures WithoutCredentials(local[key := value]) == WithoutCredentials(local)
  {
  }

  /**
   * Clearing the credentials twice leaves the same localStorage and cookie
   * jar as clearing them once.
   */
  lemma ClearTwice(local: Store, jar: Jar)
    ensures WithoutCredentials(WithoutCredentials(local)) == WithoutCredentials(local)
    ensures Remove(Remove(jar, RefreshTokenKey), RefreshTokenKey) == Remove(jar, RefreshTokenKey)
  {
    RemoveIdempotent(jar, RefreshTokenKey);
  }

  /** The browser: localStorage, the cookie jar and the last assigned location. */
  class Browser {
    var local: Store
    var jar: Jar
    var location: Option<string>

    ghost predicate Valid()
      reads this
    {
      ValidJar(jar) && TokensAreText(local)
    }

    constructor (local: Store, jar: Jar)
      requires ValidJar(jar) && TokensAreText(local)
      ensures Valid() && this.local == local && this.jar == jar && location == None
    {
      this.local := local;
      this.jar := jar;
      location := None;
    }

    /** `localStorage.setItem`. */
    method SetItem(key: string, value: Item)
      requires Valid()
      requires (key == AccessTokenKey || key == RefreshTokenKey) ==> value.Text?
      modifies this
      ensures Valid()
      ensures local == old(local)[key := value] && jar == old(jar) && location == old(location)
    {
      local := local[key := value];
    }

    /** `localStorage.removeItem`. */
    method RemoveItem(key: string)
      requires Valid()
      modifies this
      ensures Valid()
      ensures local == old(local) - {key} && jar == old(jar) && location == old(location)
    {
      local := local - {key};
    }

    /** `document.cookie = name=value;…`: the value is kept up to its first `;`. */
    method SetCookie(name: string, value: string)
      requires Valid() && ValidName(name)
      modifies this
      ensures Valid()
      ensures Lookup(jar, name) == Some(JsStrings.Split(value, ";")[0])
      ensures forall other :: other != name ==> Lookup(jar, other) == Lookup(old(jar), other)
      ensures local == old(local) && location == old(location)
    {
      SplitFirstNoSep(value, ';');
      jar := Put(jar, name, JsStrings.Split(value, ";")[0]);
    }

    /** `document.cookie = name=;expires=<the past>`: the cookie is dropped. */
    method DeleteCookie(name: string)
      requires Valid()
      modifies this
      ensures Valid()
      ensures jar == Remove(old(jar), name)
      ensures local == old(local) && location == old(location)
    {
      jar := Remove(jar, name);
    }

    /** `window.location.href = url`. */
    method Navigate(url: string)
      requires Valid()
      modifies this
      ensures Valid()
      ensures location == Some(url) && local == old(local) && jar == old(jar)
    {
      location := Some(url);
    }
  }
}
