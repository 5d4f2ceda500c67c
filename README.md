# jalanpintar-frontend, modelled in Dafny

This project models the logic at the core of the jalanpintar (SmartPath) admin and
participant web client, a React single-page application written in JavaScript. It
covers:

- the two token stores and request layers: `src/lib/api.js` and the
  `TokenService`, `HttpClient` and `AuthService` services;
- the route table and endpoint builders;
- the Zod schemas for categories, login and registration;
- the pages and hooks whose rules are data transformations:
  - the form builder's editing and save transform;
  - the public form view's navigation, checkbox values, auto-fill and
    submission payload;
  - folder and form lists, response filtering and statistics;
  - announcements and withdrawals;
  - affiliate links;
  - redirect decisions and the dummy-data clean-up.

How the browser and the network are modelled:

- The browser is a `Storage.Browser` object. It holds localStorage (a map from
  key to stored item), the cookie jar (an ordered list of name/value pairs,
  rendered as `document.cookie`) and the last location assigned to
  `window.location.href`.
- JSON text in storage is modelled by the value it decodes to. Text that does
  not decode as the document a reader expects is kept apart as `Text`.
- The network is an `Http.Network` object. It holds the outcomes the next
  `fetch` calls deliver, in call order, and a log of the requests sent.
- Every method that sends requests states in its contract, through that log,
  how many it sends and what the first one is. `AuthService.Logout` states its
  request's URL, verb and bearer header only.

Each source module becomes a Dafny module of the same name:

- Code that mutates in place becomes a class with `modifies` clauses, with
  loops carrying invariants. This covers storage, the token cache, the retry
  loop, the dummy-data sweep, the grouped-forms reduction and the checkbox
  toggle.
- Code that maps, filters and spreads values becomes functions with lemmas.

Shared helpers:

- `JsStrings`: JavaScript `trim`, ASCII `toLowerCase`, `split`, `join`,
  `includes`, `parseInt` and regular-expression replacement, written out.
- `Slug`: the slug rule that several pages repeat.
- `Lists`: order-preserving filtering.
- `Zod`: the parts of Zod's string checks and issue reporting that the
  schemas use.

## Model

| member | source | states |
|---|---|---|
| Cookies.Lookup | src/lib/api.js:25-30 | a name is absent from the jar exactly when no cookie carries it |
| Cookies.GetCookie | src/lib/api.js:25-30 | a value is returned exactly when splitting `"; " + document.cookie` at `"; name="` gives two parts, and the value holds no `;` |
| Cookies.Put | src/lib/api.js:32-36 | after writing a cookie its name reads back the value, every other name reads as before, and a well-formed jar stays well formed |
| Cookies.Remove | src/lib/api.js:38-40 | after expiring a cookie its name reads as absent and every other name reads as before |
| Cookies.RemoveIdempotent | src/lib/api.js:38-40 | expiring the same cookie twice leaves the same jar as expiring it once |
| Cookies.SplitFirstNoSep | src/lib/api.js:28 | the text before the first `;` of a segment never holds `;` |
| Cookies.SplitWithoutName | src/lib/api.js:26-29 | for a name the jar lacks, the split of `document.cookie` at `"; name="` yields the single whole string, so `getCookie` answers null |
| Cookies.SplitWithName | src/lib/api.js:26-29 | for a name the jar holds once, the split yields exactly two parts and the second part up to `;` is the stored value |
| Cookies.GetCookieReadsJar | src/lib/api.js:25-30 | reading a well-formed name back out of the rendered `document.cookie` gives exactly the jar's value for it, or null when it is absent |
| Storage.TokenText | src/lib/api.js:45-47 | a token entry reads back as present exactly when its key is stored, and as truthy exactly when it is stored and non-empty |
| Storage.ReadUser | src/lib/api.js:88-91 | a missing or empty user entry reads as null; a stored user record reads as itself; stored text that is not JSON makes `JSON.parse` throw |
| Storage.WithoutCredentials | src/lib/api.js:111-116 | the access, refresh and user entries are gone, every other key keeps its value, and no key is added |
| Storage.WithoutCredentialsStepwise | src/lib/api.js:113-115 | the three `removeItem` calls in sequence remove exactly the three credential entries |
| Storage.WithoutCredentialsUpdate | src/lib/api.js:67-83 | writing a credential entry leaves every non-credential entry as it was |
| Storage.ClearTwice | src/lib/api.js:111-119 | clearing the credentials a second time changes neither localStorage nor the cookie jar |
| Storage.PrefixedKeyNotCredential | src/pages/FormBuilderEditor.jsx:676 | a key `smartpath_form_<id>` is never a credential key nor the form cache key, so writing a saved form's entry touches neither |
| Storage.Browser.constructor | src/lib/api.js:45-47 | a browser starts from the given storage and jar, with no location assigned |
| Storage.Browser.SetItem | src/lib/api.js:69 | `localStorage.setItem` replaces exactly that key and touches neither cookies nor location |
| Storage.Browser.RemoveItem | src/lib/api.js:113 | `localStorage.removeItem` removes exactly that key |
| Storage.Browser.SetCookie | src/lib/api.js:32-36 | assigning a cookie stores its value up to the first `;` under its name, and every other cookie reads as before |
| Storage.Browser.DeleteCookie | src/lib/api.js:38-40 | assigning an expired cookie drops it from the jar |
| Storage.Browser.Navigate | src/lib/api.js:140 | assigning `window.location.href` records the location and changes no storage |
| Http.Stringify | src/lib/api.js:395 | `JSON.stringify` of a value is its JSON text, and a `FormData` serialises to `{}` |
| Http.IssuedAccess | src/lib/api.js:217 | the issued access token is `access_token` when truthy, else `token`, and it is truthy exactly when one of the two is |
| Http.ResolveUrl | src/lib/api.js:313 | an endpoint starting with `http` is used verbatim; any other is appended to the base, which it then follows unchanged; `buildURL` at src/services/HttpClient.js:61-63 follows the same rule with the client's base |
| Http.PrepareHeaders | src/lib/api.js:319-335 | headers: `Accept` is always present, overridable by the caller; `Content-Type: application/json` unless the body is `FormData`, overriding the caller's; `Authorization: Bearer` exactly when a truthy token is given; the caller's other headers pass through; nothing else is added |
| Http.Network.constructor | src/lib/api.js:338 | a network starts with the scripted outcomes and no request sent |
| Http.Network.Fetch | src/lib/api.js:338-341 | one `fetch` logs exactly the request and delivers the next scripted outcome, or a rejection once none is left |
| Api.GetAccessToken | src/lib/api.js:45-47 | the access token is present exactly when its localStorage entry exists, and it is that entry's text |
| Api.GetRefreshToken | src/lib/api.js:52-59 | the refresh token is the cookie's value when truthy, else the localStorage fallback |
| Api.GetUserRole | src/lib/api.js:96-99 | the role is the stored user's role when truthy, else null; it fails exactly when the user entry is not JSON |
| Api.IsAdmin | src/lib/api.js:104-106 | the user counts as admin exactly when the role is `admin` |
| Api.IsAuthenticated | src/lib/api.js:123-125 | authenticated exactly when both the access token and the refresh token read as truthy; `temp_missing` counts |
| Api.AuthenticatedFromStorage | src/lib/api.js:123-125 | in storage terms: a non-empty access token entry, and a non-empty refresh cookie or refresh token entry; with `temp_missing` stored as the refresh token, authenticated exactly when an access token is stored |
| Api.SetTokens | src/lib/api.js:67-83 | a truthy access token is stored and read back; a truthy refresh token goes to localStorage and to the cookie; a given user is stored; any argument not given leaves its previous value; other keys and cookies are unchanged |
| Api.WriteRefreshToken | src/lib/api.js:72-78 | the refresh token is written to localStorage and, up to its first `;`, to the cookie; other cookies are unchanged |
| Api.ClearTokens | src/lib/api.js:111-119 | the three credential entries and the refresh cookie are removed; afterwards there is no access token, no refresh token, no user, and the session is not authenticated |
| Api.RefreshReply | src/lib/api.js:154-166 | the refresh answer succeeds exactly for an OK JSON body carrying an access token (`access_token` before `token`); a non-OK status, an unparseable body and a missing token each give their error |
| Api.RefreshAccessToken | src/lib/api.js:132-175 | an absent or `temp_missing` refresh token clears the session, goes to `/login` and fails with no request sent; otherwise exactly one refresh request is sent; success stores and returns the new access token; every failure clears the session and goes to `/login` |
| Api.LoginFailure | src/lib/api.js:199-206 | the login error is the body's `message`, else its `error`, else the body as JSON text; for an unparseable body it is `HTTP <status>: <statusText>` |
| Api.LoginResult | src/lib/api.js:199-211 | login yields the body exactly for an OK response with a JSON body, and otherwise throws |
| Api.RegisterResult | src/lib/api.js:258-263 | registration throws the body's `message` or `Registration failed` for a non-OK response; it yields the body exactly for an OK JSON response |
| Api.StoreSession | src/lib/api.js:217-238 | tokens are stored only when an access token came back; a missing refresh token is stored as `temp_missing`, which counts as authenticated; with no access token nothing changes |
| Api.Login | src/lib/api.js:183-241 | login sends exactly one POST and yields `LoginResult` of its answer; a failure, or an answer without an access token, changes neither storage nor cookies; an answer with an access token leaves the session authenticated with that token; entries other than the credentials, cookies other than the refresh cookie, and the location are always kept |
| Api.Register | src/lib/api.js:248-280 | registration sends exactly one POST and yields `RegisterResult` of its answer; a failure, or an answer without an access token, changes neither storage nor cookies; an answer with an access token leaves the session authenticated with that token; entries other than the credentials, cookies other than the refresh cookie, and the location are always kept |
| Api.Logout | src/lib/api.js:285-303 | the backend is told only when an access token is stored; the credentials and the refresh cookie are always removed afterwards, whatever the request's outcome, and the location is kept |
| Api.WithBearer | src/lib/api.js:349 | the retried request is the same request with only `Authorization` replaced by the new bearer token |
| Api.RetryResult | src/lib/api.js:344-361 | after a 401 the retry's response is returned, whatever its status, exactly when a usable refresh token was answered with an access token and the retry was answered; every other outcome is `Session expired. Please login again.` |
| Api.FetchResult | src/lib/api.js:338-364 | what `apiFetch` yields: the first answer or the first fetch's error, unless that answer is a 401 to an authenticated request with a stored refresh token, in which case the retry result |
| Api.RefreshAtMostOnce | src/lib/api.js:338-364 | a non-401 first answer is returned as it is; no outcome left gives `Failed to fetch`; without authentication or a refresh token there is never a refresh; after a successful refresh the third scripted answer is returned, even a second 401; a failed refresh gives `Session expired` |
| Api.ApiFetch | src/lib/api.js:312-364 | the result is exactly `FetchResult` of the scripted outcomes; the first request carries the resolved URL and headers; without a refresh exactly one request is sent and storage, cookies and location are unchanged; a failure after a refresh clears the session and goes to `/login` exactly when the refresh failed; a success after a refresh sent three requests, the third being the first with the new bearer token; any success keeps the entries other than the credentials, the cookies other than the refresh cookie, and the location |
| Api.RefreshAndRetry | src/lib/api.js:344-361 | the result is exactly `RetryResult` of the refresh token and the scripted outcomes; any failure clears the session, and goes to `/login` exactly when the refresh failed; on success exactly two more requests went out, the second being the first request with the new bearer token, and the entries other than the credentials, the cookies other than the refresh cookie and the location are kept |
| Api.RetryWithToken | src/lib/api.js:349-359 | exactly one request, the first with the new bearer token, is sent and consumes one outcome; an answer of any status is returned unchanged with storage untouched; a rejection clears the credentials and the refresh cookie and throws `Session expired`; the location never changes |
| Api.VerbBody | src/lib/api.js:374-495 | GET, DELETE and publicGet send the caller's body; post, put and patch send the data as JSON; only publicPost passes a `FormData` through |
| Api.FailureMessage | src/lib/api.js:380-383 | a failed helper throws the body's `message`, else `"<METHOD> <endpoint> failed"`, or `Request failed` when the body is not JSON |
| Api.HelperResult | src/lib/api.js:378-386 | a helper's result is its JSON body exactly for an OK response with a JSON body; a non-OK response throws `FailureMessage`, an OK non-JSON body the parse error, and a fetch error propagates |
| Api.HelperFirstAnswer | src/lib/api.js:370-496 | a helper answered at once by anything but a 401 to an authenticated verb returns the JSON body of an OK answer and throws the helper's message otherwise; a 401 to a public helper throws as well |
| Api.Call | src/lib/api.js:370-496 | the result is exactly `HelperResult` of `FetchResult` over the scripted outcomes, with authentication only for the authenticated verbs; the first request carries the verb's method and body, and the token only for the authenticated verbs; without a refresh storage, cookies and location are unchanged; after a refresh a failed fetch clears the session (and goes to `/login` exactly when the refresh failed), while a fetched answer keeps the other entries, cookies and location |
| TokenService.CachedAccess | src/services/TokenService.js:25-40 | a truthy cached token wins; otherwise the stored token counts when truthy and not `temp_missing`; otherwise null; the result is never empty |
| TokenService.UserRole | src/services/TokenService.js:106-110 | the role is the stored user's role when truthy, else `user`, never empty; it fails exactly when the user entry is not JSON |
| TokenService.IsAdmin | src/services/TokenService.js:115-117 | the user counts as admin exactly when the role is `admin` |
| TokenService.TokenStore.constructor | src/services/TokenService.js:19 | the in-memory access token starts null |
| TokenService.TokenStore.GetAccessToken | src/services/TokenService.js:25-40 | returns the cached token; a token read from localStorage is copied into the cache |
| TokenService.TokenStore.RefreshToken | src/services/TokenService.js:48-60 | the cookie's value when truthy, else a truthy stored token other than `temp_missing`, else `http_only_cookie`; never empty |
| TokenService.TokenStore.SetTokens | src/services/TokenService.js:68-93 | without a truthy access token nothing changes; otherwise it is cached, stored and read back; the refresh token is stored only when truthy and not `temp_missing` or `http_only_cookie`, else the old one stays; a given user is stored; other keys and cookies are unchanged |
| TokenService.TokenStore.IsAuthenticated | src/services/TokenService.js:122-127 | authenticated exactly when `getAccessToken` yields a token other than `temp_missing` |
| TokenService.TokenStore.ClearTokens | src/services/TokenService.js:132-145 | the cache, the three entries and the refresh cookie are cleared; afterwards there is no access token, no user, the role reads as `user` and the refresh token as `http_only_cookie` |
| TokenService.TokenStore.MigrateFromLocalStorage | src/services/TokenService.js:151-175 | with neither an access token nor a user stored nothing changes; otherwise the token moves into the cache and all three entries are removed; a user entry that is not JSON aborts before any write |
| HttpClient.Backoff | src/services/HttpClient.js:18 | every wait is at least `INITIAL_RETRY_DELAY` (1000 ms) |
| HttpClient.BackoffDoubles | src/services/HttpClient.js:40 | each wait is twice the one before: `INITIAL_RETRY_DELAY * 2^attempt` |
| HttpClient.Backoffs | src/services/HttpClient.js:39-43 | the schedule of waits holds, at position k, the wait after failed attempt k |
| HttpClient.RetryRunEnds | src/services/HttpClient.js:28-49 | the retry loop ends after at most `retries + 1` attempts; every attempt before the last failed with a network error; a response of any status ends it; a non-network error, or any error on the last attempt, is rethrown; it ends with nothing only when `retries` is negative |
| HttpClient.FetchWithRetry | src/services/HttpClient.js:28-49 | the loop ends as the retry run over the network's outcomes says; it sends one request per attempt and waits `Backoff(k)` after failed attempt k |
| HttpClient.FetchWithRetryEnds | src/services/HttpClient.js:28-49 | what a caller gets: at most `retries` waits, each the doubled backoff; every attempt before the last a network error; the last attempt's response or error is what comes back |
| HttpClient.VerbBody | src/services/HttpClient.js:135-223 | GET, DELETE and publicGet send the caller's body; POST, PUT, PATCH and publicPost send a `FormData` as is and any other data as JSON |
| HttpClient.HandleResponse | src/services/HttpClient.js:121-130 | an OK response yields its JSON; a non-OK one throws the body's `message`, else `Request failed with status N`, or `HTTP N: statusText` when the body is not JSON |
| HttpClient.Client.constructor | src/services/HttpClient.js:55-57 | the client keeps its base URL |
| HttpClient.Client.PrepareHeaders | src/services/HttpClient.js:69-91 | the shared header rules, with the bearer token from `TokenService.getAccessToken` only when `requireAuth` holds |
| HttpClient.Client.Request | src/services/HttpClient.js:96-116 | the attempt is exactly the retry run over the scripted outcomes; between 1 and `MAX_RETRIES + 1` requests are sent, all identical, carrying the built URL and headers and `credentials: 'include'`, and exactly that many outcomes are consumed; the token cache is filled as `getAccessToken` fills it when `requireAuth` holds and is untouched otherwise; a returned response is one the network delivered |
| HttpClient.CallOutcomeCases | src/services/HttpClient.js:26-50 | a verb method's result is `handleResponse` of the first answer, whatever its status; a non-network error is thrown at once; a network error followed by an answer gives `handleResponse` of that answer; four network errors give the fourth |
| HttpClient.Client.Call | src/services/HttpClient.js:135-223 | the result is exactly `CallOutcome` of the scripted outcomes; the first request carries the verb's method, body and headers, the token only for the authenticated verbs; the token cache is filled as `getAccessToken` fills it for an authenticated verb and is untouched otherwise; an OK result is `handleResponse` of a delivered response |
| AuthService.PublicPostRequest | src/services/HttpClient.js:213-222 | a public POST goes to the resolved URL with verb `POST`, cookies included, the default `Accept: application/json`, no `Authorization` header, and the data serialised as its body |
| AuthService.LoginReply | src/services/AuthService.js:23-48 | login succeeds exactly when the answer carries an access token (`access_token` before `token`), and then yields the answer; an answer without one fails with `No access token received from server`; an error propagates |
| AuthService.Login | src/services/AuthService.js:23-50 | login's first request is a public POST to `<baseURL>/login` carrying the email and password as JSON, with cookies and without a bearer token (`PublicPostRequest`), and its result is exactly `LoginReply` of the call's outcome; a success caches and stores the access token, the returned user when given and a storable refresh token; any failure leaves the tokens and storage unchanged; cookies, location and entries other than the credentials are always kept |
| AuthService.Register | src/services/AuthService.js:57-79 | registration's first request is a public POST of the user data to `<baseURL>/register`, with cookies and without a bearer token (`PublicPostRequest`); the result is exactly the call's outcome; an answer with an access token caches and stores it with the returned user and a storable refresh token; an answer without one, or a failure, leaves the tokens and storage unchanged; cookies, location and entries other than the credentials are always kept |
| AuthService.Logout | src/services/AuthService.js:84-100 | the server is called, with the bearer token, only when an access token exists; the tokens are always cleared afterwards, whether or not that call fails, and the location is kept |
| AuthService.RefreshReply | src/services/AuthService.js:106-128 | the refresh succeeds exactly when the answer carries an access token, which it yields; an answer without one fails with its own error; an error propagates |
| AuthService.RefreshToken | src/services/AuthService.js:106-128 | the refresh first sends a public POST of `{}` to `<baseURL>/refresh` (`PublicPostRequest`); the result is exactly `RefreshReply` of the call's outcome; a success caches and stores the new access token, keeps the user, stores the returned refresh token when storable or keeps the old one, and keeps the cookies and the entries other than the credentials; any failure clears the cache, the three entries and the refresh cookie; the location is always kept |
| Routes.RequiresAuth | src/config/routes.js:117-119 | an unknown route key counts as protected; a known one uses its table flag |
| Routes.CanAccess | src/config/routes.js:124-130 | an unknown key is never accessible; a route that needs no sign-in always is; a role-restricted route admits only a role in its list |
| Routes.GetPath | src/config/routes.js:135-137 | the table path of a known key, `/` for an unknown one |
| Routes.BuildRoute | src/config/routes.js:142-146 | an unknown key builds `/`; a route without a builder gives its path; a builder puts the parameter after its prefix |
| Routes.PublicRoutesOpen | src/config/routes.js:127 | every route that needs no sign-in is open to every role, including none |
| Routes.RoleGates | src/config/routes.js:34-91 | the admin routes admit exactly the role `admin`, the user dashboard and leaderboard exactly the role `user`, and the other routes every role |
| Routes.BuildEditRoute | src/config/routes.js:52-57 | the editor route builds `/admin/forms/edit/<id>`, and a route without a builder ignores the parameter |
| Endpoints.BuildEndpoint | src/config/endpoints.js:52-54 | a fixed endpoint comes back unchanged; a builder places the parameter, verbatim, between its prefix and suffix |
| Endpoints.WithQuery | src/config/endpoints.js:56-59 | an empty query leaves the endpoint unchanged; otherwise the result is the endpoint, `?`, then the query |
| Endpoints.EndpointRelations | src/config/endpoints.js:13-28 | form update and delete share `/forms/<id>`, submissions sit below it, category update and delete share `/categories/<id>`, and the user search appends `?search=<slug>` unencoded to the user forms path |
| Zod.Raised | src/schemas/categorySchema.js:12-18 | a check raises at most one message, and raises one exactly when it fails |
| Zod.PlainMessages | src/schemas/categorySchema.js:26-32 | a chain of checks without transforms raises nothing exactly when every check holds, and leaves the value unchanged |
| Zod.StepsAppend | src/schemas/authSchema.js:12-17 | the messages and value of a chain split at any point: the second part runs on the value the first hands on |
| Zod.ChecksThen | src/schemas/authSchema.js:28-31 | checks followed only by transforms raise nothing exactly when the checks hold, and the value is the transforms' result |
| Zod.TransformsSilent | src/schemas/authSchema.js:16-17 | `trim` and `toLowerCase` never raise an issue |
| Zod.StringProperty | src/schemas/categorySchema.js:11-33 | a missing property is reported once as `Required`; a given one yields its transformed value and one issue per raised message, all under its key |
| Zod.MinMaxTrim | src/schemas/authSchema.js:28-31 | a length range followed by `trim` is clean exactly for lengths in range, measured before trimming, and returns the trimmed value |
| Zod.MinMaxPatternTrim | src/schemas/categorySchema.js:12-19 | a length range and a pattern followed by `trim` are clean exactly when both hold on the untrimmed value; the value comes back trimmed |
| Zod.MinPatternMaxTrimLower | src/schemas/authSchema.js:12-17 | minimum, format and maximum followed by `trim` and `toLowerCase` are clean exactly when all three hold on the raw value; the value comes back trimmed and lower-cased |
| Zod.PropertyClean | src/schemas/categorySchema.js:11-33 | a given property raises no issue exactly when its steps raise no message |
| Zod.FieldErrors | src/schemas/categorySchema.js:48-51 | one error per issue, in order, with the path joined by `.` and the issue's message |
| Zod.KeyedElsewhere | src/schemas/categorySchema.js:48-51 | issues of one property are never reported under another property's field name |
| Zod.ReportedIff | src/schemas/categorySchema.js:45-52 | among issues grouped by property, a field is reported exactly when its own group is not empty |
| Zod.FourGroups | src/schemas/categorySchema.js:11-33 | with four properties under distinct keys, each field is reported exactly when its own property raised an issue |
| CategorySchema.DescriptionProperty | src/schemas/categorySchema.js:21-24 | the description may be absent or empty; a given one is accepted exactly when it has at most 200 characters, and it is returned unchanged |
| CategorySchema.NameProperty | src/schemas/categorySchema.js:12-19 | the name is accepted exactly when, as given, it has 1 to 50 characters, all ASCII letters, digits, whitespace or `-`; it is returned trimmed |
| CategorySchema.IconProperty | src/schemas/categorySchema.js:26-27 | the icon is accepted exactly when it is present and non-empty |
| CategorySchema.ColorProperty | src/schemas/categorySchema.js:29-32 | the colour is accepted exactly when it is `#` followed by six hex digits of either case |
| CategorySchema.IssuesEmpty | src/schemas/categorySchema.js:11-33 | the schema raises no issue exactly when all four field constraints hold |
| CategorySchema.ValidateCategory | src/schemas/categorySchema.js:40-59 | success exactly when every constraint holds, with the name trimmed and the other fields as given; otherwise a non-empty list of field errors |
| CategorySchema.FieldsReported | src/schemas/categorySchema.js:45-52 | on failure, each of name, description, icon and colour is named by an error exactly when its own constraint fails |
| AuthSchema.FirstLine | src/schemas/authSchema.js:44 | the first line is the longest prefix without a line terminator, as far as `.*` reaches |
| AuthSchema.SingleLine | src/schemas/authSchema.js:44 | a string without line terminators is its own first line |
| AuthSchema.PasswordRuleOneLine | src/schemas/authSchema.js:43-46 | for a one-line password the rule means: some lower-case letter, and some upper-case letter or digit |
| AuthSchema.EmailProperty | src/schemas/authSchema.js:12-17 | the e-mail is accepted exactly when it has 1 to 255 characters and is well formed; it is returned trimmed and lower-cased |
| AuthSchema.EmailNormalised | src/schemas/authSchema.js:15-17 | a returned e-mail has at most 255 characters, no upper-case letter, and is trimmed |
| AuthSchema.LowerTrimmed | src/schemas/authSchema.js:16-17 | lower-casing keeps a trimmed string trimmed |
| AuthSchema.LoginPasswordProperty | src/schemas/authSchema.js:19-21 | the login password is accepted exactly when it has at least 6 characters, and it is returned unchanged |
| AuthSchema.ValidateLogin | src/schemas/authSchema.js:58-77 | success exactly when the e-mail and password constraints hold, with the e-mail trimmed and lower-cased; otherwise a non-empty list of field errors |
| AuthSchema.LoginPasswordLength | src/schemas/authSchema.js:19-21 | with a valid e-mail, login validation succeeds exactly when the password has at least six characters |
| AuthSchema.NameProperty | src/schemas/authSchema.js:28-31 | the register name is accepted exactly when it has 1 to 100 characters, and it is returned trimmed |
| AuthSchema.PasswordProperty | src/schemas/authSchema.js:40-46 | the register password is accepted exactly when it has 6 to 255 characters and meets the lower-case plus upper-case-or-digit rule |
| AuthSchema.ConfirmationProperty | src/schemas/authSchema.js:48-49 | the confirmation is accepted exactly when it is present and non-empty |
| AuthSchema.RegisterIssuesEmpty | src/schemas/authSchema.js:27-53 | registration raises no issue exactly when all four properties hold and the passwords are equal |
| AuthSchema.ValidateRegister | src/schemas/authSchema.js:82-101 | success exactly when every property holds and the passwords match, with the name trimmed and the e-mail trimmed and lower-cased; otherwise a non-empty list of field errors |
| AuthSchema.MismatchReported | src/schemas/authSchema.js:50-53 | passwords that differ always fail, with the last error under `password_confirmation`, even when every other property is fine |
| Zod.Messages | src/schemas/categorySchema.js:12-19 | a string schema raises at most one issue per check |
| AuthSchema.EmailStepsClean | src/schemas/authSchema.js:12-17 | the e-mail checks raise nothing exactly when the e-mail is accepted, and the parsed e-mail is trimmed and lower-cased |
| AuthSchema.NameStepsClean | src/schemas/authSchema.js:28-31 | the name checks raise nothing exactly when the name is accepted, and the parsed name is trimmed |
| Forms.SaveType | src/pages/FormBuilderEditor.jsx:529-543 | saving sends every field type as it is, except the page's `tel`, which becomes the backend's `phone` |
| Forms.LoadType | src/pages/FormBuilderEditor.jsx:374 | loading keeps every type except `phone`, and no loaded field has the type `phone` |
| Forms.TypeRoundTrip | src/pages/FormBuilderEditor.jsx:374 | a type saved and loaded again comes back unchanged, except a page-side `phone`, which comes back as `tel` |
| Forms.TrimmedPart | src/pages/FormBuilderEditor.jsx:564 | trimming a comma-free part gives a comma-free part that trimming no longer changes |
| Forms.OptionLabels | src/pages/FormBuilderEditor.jsx:562-565 | splitting the options text at `,` and trimming gives at least one label, each trimmed and free of commas |
| Forms.Spaced | src/pages/FormBuilderEditor.jsx:377 | every label after the first carries one leading space, the first is kept |
| Forms.JoinSpaced | src/pages/FormBuilderEditor.jsx:377 | joining labels with `", "` is the same text as joining the spaced labels with `,` |
| Forms.SpacedNoComma | src/pages/FormBuilderEditor.jsx:377 | spacing comma-free labels keeps them comma-free |
| Forms.TrimSpaced | src/pages/FormBuilderEditor.jsx:564 | trimming a spaced label gives the trimmed label back |
| Forms.LabelsRoundTrip | src/pages/FormBuilderEditor.jsx:377 | trimmed, comma-free option labels loaded as `", "`-joined text and split again on save are exactly the labels the backend held |
| Forms.OptionsRoundTrip | src/pages/FormBuilderEditor.jsx:561-572 | the option labels an editor text yields are the same after a save and a load |
| Forms.LoadSection | src/pages/FormBuilderEditor.jsx:360-364 | a loaded section keeps the backend id when it is truthy, else takes a minted id; it is named after the title and falls back to the `FileText` icon |
| Forms.LoadField | src/pages/FormBuilderEditor.jsx:371-379 | a loaded field keeps its label and required flag, maps `phone` to `tel`, joins its option labels with `", "` and is owned by the given section id |
| Forms.LoadSections | src/pages/FormBuilderEditor.jsx:360-364 | one loaded section per backend section, in order |
| Forms.SectionFields | src/pages/FormBuilderEditor.jsx:371-379 | one loaded field per backend field of the section, in order, all with the same owner |
| Forms.LoadFieldsAsWritten | src/pages/FormBuilderEditor.jsx:370-380 | as written, every loaded field's owner is the backend id of one of the sections, absent or not |
| Forms.LoadFields | src/pages/FormBuilderEditor.jsx:370-380 | corrected: every loaded field is owned by the id one of the loaded sections actually received |
| Forms.LoadTier | src/pages/UserFormView.jsx:346-351 | a loaded tier keeps id and name, reads its price with `parseInt(price)`, 0 when that gives no number, and describes itself by its name when the backend gave no description |
| Forms.LoadTiers | src/pages/UserFormView.jsx:337-352 | with the free option the list starts with the `Gratis` tier of price 0; after it come the backend tiers, each loaded, in order |
| Forms.LoadedTiers | src/pages/UserFormView.jsx:346-351 | one loaded tier per backend tier, in order |
| Forms.LeadingDigits | src/pages/UserFormView.jsx:349 | the longest prefix of decimal digits: all digits, and the character after it is not one |
| Forms.DigitsOfNat | src/pages/UserFormView.jsx:349 | the decimal rendering of a natural number is a non-empty digit string whose value is that number |
| Forms.LeadingDigitsOf | src/pages/UserFormView.jsx:349 | the digit prefix of digits followed by a non-digit is exactly those digits |
| Forms.UnsignedValue | src/pages/UserFormView.jsx:349 | digits followed by a non-digit read as their value, and with a leading `-` as its negation |
| Forms.NoLeadingSpace | src/pages/UserFormView.jsx:349 | text that does not start with whitespace loses nothing to the whitespace skip |
| Forms.ParseIntOrZero | src/pages/UserFormView.jsx:349 | `parseInt(text) \|\| 0` is 0 for text holding no digit, and never negative for text holding no minus sign |
| Forms.ParseIntOfDigits | src/pages/UserFormView.jsx:349 | `parseInt` of digits followed by a non-digit, signed or not, is their value |
| Forms.NegativeRendering | src/pages/UserFormView.jsx:349 | a negative number renders as `-` followed by the rendering of its magnitude |
| Forms.ParseIntOfRendering | src/pages/UserFormView.jsx:349 | a backend price rendered in decimal, followed by a fraction such as `.00`, reads back as the same integer |
| Forms.ParseIntOfNatural | src/pages/UserFormView.jsx:349 | the same for a non-negative price |
| Forms.ParseIntOfNegative | src/pages/UserFormView.jsx:349 | the same for a negative price |
| FormBuilder.AddSection | src/pages/FormBuilderEditor.jsx:439-448 | one section is appended, named `Section Baru <count+1>` with the `FileText` icon; the existing sections and everything else stay |
| FormBuilder.UpdateSectionName | src/pages/FormBuilderEditor.jsx:450-455 | sections with the id take the new name and keep id and icon; all other sections and attributes are unchanged |
| FormBuilder.UpdateSectionIcon | src/pages/FormBuilderEditor.jsx:457-462 | sections with the id take the new icon and keep id and name; all other sections and attributes are unchanged |
| FormBuilder.DeleteSection | src/pages/FormBuilderEditor.jsx:464-470 | the section and exactly the fields it owns leave the form; the rest keep their order |
| FormBuilder.AddField | src/pages/FormBuilderEditor.jsx:472-485 | a fresh optional text field `Field Baru` owned by the section is appended; nothing else changes |
| FormBuilder.PatchField | src/pages/FormBuilderEditor.jsx:490 | an editor update never changes a field's id or owner |
| FormBuilder.UpdateField | src/pages/FormBuilderEditor.jsx:487-492 | only fields with the id are patched, each keeping id and owner; the list keeps its length and order |
| FormBuilder.DeleteField | src/pages/FormBuilderEditor.jsx:494-496 | exactly the fields with the id leave; the rest keep their order |
| FormBuilder.AddPricingTier | src/pages/FormBuilderEditor.jsx:498-503 | a `Paket Baru` tier of price 0 is appended; nothing else changes |
| FormBuilder.PatchTier | src/pages/FormBuilderEditor.jsx:1067 | a tier update keeps the tier's id; a typed price is read as `parseInt(text)`, 0 when that gives no number |
| FormBuilder.UpdatePricingTier | src/pages/FormBuilderEditor.jsx:505-510 | only tiers with the id are patched, each keeping its id; the list keeps its length and order |
| FormBuilder.DeletePricingTier | src/pages/FormBuilderEditor.jsx:512-514 | exactly the tiers with the id leave; the rest keep their order |
| FormBuilder.AddThenDeleteField | src/pages/FormBuilderEditor.jsx:472-496 | deleting a field just added under a fresh id gives the form back |
| FormBuilder.IndexOfSection | src/pages/FormBuilderEditor.jsx:752-753 | the index found holds the id and no earlier section does |
| FormBuilder.ArrayMove | src/pages/FormBuilderEditor.jsx:754 | the moved list is a permutation of the list, with the moved element at the target and the others in their old order |
| FormBuilder.SameApartFrom | src/pages/FormBuilderEditor.jsx:754 | lists that agree at one place and once that place is taken out are equal |
| FormBuilder.MoveBack | src/pages/FormBuilderEditor.jsx:754 | moving an element back to where it came from restores the list |
| FormBuilder.HandleDragEnd | src/pages/FormBuilderEditor.jsx:748-757 | a drop onto itself changes nothing; otherwise the sections are permuted, the dragged one lands at the target's index and the others keep their order; nothing but the sections changes |
| FormBuilder.FormSlug | src/pages/FormBuilderEditor.jsx:521-526 | a form's own truthy slug is sent as it is; otherwise the slug of the title, made only of word characters and `-` |
| FormBuilder.FieldName | src/pages/FormBuilderEditor.jsx:555 | a field's name holds only word characters and no upper-case letter |
| FormBuilder.OptionValue | src/pages/FormBuilderEditor.jsx:563 | an option's value holds no upper-case letter |
| FormBuilder.SaveOptions | src/pages/FormBuilderEditor.jsx:561-572 | one option per option label, in order, labelled by the trimmed part and valued by its lower-cased, underscored form |
| FormBuilder.SaveField | src/pages/FormBuilderEditor.jsx:553-574 | a saved field keeps label and required flag, maps its type, is numbered as given, gets `Masukkan <label>` as default placeholder and `Wajib diisi` when required, sends options exactly for a select or checkbox with options text, and an e-mail rule exactly for an e-mail field |
| FormBuilder.OwnedFields | src/pages/FormBuilderEditor.jsx:551-552 | exactly the fields owned by the section |
| FormBuilder.NumberFields | src/pages/FormBuilderEditor.jsx:553-560 | one saved field per field, numbered from 1 in list order |
| FormBuilder.PayloadSections | src/pages/FormBuilderEditor.jsx:546-575 | one payload section per page section, in order and numbered from 1, holding exactly the fields it owns numbered from 1 |
| FormBuilder.PaidTiers | src/pages/FormBuilderEditor.jsx:580 | exactly the tiers with a positive price |
| FormBuilder.PayloadTiers | src/pages/FormBuilderEditor.jsx:577-590 | no tiers without payment; otherwise one per paid tier, in order, numbered from 1, in IDR, active, the first one the default, described by its features or else its name |
| FormBuilder.CategoryIdOf | src/pages/FormBuilderEditor.jsx:519 | the id sent is the truthy id of a category named like the folder; no such category gives null |
| FormBuilder.DescriptionSent | src/pages/FormBuilderEditor.jsx:600 | the description sent is never empty, and is the form's own when it has one |
| FormBuilder.ActiveSent | src/pages/FormBuilderEditor.jsx:604 | a form is sent as active exactly when it was not switched off |
| FormBuilder.LimitSent | src/pages/FormBuilderEditor.jsx:607 | a zero or missing limit is sent as `null`; a non-zero limit is sent as it is |
| FormBuilder.OrNone | src/pages/FormBuilderEditor.jsx:603-609 | an optional text field is sent exactly when it is non-empty, and then as it is |
| FormBuilder.ToPayload | src/pages/FormBuilderEditor.jsx:517-620 | the payload keeps the title, never sends an empty description, is active unless the form was switched off, never sends a zero submission limit, and sends a cover image exactly when there is one |
| FormBuilder.LoadForm | src/pages/FormBuilderEditor.jsx:345-408 | a loaded form keeps the backend id and title, always has a folder, has one section per editable backend section, the tiers of the shared tier loader, no zero limit, and is active unless the backend switched it off |
| FormBuilder.EditableSections | src/pages/FormBuilderEditor.jsx:355-359 | exactly the sections that are not the backend's referral sections |
| FormBuilder.LoadedFormWellFormed | src/pages/FormBuilderEditor.jsx:348-407 | the loaded form shows no referral section, and every loaded field belongs to one of the loaded sections |
| FormBuilder.FieldRoundTrip | src/pages/FormBuilderEditor.jsx:553-574 | a field saved and loaded back keeps its id, label, required flag, type (other than a page-side `phone`) and option labels |
| FormBuilder.AsWrittenDropsFields | src/pages/FormBuilderEditor.jsx:378 | as written, the fields of a backend section without id are owned by no loaded section, so the next save sends that section without them; the corrected load keeps them |
| FormBuilder.ListItem | src/pages/FormBuilderEditor.jsx:681-687 | the cached list item takes the saved id and the page's folder, the saved title or else the payload's, the submission count or else the response count, the creation time or else the current time |
| FormBuilder.CachedForms | src/pages/FormBuilderEditor.jsx:679 | no cache entry reads as the empty list, and a stored form list reads as itself |
| FormBuilder.IndexOfForm | src/pages/FormBuilderEditor.jsx:680 | the first index holding the id, or `-1` exactly when none holds it |
| FormBuilder.UpsertedSpec | src/pages/FormBuilderEditor.jsx:689-693 | after the upsert the item is cached, entries with other ids keep their places, the cache grows only for a new id, and one entry per id stays one entry per id |
| FormBuilder.UpsertCached | src/pages/FormBuilderEditor.jsx:689-693 | the in-place replace-or-push gives exactly the upserted cache |
| FormBuilder.SaveForm | src/pages/FormBuilderEditor.jsx:622-708 | no title or folder sends nothing; an update without id fails before sending; a create posts and an update puts to the form's own id, with `ToPayload` as body; a failed request leaves storage alone; a saved form is stored under its own key, upserted into the cache and the page goes to the form list; with an unreadable cache the form's own entry is written, the cache is untouched and the save fails with the thrown message |
| UserFormView.LoadPublicForm | src/pages/UserFormView.jsx:311-355 | the public form keeps the backend id and title, always has a folder, shows one section per backend section and the tiers of the shared tier loader; it loads fields with the corrected loader (each owned by the id its section received, as `PublicFieldsOwned` states), not by `section.id` as line 330 writes (see Findings) |
| UserFormView.PublicFieldsOwned | src/pages/UserFormView.jsx:311-355 | no field of the public form has the type `phone`, and each belongs to one of the loaded sections |
| UserFormView.FieldKind | src/pages/UserFormView.jsx:326 | every field the flat map yields went through the `phone` to `tel` mapping |
| UserFormView.IndexOf | src/pages/UserFormView.jsx:460 | the first section with the current id, or `-1` exactly when no section has it |
| UserFormView.SectionChange | src/pages/UserFormView.jsx:457-467 | the section `direction` steps from the current one when that index exists; otherwise the current section stays |
| UserFormView.ForwardBack | src/pages/UserFormView.jsx:457-467 | with distinct section ids, a step forward then back returns to the same section |
| UserFormView.InitialSection | src/pages/UserFormView.jsx:401-403 | with no section shown yet, the first section is shown; otherwise the choice stays |
| UserFormView.FirstFree | src/pages/UserFormView.jsx:405 | the first tier of price 0, and none exactly when no tier is free |
| UserFormView.DefaultTier | src/pages/UserFormView.jsx:404-407 | with payment, tiers and no choice, the first free tier is chosen, else the first tier; otherwise the choice stays |
| UserFormView.CheckboxOptions | src/pages/UserFormView.jsx:79 | the options shown are exactly the non-empty trimmed labels of the options text |
| UserFormView.CheckboxOptionsAreLabels | src/pages/UserFormView.jsx:79 | each option shown is non-empty, trimmed and comma-free |
| UserFormView.SelectedValues | src/pages/UserFormView.jsx:80 | the checked values read from the stored text hold no comma |
| UserFormView.Toggle | src/pages/UserFormView.jsx:87-95 | the new value is the toggled list joined with `,` |
| UserFormView.Without | src/pages/UserFormView.jsx:92 | unchecking keeps exactly the values other than the option, in order |
| UserFormView.ReadBack | src/pages/UserFormView.jsx:80-94 | comma-free values joined with `,` read back as the same list, unless the list is a lone empty value |
| UserFormView.JoinEmpty | src/pages/UserFormView.jsx:94 | a non-empty list joins to empty text only when it is a lone empty value |
| UserFormView.CheckAppends | src/pages/UserFormView.jsx:89-90 | checking an option reads back as the values already checked followed by the option |
| UserFormView.UncheckRemoves | src/pages/UserFormView.jsx:91-92 | after unchecking, the option is no longer checked, and the other values stay in order |
| UserFormView.FillFor | src/pages/UserFormView.jsx:418-443 | a field is filled exactly when it asks for the e-mail, the name, or a phone number the user has; a phone wins over a name, and a name over an e-mail |
| UserFormView.AutoFilledFields | src/pages/UserFormView.jsx:416-444 | every filled id belongs to a field that asks for that value; without a user phone only e-mail and name fields are filled |
| UserFormView.AutoFill | src/pages/UserFormView.jsx:418-444 | the loop collects exactly the specified fill, later fields with the same id overwriting earlier ones |
| UserFormView.Merge | src/pages/UserFormView.jsx:448 | every value the visitor already entered wins; the other keys take the auto-filled value |
| UserFormView.SubmitDecision | src/pages/UserFormView.jsx:473-506 | before the last section the page advances; then preview stops, a signed-in repeat submission stops, a free tier with upsell and no offer shown yet shows the offer, and otherwise the submission is sent |
| UserFormView.FindField | src/pages/UserFormView.jsx:518 | a field found has the id; none found means no field has it |
| UserFormView.EntryData | src/pages/UserFormView.jsx:517-522 | an entry adds its field's label exactly when the field is known and not an e-mail field, with the empty text for an empty value |
| UserFormView.SubmissionLabels | src/pages/UserFormView.jsx:514-522 | a label is in the submitted data exactly when some entry of a known, non-e-mail field carries it |
| UserFormView.BuildSubmission | src/pages/UserFormView.jsx:514-534 | the data holds the entries' labels and values plus the affiliate code when there is one; the tier id is sent exactly when the tier's id is truthy |
| UserFormView.ErrorFor | src/pages/UserFormView.jsx:638-654 | an authentication failure asks for a new sign-in; a duplicate marks the form submitted; a payment failure names the payment system; any other message is shown as it is, the default when empty |
| UserFormView.StoredResponses | src/pages/UserFormView.jsx:615 | no entry reads as the empty list, a stored response list as itself |
| UserFormView.ResponsesKeyNotCredential | src/pages/UserFormView.jsx:615-617 | the responses key of a form is never a token key |
| UserFormView.StoreResponse | src/pages/UserFormView.jsx:607-617 | the local copy of the submission is appended to the form's stored responses, with the tier's name and price or 0; unreadable stored text leaves storage as it was |
| FormList.Group | src/pages/FormList.jsx:367 | exactly the rows filed under the folder, and they form a subsequence of the list, so list order is kept |
| FormList.Grouped | src/pages/FormList.jsx:366-369 | one group per listed folder name and no other key, each holding that folder's rows |
| FormList.GroupMembership | src/pages/FormList.jsx:366-369 | a row appears under a folder exactly when the folder is listed and the row is filed under it; a row filed under an unlisted folder appears nowhere |
| FormList.GroupedForms | src/pages/FormList.jsx:366-369 | the `reduce` over the folder names builds exactly the specified grouping |
| FormList.FolderDescription | src/pages/FormList.jsx:211 | the description typed, or else `Kategori <name>` |
| FormList.CreateFolder | src/pages/FormList.jsx:190-220 | a blank name is refused before any request; otherwise a POST to the category endpoint with the trimmed name, the slug of the name, the description or its default, the chosen icon and colour, active |
| FormList.UpdateFolder | src/pages/FormList.jsx:252-275 | nothing is sent without a folder being edited or with a blank name; otherwise a PUT to the folder's own endpoint, icon and colour defaulted, active unless explicitly switched off |
| FormList.FolderSlugsAgree | src/pages/FormList.jsx:202-206 | creating and updating a folder derive the same slug from its name, and that slug is its own slug |
| FormList.DeleteFolder | src/pages/FormList.jsx:301-320 | a folder holding forms is refused with their count and no request; without confirmation nothing happens; otherwise a DELETE to the folder's endpoint |
| FormList.LoadForms | src/pages/FormList.jsx:112-145 | the backend records become the rows and are cached; a failure leaves no rows and the cache as it was |
| FormList.LoadFolders | src/pages/FormList.jsx:147-188 | the folder names are the categories' names and are cached; a failure leaves no folders and the cache as it was |
| FormList.DeleteForm | src/pages/FormList.jsx:342-364 | once the backend deleted it, exactly the rows with the form's id leave and the cache holds the rest; a failed deletion changes nothing |
| FormList.ClearedStore | src/pages/FormList.jsx:78-105 | each cache entry is removed exactly when it is set and holds demo data or cannot be read as a list; no other entry changes |
| FormList.ClearOldDataIdempotent | src/pages/FormList.jsx:78-105 | clearing old data a second time removes nothing more |
| FormList.ClearOldData | src/pages/FormList.jsx:78-105 | the two checks in sequence leave exactly the specified store |
| FormResponses.ToResponse | src/pages/FormResponses.jsx:55-64 | a row keeps id, time and data; the tier name defaults to `Gratis`, the amount to 0 and the status to `pending`; method and affiliate code are null exactly when empty |
| FormResponses.DefaultsCounted | src/pages/FormResponses.jsx:59-61 | a submission without status is counted as pending, one without tier as free |
| FormResponses.Filtered | src/pages/FormResponses.jsx:109-127 | exactly the rows that pass the search, tier and status filters, in their order |
| FormResponses.UnfilteredShowsAll | src/pages/FormResponses.jsx:109-127 | with no search and both filters at `all`, every row is shown |
| FormResponses.TierFiltersPartition | src/pages/FormResponses.jsx:120-121 | a row with a non-negative amount passes exactly one of the `free` and `paid` tier filters |
| FormResponses.StatsOf | src/pages/FormResponses.jsx:130-138 | the total is the row count, the free, paid and pending counts add up to at most the total, and revenue is never negative when no amount is |
| FormResponses.CountsBounded | src/pages/FormResponses.jsx:132-134 | no row is counted in two of the free, paid and pending counts |
| FormResponses.RevenueNonNegative | src/pages/FormResponses.jsx:135-137 | a sum of non-negative amounts is non-negative |
| FormResponses.RevenueIgnoresUnsettled | src/pages/FormResponses.jsx:135-137 | a row whose status is not `paid` adds nothing to the revenue |
| AnnouncementCheck.FindEntry | src/pages/UserAnnouncementCheck.jsx:53-58 | the first entry whose id equals the query or whose name contains it, ignoring case; none exactly when no entry matches |
| AnnouncementCheck.PassedFirst | src/pages/UserAnnouncementCheck.jsx:52-53 | a search over passed then failed entries finds a passed entry whenever one matches |
| AnnouncementCheck.FindAnnouncement | src/pages/UserAnnouncementCheck.jsx:49 | the announcement with the selected id; none exactly when no announcement has it |
| AnnouncementCheck.HandleSearch | src/pages/UserAnnouncementCheck.jsx:46-60 | a blank query or an unknown announcement leaves the result shown; otherwise the entry shown is the first match in the passed entries followed by the failed ones, so a matching passed entry wins and otherwise the first matching failed entry is shown; the not-found notice appears exactly when nothing matches |
| AnnouncementManager.FromDraft | src/pages/AnnouncementManager.jsx:77-81 | the new announcement carries the draft's title, type and lists with the given id and date |
| AnnouncementManager.WithoutAnnouncement | src/pages/AnnouncementManager.jsx:93 | exactly the announcements with another id, in order |
| AnnouncementManager.DeleteUndoesAdd | src/pages/AnnouncementManager.jsx:83-93 | deleting an announcement just added under a fresh id restores the list |
| AnnouncementManager.Page.constructor | src/pages/AnnouncementManager.jsx:14-20 | the page starts with no announcements and an empty `Magang` draft |
| AnnouncementManager.Page.Load | src/pages/AnnouncementManager.jsx:22-60 | a stored list is taken as it is; with nothing stored the two seed announcements are taken and stored, and page and storage then agree |
| AnnouncementManager.Page.Save | src/pages/AnnouncementManager.jsx:62-65 | the list is stored, then taken as the page's list; page and storage agree |
| AnnouncementManager.Page.AddAnnouncement | src/pages/AnnouncementManager.jsx:67-90 | without a title the error is reported and nothing changes; otherwise the stamped draft is appended and stored, and the draft is reset |
| AnnouncementManager.Page.DeleteAnnouncement | src/pages/AnnouncementManager.jsx:92-99 | the announcements with the id leave the list, which is stored |
| AffiliateManager.HandleWithdrawal | src/pages/AffiliateManager.jsx:27-29 | the list keeps length and order; requests with the id take the new status and nothing else changes |
| AffiliateManager.UnknownIdUnchanged | src/pages/AffiliateManager.jsx:27-29 | a decision on an id no request carries changes nothing |
| AffiliateManager.Pending | src/pages/AffiliateManager.jsx:130 | exactly the requests still `Pending`, in order |
| AffiliateManager.DecidedNotPending | src/pages/AffiliateManager.jsx:130-138 | after approving or rejecting, the request leaves the pending list and every other pending request stays |
| AffiliateLinks.FirstTitle | src/components/AffiliateLinksManager.jsx:49-57 | the first of `title`, `name`, `form_name` that is a non-empty string other than `undefined`; none exactly when there is no such value |
| AffiliateLinks.FindTitle | src/components/AffiliateLinksManager.jsx:52-57 | the loop with its `break` finds exactly that first usable title |
| AffiliateLinks.LinkSlug | src/components/AffiliateLinksManager.jsx:17-72 | the slug is `form.slug`, then `form_slug`, then `slug`; else the affiliate slug of `form.title`, of `form_title` unless it is `undefined`, or of the first usable title; else `form-not-found` |
| AffiliateLinks.DerivedSlugWellFormed | src/components/AffiliateLinksManager.jsx:29-71 | a derived slug holds only slug characters, no doubled dash and no dash at either end, and deriving it again changes nothing |
| AffiliateLinks.GenerateAffiliateLink | src/components/AffiliateLinksManager.jsx:11-77 | the link is the origin, `/forms/`, the slug, and `?ref=` with the affiliate code as a template writes it |
| ProtectedRoute.HomeOf | src/components/ProtectedRoute.jsx:18-24 | an `admin` is sent to the admin dashboard, a `user` to the user dashboard, any other role to the unauthorized page |
| ProtectedRoute.Decide | src/components/ProtectedRoute.jsx:4-29 | the page renders exactly when the visitor is signed in and no role is required or the role is the required one; a signed-out visitor always goes to the login page, a refused one to the home of their role |
| ProtectedRoute.Guard | src/components/ProtectedRoute.jsx:6-14 | over the stored credentials, the role is read only when a role is required, an unreadable stored user record is the only way the guard throws, and otherwise the guard decides as above |
| ProtectedRoute.RedirectsLandOnOpenRoutes | src/components/ProtectedRoute.jsx:6-24 | every redirect lands on a route of the table that the same visitor may open |
| ProtectedRoute.GuardAgreesWithTable | src/components/ProtectedRoute.jsx:12-14 | a guard requiring `admin` or `user` admits a signed-in visitor exactly when the route table admits that role to the admin or user pages |
| FormRedirect.Target | src/pages/FormRedirect.jsx:9-24 | the visitor goes to the form page of the slug, replacing the history entry, with `?ref=<code>` exactly when the code is non-empty |
| FormRedirect.AffiliateLinkLands | src/pages/FormRedirect.jsx:11-23 | an affiliate link is the short route of its slug, and following it leads to the form page of the same slug with the same code |
| LoginPage.WelcomeName | src/pages/LoginPage.jsx:46 | the welcome names the user, or `User` when the reply has no name |
| LoginPage.FailureText | src/pages/LoginPage.jsx:67 | a failure shows the error's message, or the page's fallback when the message is empty |
| LoginPage.LoginRedirect | src/pages/LoginPage.jsx:50-62 | after sign-in an `admin` goes to the admin dashboard, a `user` to the user dashboard, anyone else to the home page |
| LoginPage.RegisterRedirect | src/pages/LoginPage.jsx:110-120 | after registration only an `admin` goes to the admin dashboard; a missing or other role goes to the user dashboard |
| LoginPage.HandleLogin | src/pages/LoginPage.jsx:34-73 | loading ends and the registration form is untouched; a success welcomes the user and schedules the role's page, a failure shows the message and schedules nothing |
| LoginPage.HandleRegister | src/pages/LoginPage.jsx:75-130 | differing passwords are refused before anything is sent; otherwise the form is sent, a success clears all four fields and schedules the role's page, a failure keeps the form and shows the message |
| LoginPage.RedirectsAgreeOnKnownRoles | src/pages/LoginPage.jsx:50-120 | the two redirects agree for `admin` and `user`; for any other role sign-in goes home and registration to the user dashboard |
| LoginPage.LoginLandsOnOpenRoute | src/pages/LoginPage.jsx:50-62 | every page sign-in leads to is a route the signed-in role may open |
| UseAuth.DashboardOf | src/hooks/useAuth.js:47-48 | an `admin` lands on the admin dashboard, any other role on the user dashboard |
| UseAuth.Login | src/hooks/useAuth.js:34-54 | a failure of the store is rethrown without navigation; on success the given target wins, else the role's dashboard |
| UseAuth.Register | src/hooks/useAuth.js:59-78 | a failure is rethrown without navigation; on success the given target wins, else the user dashboard whatever the role |
| UseAuth.Logout | src/hooks/useAuth.js:83-98 | the login page follows whether or not sign-out failed, and nothing is rethrown |
| UseAuth.HasRole | src/hooks/useAuth.js:103-105 | true exactly when the store's role is the one asked for |
| UseAuth.RequireAuth | src/hooks/useAuth.js:110-121 | allowed exactly when signed in; a refused visitor is sent to the login page |
| UseAuth.RequireAdmin | src/hooks/useAuth.js:126-139 | allowed exactly when signed in as an admin; a signed-out visitor gets the login page, a signed-in non-admin the unauthorized page |
| UseAuth.RequireAdminAgreesWithGuard | src/hooks/useAuth.js:126-139 | the hook's admin check and the route guard requiring `admin` admit the same visitors and send signed-out visitors to the same page; they differ only on where a `user` is sent |
| UseAuth.LoginAgreesWithLoginPage | src/hooks/useAuth.js:44-49 | the hook and the login page send `admin` and `user` to the same page; any other role lands on the user dashboard through the hook, as registration does on the page |
| UseCategories.FirstMessage | src/hooks/useCategories.js:53 | the first validation error's message, or the default when there is none; never empty |
| UseCategories.CategoryRequest | src/hooks/useCategories.js:49-76 | a request is built exactly when the data passes the category schema, with the parsed category (its name trimmed) and the slug of the name as given; otherwise the first error message is thrown |
| UseCategories.CreatePayload | src/hooks/useCategories.js:49-76 | a created category passes the schema, carries the slug of its name and is active |
| UseCategories.UpdatePayload | src/hooks/useCategories.js:101-128 | an updated category passes the schema and stays active unless the caller passed `is_active: false` |
| UseCategories.Names | src/hooks/useCategories.js:32 | one name per category, in order |
| UseCategories.LoadCategories | src/hooks/useCategories.js:23-44 | a reply's categories and their names with no error, or on failure both lists empty and the error kept |
| UseCategories.FindBy | src/hooks/useCategories.js:178-187 | `getCategoryById` and `getCategoryByName`: the first category whose id, or name, is the value; none exactly when no category has it |
| UseCategories.DeleteCategory | src/hooks/useCategories.js:153-173 | once deleted, the category with the id leaves the records and its name leaves the name list; an unknown id leaves the names as they were; a failed deletion changes nothing |
| UseCategories.DeleteKeepsNames | src/hooks/useCategories.js:153-173 | with one record per id and per name, after a load and a deletion the name list names exactly the remaining records |
| UseCategories.NameKept | src/hooks/useCategories.js:159-163 | a name is still listed exactly when a remaining record carries it |
| UseCategories.NameKeptOwner | src/hooks/useCategories.js:159-163 | a name still listed belongs to a remaining record |
| UseCategories.OwnerNameKept | src/hooks/useCategories.js:159-163 | a remaining record's name is still listed |
| UseForms.MapForm | src/hooks/useForms.js:30-37 | a row keeps id, slug and time; the title falls back to the name; the folder to the category name, the record's folder, then `Uncategorized`; the count to the submission count, then the response count |
| UseForms.MapForms | src/hooks/useForms.js:30-37 | one row per record, in order |
| UseForms.LoadForms | src/hooks/useForms.js:21-49 | the reply's records mapped with no error, or on failure no rows and the error's message |
| UseForms.WithoutForm | src/hooks/useForms.js:140 | exactly the rows with another id, in order |
| UseForms.WithoutAbsentForm | src/hooks/useForms.js:140 | deleting an id the list does not hold changes nothing |
| UseForms.DeleteForm | src/hooks/useForms.js:134-140 | once deleted, exactly the rows with the id leave; a failed deletion changes nothing |
| UseForms.DeleteKeepsOrder | src/hooks/useForms.js:140 | deleting one row keeps the rows before and after it in order |
| ClearDummyData.FixedRemoved | src/utils/clearDummyData.js:16-22 | exactly the four fixed keys that hold a non-empty value |
| ClearDummyData.PreviewKeys | src/utils/clearDummyData.js:25-31 | exactly the stored keys that start with the preview prefix |
| ClearDummyData.Removed | src/utils/clearDummyData.js:6-40 | only stored keys are removed |
| ClearDummyData.FixedKeysAreNotPreviews | src/utils/clearDummyData.js:7-12 | no fixed key is a preview key, so no key is counted twice |
| ClearDummyData.ClearingTwiceFindsNothing | src/utils/clearDummyData.js:6-40 | after one run nothing is left to remove, so a second run answers false |
| ClearDummyData.KeysToCheckDistinct | src/utils/clearDummyData.js:7-12 | the four fixed keys are distinct |
| ClearDummyData.PresentAmong | src/utils/clearDummyData.js:16-22 | exactly the listed keys that hold a non-empty value |
| ClearDummyData.PresentAmongNext | src/utils/clearDummyData.js:16-22 | one more step of the pass over distinct keys adds the key exactly when it holds a value, and counts it once |
| ClearDummyData.RemovalNext | src/utils/clearDummyData.js:16-22 | one more step of the pass removes the key exactly when it still holds a value |
| ClearDummyData.RemoveFixed | src/utils/clearDummyData.js:16-22 | the fixed keys holding a value are removed and counted; nothing else changes |
| ClearDummyData.RemovePresent | src/utils/clearDummyData.js:16-22 | over distinct keys, each key holding a value is removed and counted once |
| ClearDummyData.RemovePreviews | src/utils/clearDummyData.js:25-31 | every preview key is removed and counted |
| ClearDummyData.Clear | src/utils/clearDummyData.js:6-40 | exactly the fixed keys holding a value and the preview keys are removed, and the answer is true exactly when something was removed |
| JsStrings.LowerChar | src/pages/FormResponses.jsx:112 | a lower-cased character is never upper-case, changes exactly when it was upper-case, and is a letter exactly when it was one |
| JsStrings.Lower | src/pages/FormResponses.jsx:112 | `toLowerCase` keeps the length and lower-cases each character in place |
| JsStrings.Trim | src/pages/FormList.jsx:191 | `trim` gives a part of the text that neither starts nor ends with whitespace, and only whitespace is cut before and after it |
| JsStrings.TrimKeeps | src/pages/FormList.jsx:209 | text that neither starts nor ends with whitespace is its own trim |
| JsStrings.TrimIdempotent | src/pages/FormList.jsx:209 | trimming twice is trimming once |
| JsStrings.TrimChars | src/pages/FormBuilderEditor.jsx:564 | trimming introduces no new kind of character |
| JsStrings.Filter | src/pages/FormBuilderEditor.jsx:526 | `replace(/[^…]/g, '')` keeps only characters of the class and leaves text made of them unchanged |
| JsStrings.ReplaceRuns | src/pages/FormBuilderEditor.jsx:525 | `replace(/\s+/g, '-')` leaves no whitespace, no two replacements side by side, and empties only empty text |
| JsStrings.ReplaceRunsChars | src/pages/FormBuilderEditor.jsx:525 | the replaced text holds only the replacement and characters of the original |
| JsStrings.ReplaceRunsNone | src/pages/FormBuilderEditor.jsx:525 | text without whitespace is left unchanged |
| JsStrings.ReplaceRunsSingles | src/components/AffiliateLinksManager.jsx:35 | text whose dash runs are single dashes is left unchanged by `replace(/--+/g, '-')` |
| JsStrings.Split | src/lib/api.js:27 | `split` of a non-empty separator always gives at least one part |
| JsStrings.JoinSplit | src/lib/api.js:26-28 | splitting at a separator and joining with it gives the text back |
| JsStrings.SplitNoSep | src/lib/api.js:28 | text without the separator splits into itself alone |
| JsStrings.SplitPartsFree | src/pages/UserFormView.jsx:80 | no part of a split on a character holds that character |
| JsStrings.SplitJoin | src/pages/UserFormView.jsx:80-94 | parts free of a character, joined with it and split on it, come back as the same parts |
| JsStrings.IntToString | src/pages/FormBuilderEditor.jsx:443 | a number's decimal rendering is never empty |
| Slug.BaseSlug | src/pages/FormBuilderEditor.jsx:522-526 | the slug holds only lower-case letters, digits, `_` and `-` |
| Slug.BaseSlugIdempotent | src/pages/FormList.jsx:202-206 | the slug of a slug is itself |
| Slug.BaseSlugFixes | src/hooks/useCategories.js:66-70 | text made only of slug characters is its own slug |
| Slug.StripEdgeDashes | src/components/AffiliateLinksManager.jsx:36 | removing one edge dash at each end keeps slug characters, and on text without doubled dashes leaves no dash at either end |
| Slug.InnerPart | src/components/AffiliateLinksManager.jsx:36 | a part of a slug keeps its characters and its lack of doubled dashes |
| Slug.AffiliateSlug | src/components/AffiliateLinksManager.jsx:31-36 | the link slug of a title holds only slug characters, no doubled dash and no dash at either end |
| Slug.AffiliateSlugIdempotent | src/components/AffiliateLinksManager.jsx:31-36 | the link slug of a link slug is itself |
| Lists.Keep | src/pages/FormList.jsx:348 | `filter` keeps exactly the elements that pass, never more than there were |
| Lists.KeepAppend | src/pages/FormList.jsx:348 | filtering a concatenation filters each part in turn |
| Lists.KeepAll | src/pages/FormList.jsx:348 | a filter every element passes changes nothing |
| Lists.KeepSubsequence | src/pages/FormList.jsx:348 | a filter keeps the surviving elements in their original order |
| Wrappers.OrElse | src/lib/api.js:54-58 | the fallback gives `a` when it is a non-empty string, else `b` |

## Left out

- The `VITE_API_BASE_URL` environment override: the API base is the constant the code falls back to.
- `Date.now()`, `new Date()` and `Math.random()`: ids, timestamps and dates are parameters of the operations that use them.
- Timers: the 500 ms login delay, the 1-second affiliate debounce, the 800/1500/2000 ms waits and the back-off `sleep` are recorded as values and never waited for.
- Cookie expiry and attributes (`expires`, `path`, `SameSite`): they need a clock, and the jar keeps names and values only.
- The `credentials`/`mode` options of `fetch`, CORS and the transport: the network is an oracle of outcomes.
- JSON text: stored and sent documents are the values they decode to; stored text that does not decode as the expected document is one opaque `Text` value.
- FormBuilder.SaveForm: a form cache holding some other JSON array (folder names, announcements, responses) is treated like unreadable text: the save fails with `cacheError` and the cache is left as it was, while the code would append the saved form to that array and store the mixed list.
- UserFormView.StoreResponse: a value under `smartpath_responses_<slug>` holding some other JSON array (forms, folder names, announcements) is treated like unreadable text: `StoredResponses` reads it as `None`, the method returns false and storage is left as it was, while the code (src/pages/UserFormView.jsx:615-617) pushes the response onto that array and stores the mixed list.
- `parseInt` on hexadecimal or exponent notation: only the decimal prefix rule is modelled.
- Concurrency: there is no single-flight refresh in the code; each call is one sequential transition, and interleaved 401 refreshes are not modelled.
- Toasts, console logging and the logger: user-facing messages are kept only where an operation returns them.
- The auth store (`@/store/authStore`) is not part of this model: its answers are parameters of `UseAuth`.
- The error handler (`@/lib/errorHandler`) is not part of this model: the message it derives is a parameter.
- `FormService.js`, `CategoryService`, the UI kit and the presentation-only pages are not part of this model.
- `window.location.origin` is a parameter of the affiliate link builder.
- Zod's email-format check is the parameter `isEmail`; `URLSearchParams` encoding of query strings is given as the encoded string.
- FormRedirect.AffiliateLinkLands: reading `ref` back with `URLSearchParams` is taken as the identity, so a code holding `&`, `#`, `+` or `%` escapes is not modelled.
- Floating point and locale formatting (`Intl.NumberFormat`, `toLocaleString`, percentage and average rounding).
- Form builder: the load keeps the backend tier price as it came (src/pages/FormBuilderEditor.jsx:397), while the model's shared tier loader parses it with `parseInt` as the public form view does; for numeric backend prices the two agree.
- Form builder: `upsells` is always the empty list in the save payload.
- Form builder: the preview writes to localStorage (src/pages/FormBuilderEditor.jsx:711-732) and the load's fallback to the local cache (src/pages/FormBuilderEditor.jsx:411-425).
- FormBuilder.HandleDragEnd: requires both ids to name sections, since the sortable list only reports its own items; a drop outside the list (`over` null), where the code throws, is not modelled.
- FormBuilder.NumberFields: states only the order and caption of each numbered field; the rest of each entry is what `SaveField` states.
- Public form view: the authentication redirect effect (src/pages/UserFormView.jsx:148-167) and the upper-casing of the `ref`/`affiliate`/`aff` query parameters (170-177).
- Public form view: affiliate-code verification and its debounce (src/pages/UserFormView.jsx:180-249).
- Public form view: the `/user/forms` lookup and the already-submitted redirect (src/pages/UserFormView.jsx:264-303).
- Public form view: the not-found toast, the localStorage fallback and the expired-preview handling (src/pages/UserFormView.jsx:359-379).
- Public form view: the payment redirect and the pending-submission record (src/pages/UserFormView.jsx:555-578), the success page's query parameters (620-626) and the relogin timeout after a failed submission.
- UserFormView.Toggle: the round trip through the joined text holds except for a lone empty option value, which reads back as no value, as in the code; `ReadBack` excludes that case.
- Form list: the reloads after create, update and delete (src/pages/FormList.jsx:227-228, 282-283, 325-326) are sequences of modelled loads, not one operation.
- Form responses: the local fallback loaders (src/pages/FormResponses.jsx:88-100), string-typed prices, and `exportToCSV`, which only shows a toast.
- Announcement check: the seeded list and the initial selection of the lookup page.
- AnnouncementManager.Page.Load: stored text that is not JSON makes the code throw, and stored JSON of some other shape (a form list, say) is shown as the list; in both cases the model keeps the page's list as it was. `handleFileUpload` only shows a toast.
- Affiliate links: `copyToClipboard`, `share` and `window.open`.
- An absent form title or folder name is cached as the empty string.
- useForms: `getForm`, `getFormBySlug`, `createForm` and `updateForm` (src/hooks/useForms.js:54-129) only forward to the form service and reload.
- ClearDummyData.Removed: states only that the removed keys are stored keys; which keys they are is stated by `FixedRemoved` and `PreviewKeys`.
- JsStrings.Lower: `toLowerCase` maps only the ASCII letters `A`-`Z`; the full Unicode mapping (accented capitals, `İ`, the Kelvin sign) is not modelled. Its users inherit this: the email lower-casing of the auth schema, `FormResponses.MatchesSearch`, the announcement-check name matching, the label tests of the public form's auto-fill, and `Slug.BaseSlug` and `AffiliateSlug`.
- JsStrings.LowerChar: lower-cases only `A`-`Z`, for the same reason; every other character is returned unchanged.
- ClearDummyData: `StaleForms` and `StaleFolders` drop every stored value that is none of the modelled documents (`Text`); the code would keep a JSON array of some other shape in the forms entry, and would test a JSON string in the folders entry by substring, keeping it when it names neither demo folder.
- AffiliateLinks.LinkSlug: the slug and title fields are optional text, so a field holding another truthy value (a number, an object), which the code would use as it is, is not represented.
- AffiliateLinks.GenerateAffiliateLink: an absent affiliate code renders as `undefined`; a backend `null` code, which the template literal renders as `null`, is not distinguished from an absent one.

## Findings

| source | as written | input that shows it | evidently intended | confidence | as-written member | corrected member |
|---|---|---|---|---|---|---|
| src/pages/FormBuilderEditor.jsx:378 | each loaded field is owned by `section.id`, the backend's id, although a section without an id is given a minted id; src/pages/UserFormView.jsx:330 does the same | a backend section with no `id` holding one field: the field's owner is undefined, so the section shows no fields and the save filter drops the field | each field is owned by the id its section was loaded with | medium, not executed | FormBuilder.AsWrittenDropsFields | Forms.LoadFields |
