/**
 * Requests, responses and the network as both HTTP clients see them
 * (`src/lib/api.js` and `src/services/HttpClient.js`), plus the URL and
 * header rules the two share line for line.
 */
module Http {
  import opened Wrappers
  import opened JsStrings
  import opened Storage

  /** The default backend origin of both clients. */
  const ApiBase := "http://localhost:8000"

  /** A thrown JavaScript error: its `name` and `message`. */
  datatype JsError = JsError(name: string, message: string)

  /** `new Error(message)`. */
  function Error(message: string): JsError
  {
    JsError("Error", message)
  }

  /** What `response.json()` throws on a body that is not JSON. */
  const JsonSyntaxError := JsError("SyntaxError", "Unexpected token in JSON")

  datatype Json =
    | JNull
    | JBool(b: bool)
    | JNum(n: int)
    | JStr(s: string)
    | JArr(items: seq<Json>)
    | JObj(members: seq<(string, Json)>)

  /** Request data: a value that is sent as JSON text, or a `FormData`. */
  datatype Data = Value(json: Json) | Form(entries: seq<(string, string)>)

  datatype RequestBody = NoBody | JsonText(json: Json) | Multipart(entries: seq<(string, string)>)

  /** `JSON.stringify(data)`: a `FormData` has no enumerable fields and becomes `{}`. */
  function Stringify(data: Data): (r: RequestBody)
    ensures r.JsonText?
    ensures data.Value? ==> r.json == data.json
    ensures data.Form? ==> r.json == JObj([])
  {
    match data
    case Value(j) => JsonText(j)
    case Form(_) => JsonText(JObj([]))
  }

  type Headers = map<string, string>

  /** The caller's `fetch` options that matter here. */
  datatype Options = Options(verb: string, headers: Headers, body: RequestBody)

  datatype Request = Request(url: string, verb: string, headers: Headers, body: RequestBody, includeCredentials: bool)

  /** The fields of a parsed JSON response body the client reads; `text` is the body re-serialised. */
  datatype Body = Body(
    message: Option<string>, error: Option<string>,
    accessToken: Option<string>, token: Option<string>, refreshToken: Option<string>,
    user: Option<UserData>, text: string)

  /** A response; `body` is `None` when it does not parse as JSON. */
  datatype Response = Response(status: int, statusText: string, body: Option<Body>)

  /** `response.ok`: a 2xx status. */
  predicate IsOk(r: Response)
  {
    200 <= r.status <= 299
  }

  /** `data.access_token || data.token`. */
  function IssuedAccess(body: Body): (r: Option<string>)
    ensures Truthy(r) <==> Truthy(body.accessToken) || Truthy(body.token)
    ensures Truthy(body.accessToken) ==> r == body.accessToken
  {
    OrElse(body.accessToken, body.token)
  }

  /** The verb helpers both clients offer. */
  datatype Verb = Get | Post | Put | Patch | Delete | PublicGet | PublicPost

  function VerbMethod(v: Verb): string
  {
    match v
    case Get => "GET"
    case Post => "POST"
    case Put => "PUT"
    case Patch => "PATCH"
    case Delete => "DELETE"
    case PublicGet => "GET"
    case PublicPost => "POST"
  }

  /** Only `publicGet` and `publicPost` skip the access token. */
  predicate Authenticated(v: Verb)
  {
    !(v.PublicGet? || v.PublicPost?)
  }

  datatype FetchOutcome = Received(response: Response) | Rejected(error: JsError)

  /** What `fetch` rejects with when no answer arrives. */
  const FailedToFetch := JsError("TypeError", "Failed to fetch")

  /** The outcome the next `fetch` call delivers. */
  function NextOutcome(pending: seq<FetchOutcome>): FetchOutcome
  {
    if pending == [] then Rejected(FailedToFetch) else pending[0]
  }

  /**
   * `endpoint.startsWith('http') ? endpoint : base + endpoint`
   * (`apiFetch` with `API_BASE`, `HttpClient.buildURL` with its `baseURL`).
   */
  function ResolveUrl(base: string, endpoint: string): (url: string)
    ensures StartsWith(endpoint, "http") ==> url == endpoint
    ensures !StartsWith(endpoint, "http") ==> url == base + endpoint && url[|base|..] == endpoint
  {
    if StartsWith(endpoint, "http") then endpoint else base + endpoint
  }

  /**
   * The request headers: `Accept: application/json` overridable by the
   * caller's headers, `Content-Type: application/json` forced unless the
   * body is a `FormData`, and `Authorization: Bearer <token>` when `bearer`
   * (the access token, looked up only for authenticated requests) is truthy.
   */
  function PrepareHeaders(options: Options, bearer: Option<string>): (h: Headers)
    ensures "Accept" in h
    ensures h["Accept"] == if "Accept" in options.headers then options.headers["Accept"] else "application/json"
    ensures !options.body.Multipart? ==> "Content-Type" in h && h["Content-Type"] == "application/json"
    ensures options.body.Multipart? ==> ("Content-Type" in h <==> "Content-Type" in options.headers)
    ensures Truthy(bearer) ==> "Authorization" in h && h["Authorization"] == "Bearer " + bearer.value
    ensures !Truthy(bearer) ==> ("Authorization" in h <==> "Authorization" in options.headers)
    ensures forall k :: k in options.headers && k !in {"Content-Type", "Authorization"} ==> k in h && h[k] == options.headers[k]
    ensures forall k :: k in h ==> k in options.headers || k in {"Accept", "Content-Type", "Authorization"}
  {
    var merged := map["Accept" := "application/json"] + options.headers;
    var typed := if options.body.Multipart? then merged else merged["Content-Type" := "application/json"];
    if Truthy(bearer) then typed["Authorization" := "Bearer " + bearer.value] else typed
  }

  /** The network: outcomes still to be delivered in call order, and the requests sent so far. */
  class Network {
    var pending: seq<FetchOutcome>
    var sent: seq<Request>

    constructor (outcomes: seq<FetchOutcome>)
      ensures pending == outcomes && sent == []
    {
      pending := outcomes;
      sent := [];
    }

    /** `fetch(request)`; once the scripted outcomes run out every call is rejected. */
    method Fetch(request: Request) returns (outcome: FetchOutcome)
      modifies this
      ensures sent == old(sent) + [request]
      ensures outcome == NextOutcome(old(pending))
      ensures pending == if old(pending) == [] then [] else old(pending)[1..]
    {
      sent := sent + [request];
      if pending == [] {
        outcome := Rejected(FailedToFetch);
      } else {
        outcome := pending[0];
        pending := pending[1..];
      }
    }
  }
}
