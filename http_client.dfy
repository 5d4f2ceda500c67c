/**
 * `src/services/HttpClient.js`: `fetchWithRetry`, a bounded retry loop with
 * exponential backoff for network errors, and the `HttpClient` class that
 * resolves URLs, prepares headers from the `TokenService` store, always
 * sends cookies and turns responses into JSON or errors.
 */
module HttpClient {
  import opened Wrappers
  import opened JsStrings
  import opened Storage
  import opened Http
  import opened TokenService

  const MaxRetries := 3
  const InitialRetryDelay := 1000

  function Pow2(k: nat): (r: nat)
    ensures r >= 1
  {
    if k == 0 then 1 else 2 * Pow2(k - 1)
  }

  /** The wait, in milliseconds, after failed attempt `attempt`: `INITIAL_RETRY_DELAY * 2^attempt`. */
  function Backoff(attempt: nat): (ms: nat)
    ensures ms >= InitialRetryDelay
  {
    InitialRetryDelay * Pow2(attempt)
  }

  /** Each wait doubles the one before. */
  lemma BackoffDoubles(attempt: nat)
    ensures Backoff(attempt + 1) == 2 * Backoff(attempt)
  {
  }

  /** `error.message?.includes('fetch') || error.message?.includes('network') || error.name === 'TypeError'`. */
  predicate IsNetworkError(e: JsError)
  {
    Contains(e.message, "fetch") || Contains(e.message, "network") || e.name == "TypeError"
  }

  /** The outcomes left after `k` calls. */
  function DropOutcomes(pending: seq<FetchOutcome>, k: nat): seq<FetchOutcome>
  {
    if k <= |pending| then pending[k..] else []
  }

  /** The outcome the call numbered `k` (from 0) delivers. */
  function NthOutcome(pending: seq<FetchOutcome>, k: nat): FetchOutcome
  {
    NextOutcome(DropOutcomes(pending, k))
  }

  lemma DropOneMore(pending: seq<FetchOutcome>, k: nat)
    ensures (if DropOutcomes(pending, k) == [] then [] else DropOutcomes(pending, k)[1..]) == DropOutcomes(pending, k + 1)
  {
  }

  /**
   * What `fetchWithRetry` ends with: a response, a rethrown error, or (only
   * when `retries` is negative and the loop never runs) nothing at all.
   */
  datatype Attempt = Returned(response: Response) | Thrown(error: JsError) | Exhausted

  /** `n` copies of the same request. */
  function Repeat(request: Request, n: nat): (r: seq<Request>)
    ensures |r| == n && forall i :: 0 <= i < n ==> r[i] == request
  {
    seq(n, _ => request)
  }

  /** One more copy of the request, after those already sent. */
  lemma SentOneMore(sent: seq<Request>, request: Request, n: nat)
    ensures sent + Repeat(request, n) + [request] == sent + Repeat(request, n + 1)
  {
    assert Repeat(request, n) + [request] == Repeat(request, n + 1);
  }

  /** The waits before attempts `1..n`: the backoff schedule. */
  function Backoffs(n: nat): (r: seq<nat>)
    ensures |r| == n && forall k :: 0 <= k < n ==> r[k] == Backoff(k)
  {
    if n == 0 then [] else Backoffs(n - 1) + [Backoff(n - 1)]
  }

  /**
   * The retry loop from attempt `attempt` on, over the outcomes the calls
   * deliver: how it ends and how many attempts failed before the last.
   */
  function RetryRun(pending: seq<FetchOutcome>, retries: int, attempt: nat): (Attempt, nat)
    decreases retries + 1 - attempt
  {
    if attempt > retries then (Exhausted, attempt)
    else match NthOutcome(pending, attempt)
      case Received(response) => (Returned(response), attempt)
      case Rejected(error) =>
        if IsNetworkError(error) && attempt != retries then RetryRun(pending, retries, attempt + 1)
        else (Thrown(error), attempt)
  }

  /**
   * What the loop promises, run from attempt `attempt` after `attempt`
   * network errors: it is exhausted only when it never starts; every
   * attempt before the last failed with a network error; the last one
   * delivered the response, or the error that ended it, which is either not
   * a network error or the error of attempt `retries`.
   */
  lemma {:induction false} RetryRunEnds(pending: seq<FetchOutcome>, retries: int, attempt: nat)
    requires attempt == 0 || attempt <= retries
    requires forall k :: 0 <= k < attempt ==>
      NthOutcome(pending, k).Rejected? && IsNetworkError(NthOutcome(pending, k).error)
    ensures var (r, failed) := RetryRun(pending, retries, attempt);
      (retries < 0 <==> r.Exhausted?)
      && (r.Exhausted? ==> failed == 0)
      && (retries >= 0 ==> attempt <= failed <= retries)
      && (forall k :: 0 <= k < failed ==>
           NthOutcome(pending, k).Rejected? && IsNetworkError(NthOutcome(pending, k).error))
      && (r.Returned? ==> NthOutcome(pending, failed) == Received(r.response))
      && (r.Thrown? ==>
           NthOutcome(pending, failed) == Rejected(r.error) && (!IsNetworkError(r.error) || failed == retries))
    decreases retries + 1 - attempt
  {
    if attempt <= retries {
      var outcome := NthOutcome(pending, attempt);
      if outcome.Rejected? && IsNetworkError(outcome.error) && attempt != retries {
        RetryRunEnds(pending, retries, attempt + 1);
      }
    }
  }

  /**
   * `fetchWithRetry(url, options, retries)`. `delays` records the waits
   * between attempts: attempt `k + 1` follows a network error on attempt
   * `k` after `Backoff(k)` milliseconds. The loop ends as `RetryRun` says
   * (a response of any status ends it, so does a non-network error or an
   * error on attempt `retries`), having sent one request per attempt.
   */
  method FetchWithRetry(net: Network, request: Request, retries: int) returns (r: Attempt, delays: seq<nat>)
    modifies net
    ensures r == RetryRun(old(net.pending), retries, 0).0 && |delays| == RetryRun(old(net.pending), retries, 0).1
    ensures delays == Backoffs(|delays|)
    ensures retries < 0 ==> net.sent == old(net.sent) && net.pending == old(net.pending)
    ensures retries >= 0 ==>
      net.sent == old(net.sent) + Repeat(request, |delays| + 1)
      && net.pending == DropOutcomes(old(net.pending), |delays| + 1)
  {
    delays := [];
    var attempt := 0;
    while attempt <= retries
      invariant 0 <= attempt && (attempt == 0 || attempt <= retries)
      invariant delays == Backoffs(attempt)
      invariant net.sent == old(net.sent) + Repeat(request, attempt)
      invariant net.pending == DropOutcomes(old(net.pending), attempt)
      invariant RetryRun(old(net.pending), retries, attempt) == RetryRun(old(net.pending), retries, 0)
      decreases retries - attempt
    {
      DropOneMore(old(net.pending), attempt);
      SentOneMore(old(net.sent), request, attempt);
      var outcome := net.Fetch(request);
      assert outcome == NthOutcome(old(net.pending), attempt);
      match outcome {
        case Received(response) =>
          return Returned(response), delays;
        case Rejected(error) =>
          var isLastAttempt := attempt == retries;
          if IsNetworkError(error) && !isLastAttempt {
            assert delays + [Backoff(attempt)] == Backoffs(attempt + 1);
            delays := delays + [Backoff(attempt)];
            attempt := attempt + 1;
          } else {
            return Thrown(error), delays;
          }
      }
    }
    r := Exhausted;
  }

  /** The loop's results read back: what `fetchWithRetry` promises its caller. */
  lemma FetchWithRetryEnds(pending: seq<FetchOutcome>, retries: int, r: Attempt, delays: seq<nat>)
    requires r == RetryRun(pending, retries, 0).0 && |delays| == RetryRun(pending, retries, 0).1
    requires delays == Backoffs(|delays|)
    ensures retries < 0 <==> r.Exhausted?
    ensures retries < 0 ==> delays == []
    ensures retries >= 0 ==> |delays| <= retries
    ensures forall k :: 0 <= k < |delays| ==> delays[k] == Backoff(k)
    ensures forall k :: 0 <= k < |delays| ==>
      NthOutcome(pending, k).Rejected? && IsNetworkError(NthOutcome(pending, k).error)
    ensures r.Returned? ==> NthOutcome(pending, |delays|) == Received(r.response)
    ensures r.Thrown? ==>
      NthOutcome(pending, |delays|) == Rejected(r.error) && (!IsNetworkError(r.error) || |delays| == retries)
  {
    RetryRunEnds(pending, retries, 0);
  }

  /**
   * The body a verb method sends: GET and DELETE keep the caller's, the
   * others send a `FormData` as is and anything else as JSON.
   */
  function VerbBody(v: Verb, data: Data, options: Options): (r: RequestBody)
    ensures (v.Get? || v.Delete? || v.PublicGet?) ==> r == options.body
    ensures !(v.Get? || v.Delete? || v.PublicGet?) && data.Form? ==> r == Multipart(data.entries)
    ensures !(v.Get? || v.Delete? || v.PublicGet?) && data.Value? ==> r == JsonText(data.json)
  {
    if v.Get? || v.Delete? || v.PublicGet? then options.body
    else if data.Form? then Multipart(data.entries)
    else Stringify(data)
  }

  /**
   * `handleResponse(response)`: a non-OK response throws the body's
   * `message`, else `Request failed with status N`, or `HTTP N: statusText`
   * when the body is not JSON; an OK response yields its JSON or the parse
   * error.
   */
  function HandleResponse(resp: Response): (r: Result<Body, JsError>)
    ensures r.Ok? <==> IsOk(resp) && resp.body.Some?
    ensures r.Ok? ==> r.value == resp.body.value
    ensures IsOk(resp) && resp.body.None? ==> r == Err(JsonSyntaxError)
    ensures !IsOk(resp) && resp.body.None? ==>
      r == Err(Error("HTTP " + IntToString(resp.status) + ": " + resp.statusText))
    ensures !IsOk(resp) && resp.body.Some? && Truthy(resp.body.value.message) ==>
      r == Err(Error(resp.body.value.message.value))
    ensures !IsOk(resp) && resp.body.Some? && !Truthy(resp.body.value.message) ==>
      r == Err(Error("Request failed with status " + IntToString(resp.status)))
  {
    if IsOk(resp) then
      if resp.body.None? then Err(JsonSyntaxError) else Ok(resp.body.value)
    else
      var message :=
        if resp.body.None? then "HTTP " + IntToString(resp.status) + ": " + resp.statusText
        else resp.body.value.message.GetOr("");
      Err(Error(if message != "" then message else "Request failed with status " + IntToString(resp.status)))
  }

  /**
   * What a verb method yields once `fetchWithRetry` has ended: the handled
   * response, or the error that ended the loop.
   */
  function Settle(a: Attempt): (r: Result<Body, JsError>)
    requires !a.Exhausted?
    ensures a.Returned? ==> r == HandleResponse(a.response)
    ensures a.Thrown? ==> r == Err(a.error)
  {
    match a
    case Returned(response) => HandleResponse(response)
    case Thrown(error) => Err(error)
  }

  /** What a verb method of the client yields, given the outcomes its attempts will meet. */
  function CallOutcome(pending: seq<FetchOutcome>): (r: Result<Body, JsError>)
  {
    RetryRunEnds(pending, MaxRetries, 0);
    Settle(RetryRun(pending, MaxRetries, 0).0)
  }

  /**
   * The first answer decides a verb method's result, whatever its status;
   * only network errors before it are retried, and a network error on the
   * fourth attempt, or any other error, is what the method throws.
   */
  lemma CallOutcomeCases(pending: seq<FetchOutcome>)
    ensures pending != [] && pending[0].Received? ==> CallOutcome(pending) == HandleResponse(pending[0].response)
    ensures pending != [] && pending[0].Rejected? && !IsNetworkError(pending[0].error) ==>
      CallOutcome(pending) == Err(pending[0].error)
    ensures (|pending| >= 2 && pending[0].Rejected? && IsNetworkError(pending[0].error) && pending[1].Received?) ==>
      CallOutcome(pending) == HandleResponse(pending[1].response)
    ensures (|pending| >= 4 && forall k :: 0 <= k < 4 ==> pending[k].Rejected? && IsNetworkError(pending[k].error)) ==>
      CallOutcome(pending) == Err(NthOutcome(pending, MaxRetries).error)
  {
    if |pending| >= 2 {
      assert DropOutcomes(pending, 1)[0] == pending[1];
    }
    if |pending| >= 4 && forall k :: 0 <= k < 4 ==> pending[k].Rejected? && IsNetworkError(pending[k].error) {
      assert NthOutcome(pending, 0) == pending[0];
      assert NthOutcome(pending, 1) == pending[1];
      assert NthOutcome(pending, 2) == pending[2];
      assert NthOutcome(pending, 3) == pending[3];
    }
  }

  class Client {
    const baseURL: string
    const tokens: TokenStore

    ghost predicate Valid()
      reads tokens, tokens.browser
    {
      tokens.Valid()
    }

    constructor (baseURL: string, tokens: TokenStore)
      requires tokens.Valid()
      ensures Valid() && this.baseURL == baseURL && this.tokens == tokens
    {
      this.baseURL := baseURL;
      this.tokens := tokens;
    }

    /**
     * `prepareHeaders(options, requireAuth)`: the shared header rules, with
     * the bearer token taken from `getAccessToken` (which may fill the
     * cache) only when `requireAuth` holds.
     */
    method PrepareHeaders(options: Options, requireAuth: bool) returns (h: Headers)
      requires Valid()
      modifies tokens
      ensures Valid()
      ensures requireAuth ==>
        h == Http.PrepareHeaders(options, CachedAccess(old(tokens.inMemory), tokens.browser.local))
        && tokens.inMemory == (if CachedAccess(old(tokens.inMemory), tokens.browser.local).Some?
                               then CachedAccess(old(tokens.inMemory), tokens.browser.local) else old(tokens.inMemory))
      ensures !requireAuth ==> h == Http.PrepareHeaders(options, None) && tokens.inMemory == old(tokens.inMemory)
    {
      var bearer := None;
      if requireAuth {
        bearer := tokens.GetAccessToken();
      }
      h := Http.PrepareHeaders(options, bearer);
    }

    /** `request(endpoint, options, requireAuth)`: every attempt carries `credentials: 'include'`. */
    method Request(net: Network, endpoint: string, options: Options, requireAuth: bool) returns (r: Attempt)
      requires Valid()
      modifies tokens, net
      ensures Valid()
      ensures !r.Exhausted?
      ensures !requireAuth ==> tokens.inMemory == old(tokens.inMemory)
      ensures requireAuth ==>
        tokens.inMemory == (if CachedAccess(old(tokens.inMemory), tokens.browser.local).Some?
                            then CachedAccess(old(tokens.inMemory), tokens.browser.local) else old(tokens.inMemory))
      ensures |old(net.sent)| < |net.sent| <= |old(net.sent)| + MaxRetries + 1
      ensures forall i :: |old(net.sent)| <= i < |net.sent| ==>
        net.sent[i] == Http.Request(ResolveUrl(baseURL, endpoint), options.verb,
          Http.PrepareHeaders(options, if requireAuth then CachedAccess(old(tokens.inMemory), tokens.browser.local) else None),
          options.body, true)
      ensures r == RetryRun(old(net.pending), MaxRetries, 0).0
      ensures net.pending == DropOutcomes(old(net.pending), |net.sent| - |old(net.sent)|)
      ensures r.Returned? ==> exists k | 0 <= k < |net.sent| - |old(net.sent)| ::
        NthOutcome(old(net.pending), k) == Received(r.response)
    {
      var headers := PrepareHeaders(options, requireAuth);
      ghost var cached := tokens.inMemory;
      var request := Http.Request(ResolveUrl(baseURL, endpoint), options.verb, headers, options.body, true);
      var delays;
      r, delays := FetchWithRetry(net, request, MaxRetries);
      assert tokens.inMemory == cached;
    }

    /** The verb methods: `request`, then `handleResponse`; a network failure propagates. */
    method Call(net: Network, v: Verb, endpoint: string, data: Data, options: Options) returns (r: Result<Body, JsError>)
      requires Valid()
      modifies tokens, net
      ensures Valid()
      ensures |old(net.sent)| < |net.sent| <= |old(net.sent)| + MaxRetries + 1
      ensures net.sent[|old(net.sent)|] == Http.Request(ResolveUrl(baseURL, endpoint), VerbMethod(v),
        Http.PrepareHeaders(options.(body := VerbBody(v, data, options)),
          if Authenticated(v) then CachedAccess(old(tokens.inMemory), tokens.browser.local) else None),
        VerbBody(v, data, options), true)
      ensures !Authenticated(v) ==> tokens.inMemory == old(tokens.inMemory)
      ensures Authenticated(v) ==>
        tokens.inMemory == (if CachedAccess(old(tokens.inMemory), tokens.browser.local).Some?
                            then CachedAccess(old(tokens.inMemory), tokens.browser.local) else old(tokens.inMemory))
      ensures r == CallOutcome(old(net.pending))
      ensures net.pending == DropOutcomes(old(net.pending), |net.sent| - |old(net.sent)|)
      ensures r.Ok? ==> exists k | 0 <= k < |net.sent| - |old(net.sent)| ::
        NthOutcome(old(net.pending), k).Received? && HandleResponse(NthOutcome(old(net.pending), k).response) == r
    {
      var attempt := Request(net, endpoint, options.(verb := VerbMethod(v), body := VerbBody(v, data, options)), Authenticated(v));
      match attempt {
        case Returned(response) =>
          r := HandleResponse(response);
        case Thrown(error) =>
          r := Err(error);
      }
    }
  }
}
