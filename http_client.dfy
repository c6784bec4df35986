/**
 * `llm::HttpClient`: the transport the provider adapters post through. It
 * keeps a base URL, an optional bearer token, a timeout and the retry
 * settings; `post` and `get` run one request per attempt through the retry
 * loop; `post_stream` hands the answer to a callback.
 *
 * Each exchange with the server is a parameter, `replies(n)` being what
 * attempt n comes back with; the sleeps between attempts are returned as the
 * list of requested delays.
 */
module HttpClients {
  import opened Wrappers
  import opened Strings
  import opened Json
  import opened Http
  import opened WinUrl
  import opened Sse

  const DEFAULT_TIMEOUT_SEC: SizeT := 30
  const DEFAULT_RETRY_COUNT: SizeT := 3
  const DEFAULT_RETRY_DELAY_MS: SizeT := 1000

  const CONTENT_TYPE: string := "Content-Type"
  const ACCEPT: string := "Accept"
  const AUTHORIZATION: string := "Authorization"
  const APPLICATION_JSON: string := "application/json"
  const EVENT_STREAM: string := "text/event-stream"

  /**
   * What a call of the retry loop did: the attempt that stopped it (a success
   * or a 4xx other than 429) is returned after j + 1 calls and j sleeps;
   * when none of the `retryCount` loop attempts stops it, one more call is
   * made after the loop and its response is returned, with a sleep after
   * every loop attempt but the last.
   */
  ghost predicate RetryOutcome(requestFn: nat -> Response, retryCount: nat, delayMs: SizeT,
                               r: Response, calls: nat, sleeps: seq<SizeT>)
  {
    match FirstStop(requestFn, retryCount)
    case Some(j) => r == requestFn(j) && calls == j + 1 && sleeps == Backoff(delayMs, j)
    case None =>
      && r == requestFn(retryCount) && calls == retryCount + 1
      && sleeps == Backoff(delayMs, if retryCount > 0 then retryCount - 1 else 0)
  }

  /** The response the retry loop returns: that of the attempt that stops it, or that of the call after the loop. */
  function RetryReply(requestFn: nat -> Response, retryCount: nat): Response {
    match FirstStop(requestFn, retryCount)
    case Some(j) => requestFn(j)
    case None => requestFn(retryCount)
  }

  /** With `retry_count` 0 the loop body never runs: one call, no sleep. */
  lemma RetryWithoutRetries(requestFn: nat -> Response, delayMs: SizeT, r: Response, calls: nat, sleeps: seq<SizeT>)
    requires RetryOutcome(requestFn, 0, delayMs, r, calls, sleeps)
    ensures calls == 1 && r == requestFn(0) && sleeps == []
  {
  }

  /**
   * The returned response is the last one requested; it stops the loop or
   * it is the extra call after the loop; there is never a sleep after the
   * last call.
   */
  lemma RetryReturnsLastCall(requestFn: nat -> Response, retryCount: nat, delayMs: SizeT,
                             r: Response, calls: nat, sleeps: seq<SizeT>)
    requires RetryOutcome(requestFn, retryCount, delayMs, r, calls, sleeps)
    ensures 1 <= calls <= retryCount + 1 && r == requestFn(calls - 1)
    ensures StopsRetry(r) || calls == retryCount + 1
    ensures |sleeps| < calls
    ensures forall i :: 0 <= i < calls - 1 ==> !StopsRetry(requestFn(i))
    ensures forall n :: 0 <= n < |sleeps| ==> sleeps[n] == BackoffDelay(delayMs, n)
  {
  }

  /**
   * With the default settings (3 retries, 1000 ms), a request that always
   * fails with a retryable response is made 4 times, with sleeps of 1000 ms
   * and 2000 ms.
   */
  lemma DefaultRetryAllFail(requestFn: nat -> Response, r: Response, calls: nat, sleeps: seq<SizeT>)
    requires forall n :: 0 <= n < 3 ==> !StopsRetry(requestFn(n))
    requires RetryOutcome(requestFn, DEFAULT_RETRY_COUNT, DEFAULT_RETRY_DELAY_MS, r, calls, sleeps)
    ensures calls == 4 && r == requestFn(3) && sleeps == [1000, 2000]
  {
    DefaultBackoff();
  }

  /** What one POST attempt (`request_fn` in `post`) returns in each build. */
  function AttemptPost(b: Build, baseUrl: string, endpoint: string, e: Exchange): (r: Response)
    requires Yields(b, e)
    ensures b.OnHttplib() && e.Replied? ==> r == HttplibReply(e.status, e.body, e.headers)
    ensures b.OnHttplib() && e.NoResult? ==>
              r == ConnectionFailure(if b == Httplib then "Connection failed: " + e.error
                                     else "Connection failed to " + baseUrl + endpoint)
    ensures !b.OnHttplib() ==> r == WinHttpAttempt(baseUrl, e)
  {
    match e
    case Replied(status, body, headers) =>
      if b.OnHttplib() then HttplibReply(status, body, headers) else WinHttpAttempt(baseUrl, e)
    case NoResult(error) =>
      ConnectionFailure(if b == Httplib then "Connection failed: " + error else "Connection failed to " + baseUrl + endpoint)
    case _ => WinHttpAttempt(baseUrl, e)
  }

  /**
   * One request through a fresh `WinHttpClient`: its constructor parses the
   * base URL, opens the session and connects, and any exception it or the
   * request throws becomes a connection failure "Connection failed: " + what.
   */
  function WinHttpAttempt(baseUrl: string, e: Exchange): (r: Response)
    requires !e.NoResult? && (e.Replied? ==> 0 <= e.status < DWORD_MODULUS)
    ensures ParseUrl(baseUrl).Failure? ==> r == ConnectionFailure("Connection failed: " + ParseUrl(baseUrl).error)
    ensures e.Replied? && ParseUrl(baseUrl).Success? ==> r == WinHttpReply(e.status, e.body)
  {
    match ParseUrl(baseUrl)
    case Failure(what) => ConnectionFailure("Connection failed: " + what)
    case Success(ep) =>
      match e
      case SessionFailed => ConnectionFailure("Connection failed: Failed to initialize WinHTTP")
      case ConnectFailed => ConnectionFailure("Connection failed: Failed to connect to " + ep.host)
      case OpenRequestFailed(garbage) => WinHttpEarlyFailure(garbage, "Failed to create request")
      case SendFailed(garbage) => WinHttpEarlyFailure(garbage, "Failed to send request")
      case Threw(what) => ConnectionFailure("Connection failed: " + what)
      case Replied(status, body, _) => WinHttpReply(status, body)
  }

  /** What one GET attempt returns; the Windows-only build has no GET and answers without a request. */
  function AttemptGet(b: Build, baseUrl: string, endpoint: string, e: Exchange): (r: Response)
    requires Yields(b, e)
    ensures b == WindowsOnly ==> r == ConnectionFailure("GET not implemented")
    ensures b != WindowsOnly ==> r == AttemptPost(b, baseUrl, endpoint, e)
  {
    if b == WindowsOnly then ConnectionFailure("GET not implemented") else AttemptPost(b, baseUrl, endpoint, e)
  }

  /** The path the request goes to: the endpoint, prefixed by the URL's base path in the unified WinHTTP build. */
  function RequestTarget(b: Build, baseUrl: string, endpoint: string): (t: Option<string>)
    ensures b.OnHttplib() ==> t == Some(endpoint)
    ensures !b.OnHttplib() ==> (t.None? <==> ParseUrl(baseUrl).Failure?)
    ensures b == UnifiedWindows && t.Some? ==> t.value == ParseUrl(baseUrl).value.basePath + endpoint
    ensures b == WindowsOnly && t.Some? ==> t.value == endpoint
  {
    if b.OnHttplib() then Some(endpoint)
    else
      match ParseUrl(baseUrl)
      case Failure(_) => None
      case Success(ep) => Some(if b == UnifiedWindows then ep.basePath + endpoint else endpoint)
  }

  const GROQ_BASE_URL: string := "https://api.groq.com/openai/v1"
  const CHAT_COMPLETIONS: string := "/chat/completions"

  /**
   * In the unified WinHTTP build a request reaches the path of base URL +
   * endpoint on the URL's host, whatever path the base URL has.
   */
  lemma UnifiedTargetKeepsBasePath(isHttps: bool, host: string, path: string, endpoint: string)
    requires ':' !in host && '/' !in host
    requires path == "" || path[0] == '/'
    ensures var url := SchemeText(isHttps) + host + path;
            && RequestTarget(UnifiedWindows, url, endpoint) == Some(path + endpoint)
            && SchemeText(isHttps) + host + (path + endpoint) == url + endpoint
  {
    var url := SchemeText(isHttps) + host + path;
    ParseUrlWithoutPort(isHttps, host, path);
    TargetOfParsed(UnifiedWindows, url, endpoint, Endpoint(host, Some(if isHttps then HTTPS_PORT else HTTP_PORT), path, isHttps));
    ConcatAssoc(SchemeText(isHttps) + host, path, endpoint);
  }

  /**
   * In the Windows-only build the base URL's path is dropped: the request
   * goes to the bare endpoint, which names a different resource than base
   * URL + endpoint whenever the base URL has a path.
   */
  lemma WindowsOnlyDropsBasePath(isHttps: bool, host: string, path: string, endpoint: string)
    requires ':' !in host && '/' !in host
    requires path != "" && path[0] == '/'
    ensures var url := SchemeText(isHttps) + host + path;
            && RequestTarget(WindowsOnly, url, endpoint) == Some(endpoint)
            && SchemeText(isHttps) + host + endpoint != url + endpoint
  {
    var url := SchemeText(isHttps) + host + path;
    ParseUrlWithoutPort(isHttps, host, path);
    TargetOfParsed(WindowsOnly, url, endpoint, Endpoint(host, Some(if isHttps then HTTPS_PORT else HTTP_PORT), path, isHttps));
    assert |SchemeText(isHttps) + host + endpoint| < |url + endpoint|;
  }

  lemma ConcatAssoc(a: string, b: string, c: string)
    ensures a + (b + c) == a + b + c
  {
  }

  lemma TargetOfParsed(b: Build, url: string, endpoint: string, ep: Endpoint)
    requires !b.OnHttplib() && ParseUrl(url) == Success(ep)
    ensures RequestTarget(b, url, endpoint) == Some(if b == UnifiedWindows then ep.basePath + endpoint else endpoint)
  {
  }

  /** The Groq chat endpoint: "/openai/v1/chat/completions" in the unified build, "/chat/completions" in the Windows-only one. */
  lemma GroqChatTarget()
    ensures RequestTarget(UnifiedWindows, GROQ_BASE_URL, CHAT_COMPLETIONS) == Some("/openai/v1" + CHAT_COMPLETIONS)
    ensures RequestTarget(WindowsOnly, GROQ_BASE_URL, CHAT_COMPLETIONS) == Some(CHAT_COMPLETIONS)
  {
    assert GROQ_BASE_URL == SchemeText(true) + "api.groq.com" + "/openai/v1";
    UnifiedTargetKeepsBasePath(true, "api.groq.com", "/openai/v1", CHAT_COMPLETIONS);
    WindowsOnlyDropsBasePath(true, "api.groq.com", "/openai/v1", CHAT_COMPLETIONS);
  }

  class HttpClient {
    const build: Build
    const baseUrl: string
    var bearerToken: Option<string>
    var timeoutSec: SizeT
    var retryCount: SizeT
    var retryDelayMs: SizeT

    /** No token; 3 retries 1000 ms apart; a 30-second timeout unless one is given. */
    constructor(build: Build, baseUrl: string, timeoutSec: SizeT := DEFAULT_TIMEOUT_SEC)
      ensures this.build == build && this.baseUrl == baseUrl && this.timeoutSec == timeoutSec
      ensures bearerToken == None && retryCount == DEFAULT_RETRY_COUNT && retryDelayMs == DEFAULT_RETRY_DELAY_MS
    {
      this.build := build;
      this.baseUrl := baseUrl;
      this.timeoutSec := timeoutSec;
      bearerToken := None;
      retryCount := DEFAULT_RETRY_COUNT;
      retryDelayMs := DEFAULT_RETRY_DELAY_MS;
    }

    /** Stores the token, even an empty one: presence, not content, decides whether it is sent. */
    method SetBearerToken(token: string)
      modifies this
      ensures bearerToken == Some(token)
      ensures timeoutSec == old(timeoutSec) && retryCount == old(retryCount) && retryDelayMs == old(retryDelayMs)
    {
      bearerToken := Some(token);
    }

    method SetTimeout(seconds: SizeT)
      modifies this
      ensures timeoutSec == seconds
      ensures bearerToken == old(bearerToken) && retryCount == old(retryCount) && retryDelayMs == old(retryDelayMs)
    {
      timeoutSec := seconds;
    }

    method SetRetryCount(count: SizeT)
      modifies this
      ensures retryCount == count
      ensures bearerToken == old(bearerToken) && timeoutSec == old(timeoutSec) && retryDelayMs == old(retryDelayMs)
    {
      retryCount := count;
    }

    method SetRetryDelay(ms: SizeT)
      modifies this
      ensures retryDelayMs == ms
      ensures bearerToken == old(bearerToken) && timeoutSec == old(timeoutSec) && retryCount == old(retryCount)
    {
      retryDelayMs := ms;
    }

    /**
     * `prepare_headers`: the caller's headers, with Content-Type and Accept
     * forced to JSON and, when a token is set, Authorization forced to
     * "Bearer " + token; every other caller header is kept as given.
     */
    function PrepareHeaders(custom: Headers): (h: Headers)
      reads this
      ensures h.Keys == custom.Keys + {CONTENT_TYPE, ACCEPT} + (if bearerToken.Some? then {AUTHORIZATION} else {})
      ensures h[CONTENT_TYPE] == APPLICATION_JSON && h[ACCEPT] == APPLICATION_JSON
      ensures bearerToken.Some? ==> h[AUTHORIZATION] == "Bearer " + bearerToken.value
      ensures forall k :: k in custom && k != CONTENT_TYPE && k != ACCEPT && (k != AUTHORIZATION || bearerToken.None?)
                ==> h[k] == custom[k]
    {
      var h := custom[CONTENT_TYPE := APPLICATION_JSON][ACCEPT := APPLICATION_JSON];
      if bearerToken.Some? then h[AUTHORIZATION := "Bearer " + bearerToken.value] else h
    }

    /**
     * The header block the WinHTTP wrapper adds: Content-Type for a POST,
     * Accept for a GET, and Authorization only for a non-empty token; the
     * caller's headers are not sent.
     */
    function WinHttpHeaders(isPost: bool): (h: Headers)
      reads this
      ensures (CONTENT_TYPE in h <==> isPost) && (ACCEPT in h <==> !isPost)
      ensures AUTHORIZATION in h <==> bearerToken.Some? && bearerToken.value != ""
      ensures AUTHORIZATION in h ==> h[AUTHORIZATION] == "Bearer " + bearerToken.value
      ensures forall k :: k in h ==> h[k] == (if k == AUTHORIZATION then "Bearer " + bearerToken.value else APPLICATION_JSON)
    {
      var h: Headers := if isPost then map[CONTENT_TYPE := APPLICATION_JSON] else map[ACCEPT := APPLICATION_JSON];
      if bearerToken.Some? && bearerToken.value != "" then h[AUTHORIZATION := "Bearer " + bearerToken.value] else h
    }

    /** The headers a POST sends, per build. */
    function PostHeaders(custom: Headers): Headers
      reads this
    {
      if build.OnHttplib() then PrepareHeaders(custom) else WinHttpHeaders(true)
    }

    /**
     * The empty-token header differs between the libraries: cpp-httplib
     * builds send "Authorization: Bearer ", WinHTTP builds send no
     * Authorization header.
     */
    lemma EmptyTokenHeader(custom: Headers)
      requires bearerToken == Some("")
      ensures build.OnHttplib() ==> PostHeaders(custom)[AUTHORIZATION] == "Bearer "
      ensures !build.OnHttplib() ==> AUTHORIZATION !in PostHeaders(custom)
    {
    }

    /**
     * `make_request_with_retry`: up to `retry_count_` attempts, returning the
     * first that succeeds or fails with a 4xx other than 429, sleeping
     * `retry_delay_ms_ * (1 << attempt)` between attempts, and one last
     * attempt after the loop.
     */
    method MakeRequestWithRetry(requestFn: nat -> Response) returns (r: Response, calls: nat, sleeps: seq<SizeT>)
      ensures RetryOutcome(requestFn, retryCount, retryDelayMs, r, calls, sleeps)
    {
      calls := 0;
      sleeps := [];
      var attempt := 0;
      while attempt < retryCount
        invariant 0 <= attempt <= retryCount
        invariant FirstStop(requestFn, attempt).None?
        invariant calls == attempt
        invariant sleeps == Backoff(retryDelayMs, if attempt > 0 && attempt < retryCount then attempt else if attempt > 0 then attempt - 1 else 0)
      {
        var response := requestFn(attempt);
        calls := calls + 1;
        if StopsRetry(response) {
          assert FirstStop(requestFn, attempt + 1) == Some(attempt);
          FirstStopLater(requestFn, attempt + 1, retryCount);
          return response, calls, sleeps;
        }
        if attempt < retryCount - 1 {
          sleeps := sleeps + [BackoffDelay(retryDelayMs, attempt)];
        }
        attempt := attempt + 1;
      }
      r := requestFn(retryCount);
      calls := calls + 1;
    }

    /** `post`: the retry loop over POST attempts. */
    method Post(endpoint: string, data: Json, custom: Headers, replies: nat -> Exchange)
      returns (r: Response, calls: nat, sleeps: seq<SizeT>)
      requires forall n :: Yields(build, replies(n))
      ensures RetryOutcome((n: nat) => AttemptPost(build, baseUrl, endpoint, replies(n)), retryCount, retryDelayMs, r, calls, sleeps)
    {
      var b := build;
      var url := baseUrl;
      r, calls, sleeps := MakeRequestWithRetry((n: nat) => AttemptPost(b, url, endpoint, replies(n)));
    }

    /** `get`: the retry loop over GET attempts; the Windows-only build makes no request at all. */
    method Get(endpoint: string, custom: Headers, replies: nat -> Exchange)
      returns (r: Response, calls: nat, sleeps: seq<SizeT>)
      requires forall n :: Yields(build, replies(n))
      ensures build == WindowsOnly ==> r == ConnectionFailure("GET not implemented") && calls == 0 && sleeps == []
      ensures build != WindowsOnly ==>
                RetryOutcome((n: nat) => AttemptGet(build, baseUrl, endpoint, replies(n)), retryCount, retryDelayMs, r, calls, sleeps)
    {
      if build == WindowsOnly {
        return ConnectionFailure("GET not implemented"), 0, [];
      }
      var b := build;
      var url := baseUrl;
      r, calls, sleeps := MakeRequestWithRetry((n: nat) => AttemptGet(b, url, endpoint, replies(n)));
    }

    /** The headers `post_stream` sends from a cpp-httplib build: those of a POST, but accepting an event stream. */
    function StreamHeaders(custom: Headers): (h: Headers)
      reads this
      ensures h.Keys == PrepareHeaders(custom).Keys
      ensures h[ACCEPT] == EVENT_STREAM && h[CONTENT_TYPE] == APPLICATION_JSON
    {
      PrepareHeaders(custom)[ACCEPT := EVENT_STREAM]
    }

    /**
     * `post_stream`. A cpp-httplib build makes one POST, without retries,
     * and passes the whole body to the callback once, marked done, whenever
     * any reply arrives, 2xx or not. A WinHTTP build goes through `post`,
     * with its retries, and calls back only on success. The body is never
     * split into events.
     */
    method PostStream(endpoint: string, data: Json, custom: Headers, replies: nat -> Exchange)
      returns (callbacks: seq<Callback>, calls: nat, sleeps: seq<SizeT>)
      requires forall n :: Yields(build, replies(n))
      ensures |callbacks| <= 1 && forall i :: 0 <= i < |callbacks| ==> callbacks[i].isDone
      ensures build.OnHttplib() ==>
                calls == 1 && sleeps == []
                && callbacks == (if replies(0).Replied? then [Callback(replies(0).body, true)] else [])
      ensures !build.OnHttplib() ==>
                exists r :: RetryOutcome((n: nat) => AttemptPost(build, baseUrl, endpoint, replies(n)), retryCount, retryDelayMs, r, calls, sleeps)
                         && callbacks == (if r.success then [Callback(r.body, true)] else [])
    {
      if build.OnHttplib() {
        var reply := replies(0);
        callbacks := if reply.Replied? then [Callback(reply.body, true)] else [];
        calls := 1;
        sleeps := [];
      } else {
        var r;
        r, calls, sleeps := Post(endpoint, data, custom, replies);
        callbacks := if r.success then [Callback(r.body, true)] else [];
      }
    }
  }

  /** A stop found among the first attempts stays the first stop when more attempts are allowed. */
  lemma {:induction false} FirstStopLater(requestFn: nat -> Response, k: nat, bound: nat)
    requires k <= bound && FirstStop(requestFn, k).Some?
    ensures FirstStop(requestFn, bound) == FirstStop(requestFn, k)
    decreases bound - k
  {
    if bound > k {
      FirstStopLater(requestFn, k, bound - 1);
    }
  }
}
