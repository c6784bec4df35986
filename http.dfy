/**
 * The values the HTTP layer passes around: header maps, the `Response`
 * record, what one exchange with the server can come back with, and how each
 * build variant of `HttpClient` turns that into a `Response`.
 *
 * The client exists in four builds, chosen at compile time:
 *   - Httplib: `src/http/http_client.cpp`, on cpp-httplib;
 *   - UnifiedPosix: `src/http/unified_http_client.cpp` without `_WIN32`, on cpp-httplib;
 *   - UnifiedWindows: the same file with `_WIN32`, on WinHTTP, keeping the URL's base path;
 *   - WindowsOnly: `src/http/windows_http_client.cpp`, on WinHTTP, without a base path.
 */
module Http {
  import opened Wrappers
  import opened Strings
  import opened Json

  /** `HttpClient::Headers`: a map, so a header name occurs at most once. */
  type Headers = map<string, string>

  /** `HttpClient::Response`. */
  datatype Response = Response(statusCode: int, body: string, headers: Headers, success: bool, error: string)

  datatype Build = Httplib | UnifiedPosix | UnifiedWindows | WindowsOnly
  {
    /** The builds that talk to the server through cpp-httplib. */
    predicate OnHttplib() {
      this == Httplib || this == UnifiedPosix
    }
  }

  const DWORD_MODULUS: int := 0x1_0000_0000

  /**
   * What one exchange with the server comes back with. The first two are
   * what cpp-httplib can give, the others what WinHTTP can give; which one
   * occurs is decided by the network and is a parameter of the model.
   */
  datatype Exchange =
    | Replied(status: int, body: string, headers: Headers)
      /** cpp-httplib returned no result; `error` is `httplib::to_string` of its error code. */
    | NoResult(error: string)
      /** `WinHttpOpen` failed. */
    | SessionFailed
      /** `WinHttpConnect` failed. */
    | ConnectFailed
      /** `WinHttpOpenRequest` failed; the response's status code is left uninitialised and is `garbage` here. */
    | OpenRequestFailed(garbage: int)
      /** `WinHttpSendRequest` or `WinHttpReceiveResponse` failed; the status code is `garbage`. */
    | SendFailed(garbage: int)
    | Threw(what: string)

  /** Which exchanges a build's library can produce; a WinHTTP status is a 32-bit `DWORD`. */
  predicate Yields(b: Build, e: Exchange) {
    if b.OnHttplib() then e.Replied? || e.NoResult?
    else !e.NoResult? && (e.Replied? ==> 0 <= e.status < DWORD_MODULUS)
  }

  /** A request as it leaves the client: verb, target path, headers and JSON body. */
  datatype Request = Request(verb: string, target: string, headers: Headers, body: Option<Json>)

  predicate IsSuccessStatus(status: int) {
    200 <= status < 300
  }

  /** The response cpp-httplib's reply becomes: success iff 2xx, and otherwise an error naming the status and body. */
  function HttplibReply(status: int, body: string, headers: Headers): (r: Response)
    ensures r.statusCode == status && r.body == body && r.headers == headers
    ensures r.success <==> IsSuccessStatus(status)
    ensures r.success <==> r.error == ""
  {
    var ok := IsSuccessStatus(status);
    Response(status, body, headers, ok, if ok then "" else "HTTP " + IntToString(status) + ": " + body)
  }

  /** The error of a failed httplib reply starts with "HTTP ", and `std::stoi` reads the status back from what follows. */
  lemma HttplibErrorNamesStatus(status: int, body: string, headers: Headers)
    requires !IsSuccessStatus(status) && INT_MIN <= status <= INT_MAX
    ensures var e := HttplibReply(status, body, headers).error;
            |e| > 5 && e[..5] == "HTTP " && Stoi(e[5..]) == Success(status)
  {
    var e := HttplibReply(status, body, headers).error;
    assert e[5..] == IntToString(status) + (": " + body);
    StoiOfIntToString(status, ": " + body);
  }

  /** A transport failure: status 0, empty body and headers, not a success. */
  function ConnectionFailure(error: string): (r: Response)
    ensures r.statusCode == 0 && r.body == "" && r.headers == map[] && !r.success && r.error == error
  {
    Response(0, "", map[], false, error)
  }

  /**
   * The response WinHTTP's reply becomes: the status is the `DWORD` read
   * back (converted to `int`, wrapping above 2^31 - 1); success iff 2xx;
   * the error "HTTP <code>" only when the reply is not a success and its
   * body is empty; the server's headers are not collected.
   */
  function WinHttpReply(status: int, body: string): (r: Response)
    requires 0 <= status < DWORD_MODULUS
    ensures r.success <==> IsSuccessStatus(status)
    ensures r.error != "" <==> !r.success && body == ""
    ensures status <= INT_MAX ==> r.statusCode == status
    ensures r.body == body && r.headers == map[]
  {
    var ok := IsSuccessStatus(status);
    var code := if status <= INT_MAX then status else status - DWORD_MODULUS;
    Response(code, body, map[], ok, if !ok && body == "" then "HTTP " + NatToString(status) else "")
  }

  /** A failed WinHTTP call before any reply: body and headers empty, status whatever the memory held. */
  function WinHttpEarlyFailure(garbage: int, error: string): (r: Response)
    ensures !r.success && r.error == error && r.body == "" && r.statusCode == garbage
  {
    Response(garbage, "", map[], false, error)
  }

  /**
   * Whether the retry loop returns this response at once: a success, or a
   * client error (4xx) other than 429 Too Many Requests.
   */
  predicate StopsRetry(r: Response) {
    r.success || (400 <= r.statusCode < 500 && r.statusCode != 429)
  }

  /** Transport failures, 429 and 5xx replies are retried; other 4xx and 2xx replies are not. */
  lemma RetryClassification(status: int, body: string, headers: Headers, error: string)
    ensures !StopsRetry(ConnectionFailure(error))
    ensures StopsRetry(HttplibReply(status, body, headers)) <==>
              IsSuccessStatus(status) || (400 <= status < 500 && status != 429)
    ensures status == 429 || 300 <= status < 400 || status >= 500 ==> !StopsRetry(HttplibReply(status, body, headers))
  {
  }

  /** `1 << n` on a 32-bit `int`: 2^n below 31, INT_MIN at 31; above, the count is taken modulo 32, as x86 does. */
  function ShiftOne(n: nat): (v: int)
    ensures n < 31 ==> v == Pow2(n)
  {
    var k := n % 32;
    if k < 31 then Pow2(k) else INT_MIN
  }

  function Pow2(n: nat): (p: nat)
    ensures p >= 1
  {
    if n == 0 then 1 else 2 * Pow2(n - 1)
  }

  /** The delay after failed attempt `n`: `retry_delay_ms_ * (1 << n)` in `size_t` arithmetic. */
  function BackoffDelay(base: SizeT, n: nat): SizeT {
    ToSizeT(base * ToSizeT(ShiftOne(n)))
  }

  /** The delays slept after attempts 0 .. count - 1. */
  function Backoff(base: SizeT, count: nat): (ds: seq<SizeT>)
    ensures |ds| == count
    ensures forall n :: 0 <= n < count ==> ds[n] == BackoffDelay(base, n)
  {
    if count == 0 then [] else Backoff(base, count - 1) + [BackoffDelay(base, count - 1)]
  }

  /** While it fits in `size_t`, the delay after attempt n is base * 2^n, so each is twice the one before. */
  lemma BackoffExponential(base: SizeT, n: nat)
    requires n < 31 && base * Pow2(n) < SIZE_T_MODULUS
    ensures BackoffDelay(base, n) == base * Pow2(n)
    ensures n > 0 ==> BackoffDelay(base, n) == 2 * BackoffDelay(base, n - 1)
  {
    DelayWithoutWrap(base, n);
    if n > 0 {
      Doubling(base, Pow2(n - 1));
      DelayWithoutWrap(base, n - 1);
    }
  }

  lemma Doubling(a: nat, p: nat)
    ensures a * (2 * p) == 2 * (a * p)
    ensures a * p <= a * (2 * p)
  {
  }

  lemma DelayWithoutWrap(base: SizeT, n: nat)
    requires n < 31 && base * Pow2(n) < SIZE_T_MODULUS
    ensures BackoffDelay(base, n) == base * Pow2(n)
  {
    var p := Pow2(n);
    assert ShiftOne(n) == p;
    if base > 0 {
      MulAtLeast(base, p);
      assert ToSizeT(p) == p;
    } else {
      assert base * ToSizeT(ShiftOne(n)) == 0;
    }
    assert ToSizeT(base * p) == base * p;
  }

  lemma MulAtLeast(a: nat, b: nat)
    requires a >= 1
    ensures b <= a * b
  {
    assert a * b == b + (a - 1) * b;
  }

  /** With the default delay of 1000 ms and three retries, a request that never succeeds sleeps 1000 ms, then 2000 ms. */
  lemma DefaultBackoff()
    ensures Backoff(1000, 2) == [1000, 2000]
  {
    BackoffExponential(1000, 1);
  }

  /**
   * The first attempt below `bound` whose response stops the retry loop.
   */
  function FirstStop(attempt: nat -> Response, bound: nat): (j: Option<nat>)
    ensures j.Some? ==> j.value < bound && StopsRetry(attempt(j.value))
    ensures j.Some? ==> forall i :: 0 <= i < j.value ==> !StopsRetry(attempt(i))
    ensures j.None? ==> forall i :: 0 <= i < bound ==> !StopsRetry(attempt(i))
  {
    if bound == 0 then None
    else
      var earlier := FirstStop(attempt, bound - 1);
      if earlier.Some? then earlier
      else if StopsRetry(attempt(bound - 1)) then Some(bound - 1)
      else None
  }
}
