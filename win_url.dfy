/**
 * How the WinHTTP wrapper (`WinHttpClient`'s constructor) splits the base URL
 * into scheme, host, port and base path before it connects.
 */
module WinUrl {
  import opened Wrappers
  import opened Strings

  const HTTPS_PORT: int := 443
  const HTTP_PORT: int := 80

  /**
   * The parsed base URL. `port` is None when the URL has neither a known
   * scheme nor an explicit port: the C++ member is then left uninitialised.
   */
  datatype Endpoint = Endpoint(host: string, port: Option<int>, basePath: string, isHttps: bool)

  predicate HasPrefix(s: string, p: string) {
    |p| <= |s| && s[..|p|] == p
  }

  /** The text after "https://" or "http://", or the whole URL when it has neither prefix. */
  function AfterScheme(url: string): string {
    if HasPrefix(url, "https://") then url[8..]
    else if HasPrefix(url, "http://") then url[7..]
    else url
  }

  /** The port the scheme implies, if any. */
  function SchemePort(url: string): Option<int> {
    if HasPrefix(url, "https://") then Some(HTTPS_PORT)
    else if HasPrefix(url, "http://") then Some(HTTP_PORT)
    else None
  }

  /** The `what()` text of the exception `std::stoi` throws, as the Microsoft library words it. */
  function StoiMessage(e: NumberError): string {
    match e
    case InvalidArgument => "invalid stoi argument"
    case OutOfRange => "stoi argument out of range"
  }

  /** Whether a ':' occurs in `rest` before its first '/' (or anywhere, when it has no '/'). */
  predicate HasExplicitPort(rest: string) {
    var colon := FindChar(rest, ':');
    var slash := FindChar(rest, '/');
    colon.Some? && (slash.None? || colon.value < slash.value)
  }

  /** The text between that ':' and the first '/' (or the end). */
  function PortText(rest: string): string
    requires HasExplicitPort(rest)
  {
    var colon := FindChar(rest, ':').value;
    var slash := FindChar(rest, '/');
    rest[colon + 1..if slash.Some? then slash.value else |rest|]
  }

  /**
   * The URL split as the constructor splits it, or the text of the
   * exception `std::stoi` throws out of the constructor.
   */
  function ParseUrl(url: string): (r: Result<Endpoint, string>)
    ensures r.Success? ==> r.value.isHttps == HasPrefix(url, "https://")
    ensures r.Failure? ==> FindChar(AfterScheme(url), ':').Some?
  {
    var isHttps := HasPrefix(url, "https://");
    var rest := AfterScheme(url);
    var colon := FindChar(rest, ':');
    var slash := FindChar(rest, '/');
    var basePath := if slash.Some? then rest[slash.value..] else "";
    if colon.Some? && (slash.None? || colon.value < slash.value) then
      var host := rest[..colon.value];
      var portEnd := if slash.Some? then slash.value else |rest|;
      var parsed := Stoi(rest[colon.value + 1..portEnd]);
      if parsed.Failure? then Failure(StoiMessage(parsed.error))
      else Success(Endpoint(host, Some(parsed.value), basePath, isHttps))
    else
      var host := if slash.Some? then rest[..slash.value] else rest;
      Success(Endpoint(host, SchemePort(url), basePath, isHttps))
  }

  /**
   * The split fails, with the text of the exception that escapes the
   * constructor, exactly when an explicit port does not read as a 32-bit
   * integer.
   */
  lemma ParseUrlFailure(url: string)
    ensures var rest := AfterScheme(url);
            ParseUrl(url).Failure? <==> HasExplicitPort(rest) && Stoi(PortText(rest)).Failure?
    ensures ParseUrl(url).Failure? ==> ParseUrl(url).error == StoiMessage(Stoi(PortText(AfterScheme(url))).error)
  {
  }

  /**
   * What a successful split means: the host holds neither ':' nor '/', the
   * base path is empty or starts with '/', and the text after the scheme is
   * the host, then the explicit port (if any), then the base path; the port
   * is the explicit one if present, else the scheme's.
   */
  lemma ParseUrlShape(url: string)
    requires ParseUrl(url).Success?
    ensures var rest := AfterScheme(url);
            var e := ParseUrl(url).value;
            && (e.isHttps <==> HasPrefix(url, "https://"))
            && ':' !in e.host && '/' !in e.host
            && (e.basePath == "" || e.basePath[0] == '/')
            && (HasExplicitPort(rest) ==>
                  rest == e.host + ":" + PortText(rest) + e.basePath
                  && e.port == Some(Stoi(PortText(rest)).value))
            && (!HasExplicitPort(rest) ==> rest == e.host + e.basePath && e.port == SchemePort(url))
  {
    var rest := AfterScheme(url);
    if HasExplicitPort(rest) {
      ExplicitPortShape(url, rest);
    } else {
      SchemePortShape(url, rest);
    }
  }

  lemma ExplicitPortShape(url: string, rest: string)
    requires rest == AfterScheme(url) && HasExplicitPort(rest) && Stoi(PortText(rest)).Success?
    ensures var e := ParseUrl(url).value;
            && ':' !in e.host && '/' !in e.host
            && (e.basePath == "" || e.basePath[0] == '/')
            && rest == e.host + ":" + PortText(rest) + e.basePath
            && e.port == Some(Stoi(PortText(rest)).value)
  {
    var colon := FindChar(rest, ':').value;
    var slash := FindChar(rest, '/');
    var portEnd := if slash.Some? then slash.value else |rest|;
    var basePath := if slash.Some? then rest[slash.value..] else "";
    assert PortText(rest) == rest[colon + 1..portEnd];
    assert ParseUrl(url).value == Endpoint(rest[..colon], Some(Stoi(PortText(rest)).value), basePath, HasPrefix(url, "https://"));
    NoneInPrefix(rest, colon, ':');
    NoneInPrefix(rest, colon, '/');
    assert rest[colon..colon + 1] == ":";
    SplitThree(rest, colon, colon + 1, portEnd);
  }

  lemma SplitThree(s: string, i: nat, j: nat, k: nat)
    requires i <= j <= k <= |s|
    ensures s == s[..i] + s[i..j] + s[j..k] + s[k..]
  {
    assert s[..j] == s[..i] + s[i..j];
    assert s[..k] == s[..j] + s[j..k];
    assert s == s[..k] + s[k..];
  }

  lemma SchemePortShape(url: string, rest: string)
    requires rest == AfterScheme(url) && !HasExplicitPort(rest)
    ensures var e := ParseUrl(url).value;
            && ':' !in e.host && '/' !in e.host
            && (e.basePath == "" || e.basePath[0] == '/')
            && rest == e.host + e.basePath && e.port == SchemePort(url)
  {
    var slash := FindChar(rest, '/');
    var cut := if slash.Some? then slash.value else |rest|;
    assert ParseUrl(url).value == Endpoint(rest[..cut], SchemePort(url), rest[cut..], HasPrefix(url, "https://"));
    NoneInPrefix(rest, cut, ':');
    NoneInPrefix(rest, cut, '/');
    assert rest == rest[..cut] + rest[cut..];
  }

  lemma NoneInPrefix(s: string, k: nat, c: char)
    requires k <= |s|
    requires forall q :: 0 <= q < k ==> s[q] != c
    ensures c !in s[..k]
  {
    assert forall q :: 0 <= q < k ==> s[..k][q] == s[q];
  }

  /** The scheme prefix the constructor recognises. */
  function SchemeText(isHttps: bool): string {
    if isHttps then "https://" else "http://"
  }

  /** A URL assembled from a scheme, a host and a path (no port) parses back to those parts and the scheme's port. */
  lemma ParseUrlWithoutPort(isHttps: bool, host: string, path: string)
    requires ':' !in host && '/' !in host
    requires path == "" || path[0] == '/'
    ensures ParseUrl(SchemeText(isHttps) + host + path)
            == Success(Endpoint(host, Some(if isHttps then HTTPS_PORT else HTTP_PORT), path, isHttps))
  {
    var url := SchemeText(isHttps) + host + path;
    var rest := host + path;
    assert url == SchemeText(isHttps) + rest;
    SchemeOf(isHttps, rest);
    SlashAfter(host, path);
    ColonAbsentBefore(host, path);
    assert !HasExplicitPort(rest);
    ParseUrlFailure(url);
    ParseUrlShape(url);
    var e := ParseUrl(url).value;
    SlashAfter(e.host, e.basePath);
    assert |e.host| == |host|;
    assert host == rest[..|host|] && path == rest[|host|..];
    assert e.host == rest[..|host|] && e.basePath == rest[|host|..];
  }

  /** A URL with an explicit port parses back to its host, that port and its path, whatever the scheme. */
  lemma ParseUrlWithPort(isHttps: bool, host: string, port: int, path: string)
    requires ':' !in host && '/' !in host
    requires 0 <= port <= INT_MAX
    requires path == "" || path[0] == '/'
    ensures ParseUrl(SchemeText(isHttps) + host + ":" + IntToString(port) + path)
            == Success(Endpoint(host, Some(port), path, isHttps))
  {
    var digits := IntToString(port);
    var url := SchemeText(isHttps) + host + ":" + digits + path;
    var rest := host + ":" + digits + path;
    assert url == SchemeText(isHttps) + rest;
    SchemeOf(isHttps, rest);
    PortSplit(host, digits, path);
    StoiOfIntToString(port, []);
    assert digits + [] == digits;
    ParseUrlFailure(url);
    ParseUrlShape(url);
    var e := ParseUrl(url).value;
    SameSplitAtColon(host, digits, path, e.host, e.basePath);
  }

  lemma SameSplitAtColon(host: string, digits: string, path: string, host2: string, path2: string)
    requires ':' !in host && ':' !in host2
    requires host + ":" + digits + path == host2 + ":" + digits + path2
    ensures host == host2 && path == path2
  {
    var rest := host + ":" + digits + path;
    ColonAt(host, digits + path);
    ColonAt(host2, digits + path2);
    assert host + ":" + (digits + path) == rest;
    assert host2 + ":" + (digits + path2) == rest;
    var n := |host| + 1 + |digits|;
    assert host == rest[..|host|] && path == rest[n..];
    assert host2 == rest[..|host|] && path2 == rest[n..];
  }

  lemma SchemeOf(isHttps: bool, rest: string)
    ensures AfterScheme(SchemeText(isHttps) + rest) == rest
    ensures HasPrefix(SchemeText(isHttps) + rest, "https://") == isHttps
    ensures SchemePort(SchemeText(isHttps) + rest) == Some(if isHttps then HTTPS_PORT else HTTP_PORT)
  {
    var url := SchemeText(isHttps) + rest;
    if isHttps {
      assert url[..8] == "https://";
      assert url[8..] == rest;
    } else {
      assert url[..7] == "http://";
      assert url[7..] == rest;
      assert url[4] == ':' && "https://"[4] == 's';
    }
  }

  /** In host + path, with no '/' in host and path empty or starting with '/', the first '/' is where path starts. */
  lemma SlashAfter(host: string, path: string)
    requires '/' !in host
    requires path == "" || path[0] == '/'
    ensures FindChar(host + path, '/') == if path == "" then None else Some(|host|)
  {
    var rest := host + path;
    assert forall q :: 0 <= q < |host| ==> rest[q] == host[q];
    if path == "" {
      assert rest == host;
    } else {
      FindCharAt(rest, '/', |host|);
    }
  }

  /** With no ':' in host, a ':' in host + path can only lie inside path. */
  lemma ColonAbsentBefore(host: string, path: string)
    requires ':' !in host
    ensures FindChar(host + path, ':').Some? ==> FindChar(host + path, ':').value >= |host|
  {
    var rest := host + path;
    assert forall q :: 0 <= q < |host| ==> rest[q] == host[q];
  }

  /** With no ':' in host, the first ':' of host ":" tail is the one after host. */
  lemma ColonAt(host: string, tail: string)
    requires ':' !in host
    ensures FindChar(host + ":" + tail, ':') == Some(|host|)
  {
    var rest := host + ":" + tail;
    assert forall q :: 0 <= q < |host| ==> rest[q] == host[q];
    FindCharAt(rest, ':', |host|);
  }

  /** In host ":" digits path, the first ':' ends the host and the port text is the digits. */
  lemma PortSplit(host: string, digits: string, path: string)
    requires ':' !in host && '/' !in host && AllDigits(digits)
    requires path == "" || path[0] == '/'
    ensures HasExplicitPort(host + ":" + digits + path)
    ensures PortText(host + ":" + digits + path) == digits
  {
    var rest := host + ":" + digits + path;
    var front := host + ":" + digits;
    assert rest == front + path;
    ColonAt(host, digits + path);
    assert host + ":" + (digits + path) == rest;
    assert '/' !in front by {
      assert forall q :: 0 <= q < |host| ==> front[q] == host[q];
      assert forall q :: |host| < q < |front| ==> front[q] == digits[q - |host| - 1];
      assert forall q :: 0 <= q < |digits| ==> IsDigit(digits[q]);
    }
    SlashAfter(front, path);
    assert rest[|host| + 1..|front|] == digits;
  }
}
