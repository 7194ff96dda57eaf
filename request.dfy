/** The request text `start_connection` writes (http_ping.c:509-527): a request line,
    a `Host` header, a fixed `User-Agent` and `Connection: Close`, then the blank line.
    Direct requests use the configured method (or `GET`) and the path; through a proxy
    the request is always `GET` of the absolute URI over HTTP/1.0.  Both `%.500s`
    conversions cut their argument to 500 characters. */
module Request {
  import opened Wrappers
  import opened CStrings
  import opened Url

  /** `sizeof(buf)` in `start_connection`: the text and its terminating NUL must fit. */
  const RequestBufferSize: int := 600

  /** The precision of the `%.500s` conversions. */
  const FieldLimit: nat := 500

  const UserAgentLine: string := "User-Agent: http_ping\r\n"
  const ConnectionLines: string := "Connection: Close\r\n\r\n"

  function SchemeName(p: Protocol): string {
    if p == Http then "http" else "https"
  }

  /** The request target and version: the path, or through a proxy the absolute URI. */
  function Target(u: Url, proxied: bool): string {
    if proxied then
      SchemeName(u.protocol) + "://" + Truncate(u.host, FieldLimit) + ":" + Decimal(u.port) +
      Truncate(u.path, FieldLimit)
    else Truncate(u.path, FieldLimit)
  }

  function Version(proxied: bool): string {
    if proxied then "HTTP/1.0" else "HTTP/1.1"
  }

  /** `method ? method : "GET"`, and always `GET` through a proxy. */
  function MethodName(httpMethod: Option<string>, proxied: bool): string {
    if !proxied && httpMethod.Some? then httpMethod.value else "GET"
  }

  /** `vhost ? vhost : url_host`. */
  function HostValue(u: Url, vhost: Option<string>): string {
    if vhost.Some? then vhost.value else u.host
  }

  /** The whole request as the three `snprintf` calls after the request line append it. */
  function RequestText(u: Url, httpMethod: Option<string>, vhost: Option<string>, proxied: bool): string {
    MethodName(httpMethod, proxied) + " " + Target(u, proxied) + " " + Version(proxied) + "\r\n" +
    "Host: " + HostValue(u, vhost) + "\r\n" + UserAgentLine + ConnectionLines
  }

  /** Whether the composed request fits the 600-byte buffer with its NUL, so that the
      `snprintf` calls write exactly `RequestText`. */
  predicate Fits(u: Url, httpMethod: Option<string>, vhost: Option<string>, proxied: bool) {
    |RequestText(u, httpMethod, vhost, proxied)| < RequestBufferSize
  }

  /** The parts a server reads off a request of this shape. */
  datatype RequestParts = RequestParts(httpMethod: string, target: string, version: string, host: string)

  /** The text before the first `c` and the text after it, if there is one. */
  function Cut(s: string, c: char): (r: Option<(string, string)>)
    ensures r.Some? ==> c !in r.value.0 && s == r.value.0 + [c] + r.value.1
  {
    var i := IndexOf(s, c);
    if i == |s| then None
    else
      assert s == s[..i] + [c] + s[i + 1..];
      IndexOfNotIn(s, c);
      Some((s[..i], s[i + 1..]))
  }

  /** Reference reading of the request: the method up to the first space, the target up
      to the next, the version up to the end of the line, then the `Host` value, and
      exactly the two fixed lines after it. */
  function ParseRequest(text: string): (r: Option<RequestParts>)
    ensures r.Some? ==> ' ' !in r.value.httpMethod && ' ' !in r.value.target
    ensures r.Some? ==> '\r' !in r.value.version && '\r' !in r.value.host
  {
    match Cut(text, ' ')
    case None => None
    case Some((m, rest)) => ParseTarget(m, rest)
  }

  function ParseTarget(m: string, rest: string): (r: Option<RequestParts>)
    ensures r.Some? ==> r.value.httpMethod == m && ' ' !in r.value.target
    ensures r.Some? ==> '\r' !in r.value.version && '\r' !in r.value.host
  {
    match Cut(rest, ' ')
    case None => None
    case Some((t, rest')) => ParseVersion(m, t, rest')
  }

  function ParseVersion(m: string, t: string, rest: string): (r: Option<RequestParts>)
    ensures r.Some? ==> r.value.httpMethod == m && r.value.target == t
    ensures r.Some? ==> '\r' !in r.value.version && '\r' !in r.value.host
  {
    match Cut(rest, '\r')
    case None => None
    case Some((v, rest')) => ParseHost(m, t, v, rest')
  }

  function ParseHost(m: string, t: string, v: string, rest: string): (r: Option<RequestParts>)
    ensures r.Some? ==> r.value.httpMethod == m && r.value.target == t && r.value.version == v
    ensures r.Some? ==> '\r' !in r.value.host
  {
    if !IsPrefix("\nHost: ", rest) then None
    else
      match Cut(rest[7..], '\r')
      case None => None
      case Some((h, rest')) =>
        if rest' != "\n" + UserAgentLine + ConnectionLines then None
        else Some(RequestParts(m, t, v, h))
  }

  lemma IndexOfNotIn(s: string, c: char)
    ensures c !in s[..IndexOf(s, c)]
  {
  }

  /** The request text regrouped around its four separators. */
  lemma Layout(m: string, t: string, v: string, h: string)
    ensures m + " " + t + " " + v + "\r\n" + "Host: " + h + "\r\n" + UserAgentLine + ConnectionLines ==
            m + [' '] + (t + [' '] + (v + ['\r'] + ("\nHost: " + h + ['\r'] +
            ("\n" + UserAgentLine + ConnectionLines))))
  {
  }

  /** Cutting at the first `c` undoes putting `c` after a text without one. */
  lemma CutAt(a: string, b: string, c: char)
    requires c !in a
    ensures Cut(a + [c] + b, c) == Some((a, b))
  {
    var s := a + [c] + b;
    assert s[|a|] == c;
    assert forall j :: 0 <= j < |a| ==> s[j] == a[j];
    assert IndexOf(s, c) == |a|;
    assert s[..|a|] == a;
    assert s[|a| + 1..] == b;
  }

  /** The request reads back as the method, the target, the version and the `Host`
      value it was composed from, whenever none of them contains the separator that
      ends it. */
  lemma ParseRequestText(u: Url, httpMethod: Option<string>, vhost: Option<string>, proxied: bool)
    requires ' ' !in MethodName(httpMethod, proxied) && ' ' !in Target(u, proxied)
    requires '\r' !in HostValue(u, vhost)
    ensures ParseRequest(RequestText(u, httpMethod, vhost, proxied)) ==
            Some(RequestParts(MethodName(httpMethod, proxied), Target(u, proxied), Version(proxied),
                              HostValue(u, vhost)))
  {
    var v := Version(proxied);
    assert '\r' !in v by {
      if proxied { assert v == "HTTP/1.0"; } else { assert v == "HTTP/1.1"; }
    }
    ParseLines(MethodName(httpMethod, proxied), Target(u, proxied), v, HostValue(u, vhost));
  }

  lemma ParseLines(m: string, t: string, v: string, h: string)
    requires ' ' !in m && ' ' !in t && '\r' !in v && '\r' !in h
    ensures ParseRequest(m + " " + t + " " + v + "\r\n" + "Host: " + h + "\r\n" +
                         UserAgentLine + ConnectionLines) ==
            Some(RequestParts(m, t, v, h))
  {
    var rest4 := "\n" + UserAgentLine + ConnectionLines;
    var rest3 := "\nHost: " + h + ['\r'] + rest4;
    var rest2 := v + ['\r'] + rest3;
    var rest1 := t + [' '] + rest2;
    ParseHostLine(m, t, v, h, rest4);
    CutAt(v, rest3, '\r');
    CutAt(t, rest2, ' ');
    Layout(m, t, v, h);
    CutAt(m, rest1, ' ');
  }

  lemma ParseHostLine(m: string, t: string, v: string, h: string, rest4: string)
    requires '\r' !in h && rest4 == "\n" + UserAgentLine + ConnectionLines
    ensures ParseHost(m, t, v, "\nHost: " + h + ['\r'] + rest4) == Some(RequestParts(m, t, v, h))
  {
    var rest3 := "\nHost: " + h + ['\r'] + rest4;
    assert rest3[..7] == "\nHost: ";
    assert rest3[7..] == h + ['\r'] + rest4;
    CutAt(h, rest4, '\r');
  }

  /** The request's length: the method, target, version and `Host` value plus the 56
      characters of separators and fixed headers (four for the request line, eight for
      the `Host` line, 23 and 21 for the other two). */
  lemma RequestLength(u: Url, httpMethod: Option<string>, vhost: Option<string>, proxied: bool)
    ensures |RequestText(u, httpMethod, vhost, proxied)| ==
            |MethodName(httpMethod, proxied)| + |Target(u, proxied)| + |Version(proxied)| +
            |HostValue(u, vhost)| + 56
  {
    assert |UserAgentLine| == 23;
    assert |ConnectionLines| == 21;
  }

  /** A direct request for a default `GET` fits the buffer whenever its `Host` value has
      at most 32 characters, however long the path: it is cut to 500. */
  lemma DirectRequestFits(u: Url, vhost: Option<string>)
    requires |HostValue(u, vhost)| <= 32
    ensures Fits(u, None, vhost, false)
  {
    RequestLength(u, None, vhost, false);
    assert |Version(false)| == 8;
  }
}
