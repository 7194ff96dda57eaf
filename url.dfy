/** `parse_url` (http_ping.c:383-438): split `http://host[:port][/path]` (and, in a build
    with TLS support, `https://…`) into protocol, host, port and path. */
module Url {
  import opened Wrappers
  import opened CStrings

  datatype Protocol = Http | Https

  /** An `unsigned short` port. */
  type Port = p: int | 0 <= p < 0x1_0000

  /** `url_protocol`, `url_host`, `url_port`, `url_filename`. */
  datatype Url = Url(protocol: Protocol, host: string, port: Port, path: string)

  datatype UrlError = UnknownProtocol

  /** `sizeof(url_host)`: the host keeps at most one character less. */
  const HostBufferSize: int := 5000

  function SchemePrefix(p: Protocol): string {
    if p == Http then "http://" else "https://"
  }

  function DefaultPort(p: Protocol): Port {
    if p == Http then 80 else 443
  }

  /** The first index from `i` on holding `:` or `/`, else `|s|`: where the host ends. */
  function HostEnd(s: string, i: nat): (e: nat)
    requires i <= |s|
    ensures i <= e <= |s|
    ensures forall j :: i <= j < e ==> s[j] != ':' && s[j] != '/'
    ensures e < |s| ==> s[e] == ':' || s[e] == '/'
    decreases |s| - i
  {
    if i == |s| || s[i] == ':' || s[i] == '/' then i else HostEnd(s, i + 1)
  }

  /** The first index from `i` on holding `/`, else `|s|`: where the path begins. */
  function PathStart(s: string, i: nat): (e: nat)
    requires i <= |s|
    ensures i <= e <= |s|
    ensures forall j :: i <= j < e ==> s[j] != '/'
    ensures e < |s| ==> s[e] == '/'
    decreases |s| - i
  {
    if i == |s| || s[i] == '/' then i else PathStart(s, i + 1)
  }

  /** `url_filename`: the rest of the URL from its path on, or `/` when there is none. */
  function PathOrRoot(rest: string): string {
    if rest == [] then "/" else rest
  }

  /** `url_host`: the characters from `start` up to the first `:` or `/`, cut to 4999. */
  function HostOf(url: string, start: nat): (h: string)
    requires start <= |url|
    ensures |h| < HostBufferSize
  {
    Truncate(url[start..HostEnd(url, start)], HostBufferSize - 1)
  }

  /** Whether a `:` follows the host. */
  predicate HasPort(url: string, start: nat)
    requires start <= |url|
  {
    var e := HostEnd(url, start);
    e < |url| && url[e] == ':'
  }

  /** `url_port`: `atoi` of the text after the `:` as an `unsigned short`, else the
      protocol's default. The host is cut to 4999 characters but the port is looked for
      after the whole host. */
  function PortOf(url: string, protocol: Protocol, start: nat): Port
    requires start <= |url|
  {
    if HasPort(url, start) then UnsignedShort(AtoiInt(url[HostEnd(url, start) + 1..]))
    else DefaultPort(protocol)
  }

  /** `url_filename`: from the first `/` after the host (after the port, when there is
      one), or `/`. */
  function PathOf(url: string, start: nat): (p: string)
    requires start <= |url|
    ensures p != [] && p[0] == '/'
  {
    var e := HostEnd(url, start);
    if HasPort(url, start) then PathOrRoot(url[PathStart(url, e + 1)..])
    else PathOrRoot(url[e..])
  }

  /** The URL split after a scheme prefix of length `start`. */
  function Split(url: string, protocol: Protocol, start: nat): Url
    requires start <= |url|
  {
    Url(protocol, HostOf(url, start), PortOf(url, protocol, start), PathOf(url, start))
  }

  /** What `parse_url` computes; `withSsl` says whether the build supports `https`. */
  function UrlOf(url: string, withSsl: bool): (r: Result<Url, UrlError>)
    ensures r.Err? <==> !(IsPrefix("http://", url) || (withSsl && IsPrefix("https://", url)))
    ensures r.Ok? ==> (r.value.protocol == Https ==> withSsl)
    ensures r.Ok? ==> |r.value.host| < HostBufferSize
    ensures r.Ok? ==> r.value.path != [] && r.value.path[0] == '/'
  {
    if IsPrefix("http://", url) then Ok(Split(url, Http, 7))
    else if withSsl && IsPrefix("https://", url) then Ok(Split(url, Https, 8))
    else Err(UnknownProtocol)
  }

  /** `parse_url`: the scheme test, then the split. */
  method ParseUrl(url: string, withSsl: bool) returns (r: Result<Url, UrlError>)
    ensures r == UrlOf(url, withSsl)
  {
    var u: Url;
    if StrncmpPrefix("http://", url) {
      u := SplitUrl(url, Http, 7);
    } else if withSsl && StrncmpPrefix("https://", url) {
      u := SplitUrl(url, Https, 8);
    } else {
      return Err(UnknownProtocol);
    }
    r := Ok(u);
  }

  /** The two scanning loops of `parse_url` over `cp`, from the end of the scheme on. */
  method SplitUrl(url: string, protocol: Protocol, protoLen: nat) returns (u: Url)
    requires protoLen <= |url|
    ensures u == Split(url, protocol, protoLen)
  {
    var cp := ScanHost(url, protoLen);
    var hostLen := cp - protoLen;
    if hostLen > HostBufferSize - 1 {
      hostLen := HostBufferSize - 1;
    }
    var host := url[protoLen..protoLen + hostLen];
    HostSlice(url, protoLen, cp, hostLen);
    var port: Port;
    var path: string;
    if cp < |url| && url[cp] == ':' {
      assert HasPort(url, protoLen);
      cp := cp + 1;
      port := UnsignedShort(AtoiInt(url[cp..]));
      assert port == PortOf(url, protocol, protoLen);
      cp := ScanPort(url, cp);
      path := if cp == |url| then "/" else url[cp..];
      assert path == PathOf(url, protoLen);
    } else {
      assert !HasPort(url, protoLen);
      port := DefaultPort(protocol);
      path := if cp == |url| then "/" else url[cp..];
      assert path == PathOf(url, protoLen);
    }
    u := Url(protocol, host, port, path);
  }

  /** The first loop: `cp` stops at the end of the host. */
  method ScanHost(url: string, from: nat) returns (cp: nat)
    requires from <= |url|
    ensures cp == HostEnd(url, from)
  {
    cp := from;
    while cp < |url| && url[cp] != ':' && url[cp] != '/'
      invariant from <= cp <= |url|
      invariant HostEnd(url, cp) == HostEnd(url, from)
    {
      cp := cp + 1;
    }
  }

  /** The second loop: `cp` stops at the `/` after the port text. */
  method ScanPort(url: string, from: nat) returns (cp: nat)
    requires from <= |url|
    ensures cp == PathStart(url, from)
  {
    cp := from;
    while cp < |url| && url[cp] != '/'
      invariant from <= cp <= |url|
      invariant PathStart(url, cp) == PathStart(url, from)
    {
      cp := cp + 1;
    }
  }

  lemma HostSlice(url: string, start: nat, e: nat, n: nat)
    requires start <= e <= |url| && n == if e - start > HostBufferSize - 1 then HostBufferSize - 1 else e - start
    ensures url[start..start + n] == Truncate(url[start..e], HostBufferSize - 1)
  {
    assert url[start..e][..n] == url[start..start + n];
  }

  lemma {:induction false} DropSpacesAppend(p: string, t: string)
    requires t == [] || !IsSpace(t[0])
    ensures DropSpaces(p + t) == DropSpaces(p) + t
    decreases |p|
  {
    if p == [] {
      assert p + t == t;
    } else {
      assert (p + t)[0] == p[0] && (p + t)[1..] == p[1..] + t;
      if IsSpace(p[0]) {
        DropSpacesAppend(p[1..], t);
      }
    }
  }

  lemma {:induction false} AccumulateAppend(acc: int, s: string, t: string)
    requires t == [] || !IsDigit(t[0])
    ensures Accumulate(acc, s + t) == Accumulate(acc, s)
    decreases |s|
  {
    if s == [] {
      assert s + t == t;
    } else {
      assert (s + t)[0] == s[0] && (s + t)[1..] == s[1..] + t;
      if IsDigit(s[0]) {
        AccumulateAppend(acc * 10 + DigitValue(s[0]), s[1..], t);
      }
    }
  }

  /** `atoi` stops before a `/`: the port after `:` is read from the port text alone. */
  lemma AtoiStopsAtSlash(p: string, t: string)
    requires t == [] || t[0] == '/'
    ensures Atoi(p + t) == Atoi(p)
  {
    DropSpacesAppend(p, t);
    var d := DropSpaces(p);
    var dt := DropSpaces(p + t);
    assert dt == d + t;
    if d == [] {
      assert dt == t;
      assert Atoi(p) == Accumulate(0, d) == 0;
      assert Atoi(p + t) == Accumulate(0, t) == 0;
    } else if d[0] == '-' || d[0] == '+' {
      assert dt[0] == d[0];
      assert dt[1..] == d[1..] + t;
      AccumulateAppend(0, d[1..], t);
    } else {
      assert dt[0] == d[0];
      AccumulateAppend(0, d, t);
      assert Atoi(p) == Accumulate(0, d);
      assert Atoi(p + t) == Accumulate(0, dt);
    }
  }

  /** The URL written as scheme, host, optional `:port` and path. */
  function Compose(protocol: Protocol, host: string, port: Option<string>, path: string): string {
    SchemePrefix(protocol) + host + (if port.Some? then ":" + port.value else "") + path
  }

  predicate Excludes(s: string, c: char) {
    forall i :: 0 <= i < |s| ==> s[i] != c
  }

  /** The scheme decides the protocol. */
  lemma SchemeDecides(protocol: Protocol, rest: string, withSsl: bool)
    requires protocol == Https ==> withSsl
    ensures IsPrefix(SchemePrefix(protocol), SchemePrefix(protocol) + rest)
    ensures UrlOf(SchemePrefix(protocol) + rest, withSsl) ==
            Ok(Split(SchemePrefix(protocol) + rest, protocol, |SchemePrefix(protocol)|))
  {
    var url := SchemePrefix(protocol) + rest;
    if protocol == Http {
      assert url[..7] == "http://";
      assert UrlOf(url, withSsl) == Ok(Split(url, Http, 7));
    } else {
      assert url[..8] == "https://";
      assert url[4] == 's';
      assert !IsPrefix("http://", url);
      assert UrlOf(url, withSsl) == Ok(Split(url, Https, 8));
    }
  }

  /** `parse_url` takes a composed URL apart again: the host up to the first `:` or `/`,
      the port `atoi` of the text after `:` or the protocol's default (80, or 443 for
      `https`), and the path, or `/` when it is empty. */
  lemma ParseComposed(protocol: Protocol, host: string, port: Option<string>, path: string,
                      withSsl: bool)
    requires protocol == Https ==> withSsl
    requires Excludes(host, ':') && Excludes(host, '/') && |host| < HostBufferSize
    requires port.Some? ==> Excludes(port.value, '/')
    requires path == [] || path[0] == '/'
    ensures UrlOf(Compose(protocol, host, port, path), withSsl) ==
            Ok(Url(protocol, host,
                   if port.Some? then UnsignedShort(AtoiInt(port.value)) else DefaultPort(protocol),
                   PathOrRoot(path)))
  {
    var scheme := SchemePrefix(protocol);
    var tail := (if port.Some? then ":" + port.value else "") + path;
    assert Compose(protocol, host, port, path) == scheme + (host + tail);
    SchemeDecides(protocol, host + tail, withSsl);
    SplitComposed(scheme, protocol, host, port, path);
  }

  /** The split after any prefix of a host, an optional `:port` and a path. */
  lemma SplitComposed(pre: string, protocol: Protocol, host: string, port: Option<string>,
                      path: string)
    requires Excludes(host, ':') && Excludes(host, '/') && |host| < HostBufferSize
    requires port.Some? ==> Excludes(port.value, '/')
    requires path == [] || path[0] == '/'
    ensures Split(pre + host + (if port.Some? then ":" + port.value else "") + path,
                  protocol, |pre|) ==
            Url(protocol, host,
                if port.Some? then UnsignedShort(AtoiInt(port.value)) else DefaultPort(protocol),
                PathOrRoot(path))
  {
    if port.Some? {
      assert pre + host + (":" + port.value) + path == (pre + host) + ":" + port.value + path;
      SplitWithPort(pre, protocol, host, port.value, path);
    } else {
      assert pre + host + "" + path == pre + host + path;
      SplitWithoutPort(pre, protocol, host, path);
    }
  }

  lemma SplitWithPort(pre: string, protocol: Protocol, host: string, pt: string, path: string)
    requires Excludes(host, ':') && Excludes(host, '/') && |host| < HostBufferSize
    requires Excludes(pt, '/')
    requires path == [] || path[0] == '/'
    ensures Split((pre + host) + ":" + pt + path, protocol, |pre|) ==
            Url(protocol, host, UnsignedShort(AtoiInt(pt)), PathOrRoot(path))
  {
    var url := (pre + host) + ":" + pt + path;
    var tail := ":" + pt + path;
    Regroup(pre + host, ":", pt, path);
    HostAt(pre, host, tail);
    PortAt(pre + host, pt, path);
    var e := |pre| + |host|;
    assert Atoi(url[e + 1..]) == Atoi(pt);
    assert AtoiInt(url[e + 1..]) == AtoiInt(pt);
    assert url[PathStart(url, e + 1)..] == path;
    SplitAt(url, protocol, |pre|, e, host, UnsignedShort(AtoiInt(pt)), PathOrRoot(path));
  }

  /** The split when the host `url[start..e]` is followed by `:`. */
  lemma SplitAt(url: string, protocol: Protocol, start: nat, e: nat, host: string, port: Port,
                path: string)
    requires start <= e < |url| && HostEnd(url, start) == e && url[e] == ':'
    requires url[start..e] == host && |host| < HostBufferSize
    requires UnsignedShort(AtoiInt(url[e + 1..])) == port
    requires PathOrRoot(url[PathStart(url, e + 1)..]) == path
    ensures Split(url, protocol, start) == Url(protocol, host, port, path)
  {
    assert HasPort(url, start);
  }

  lemma Regroup(a: string, b: string, c: string, d: string)
    ensures a + b + c + d == a + (b + c + d)
  {
  }

  lemma SplitWithoutPort(pre: string, protocol: Protocol, host: string, path: string)
    requires Excludes(host, ':') && Excludes(host, '/') && |host| < HostBufferSize
    requires path == [] || path[0] == '/'
    ensures Split(pre + host + path, protocol, |pre|) ==
            Url(protocol, host, DefaultPort(protocol), PathOrRoot(path))
  {
    var url := pre + host + path;
    HostAt(pre, host, path);
    assert url[|pre| + |host|..] == path;
    assert !HasPort(url, |pre|);
    assert HostOf(url, |pre|) == host;
    assert PathOf(url, |pre|) == PathOrRoot(path);
  }

  /** The host runs up to the first `:` or `/`. */
  lemma HostAt(pre: string, host: string, tail: string)
    requires Excludes(host, ':') && Excludes(host, '/')
    requires tail == [] || tail[0] == ':' || tail[0] == '/'
    ensures HostEnd(pre + host + tail, |pre|) == |pre| + |host|
    ensures (pre + host + tail)[|pre|..|pre| + |host|] == host
  {
    var url := pre + host + tail;
    assert forall j :: |pre| <= j < |pre| + |host| ==> url[j] == host[j - |pre|];
    HostEndAt(url, |pre|, |pre| + |host|);
  }

  /** After `:`, the port text runs up to the first `/`, and `atoi` reads only it. */
  lemma PortAt(pre: string, pt: string, path: string)
    requires Excludes(pt, '/')
    requires path == [] || path[0] == '/'
    ensures var url := pre + ":" + pt + path;
            url[|pre|] == ':' &&
            Atoi(url[|pre| + 1..]) == Atoi(pt) &&
            PathStart(url, |pre| + 1) == |pre| + 1 + |pt| &&
            url[|pre| + 1 + |pt|..] == path
  {
    PortText(pre, pt, path);
    PortEnd(pre, pt, path);
  }

  lemma PortText(pre: string, pt: string, path: string)
    requires path == [] || path[0] == '/'
    ensures var url := pre + ":" + pt + path;
            url[|pre|] == ':' && Atoi(url[|pre| + 1..]) == Atoi(pt)
  {
    var url := pre + ":" + pt + path;
    assert url[|pre| + 1..] == pt + path;
    AtoiStopsAtSlash(pt, path);
  }

  lemma PortEnd(pre: string, pt: string, path: string)
    requires Excludes(pt, '/')
    requires path == [] || path[0] == '/'
    ensures var url := pre + ":" + pt + path;
            PathStart(url, |pre| + 1) == |pre| + 1 + |pt| && url[|pre| + 1 + |pt|..] == path
  {
    var head := pre + ":" + pt;
    assert head[|pre| + 1..] == pt;
    assert pre + ":" + pt + path == head + path;
    PathAfter(head, |pre| + 1, path);
  }

  /** The path starts where a stretch without `/` is followed by one. */
  lemma PathAfter(head: string, s: nat, path: string)
    requires s <= |head|
    requires Excludes(head[s..], '/')
    requires path == [] || path[0] == '/'
    ensures PathStart(head + path, s) == |head|
    ensures (head + path)[|head|..] == path
  {
    var url := head + path;
    assert forall j :: s <= j < |head| ==> url[j] == head[s..][j - s];
    PathStartAt(url, s, |head|);
  }

  lemma HostEndAt(s: string, i: nat, e: nat)
    requires i <= e <= |s|
    requires forall j :: i <= j < e ==> s[j] != ':' && s[j] != '/'
    requires e < |s| ==> s[e] == ':' || s[e] == '/'
    ensures HostEnd(s, i) == e
  {
  }

  lemma PathStartAt(s: string, i: nat, e: nat)
    requires i <= e <= |s|
    requires forall j :: i <= j < e ==> s[j] != '/'
    requires e < |s| ==> s[e] == '/'
    ensures PathStart(s, i) == e
  {
  }
}
