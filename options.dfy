/** The command line of `main` (http_ping.c:158-234): flags come first, each matched
    when the argument is a prefix of the flag's name, tried in a fixed order; the one
    remaining argument is the URL. */
module Options {
  import opened Wrappers
  import opened CStrings
  import Url

  /** `INTERVAL` and `TIMEOUT` (http_ping.c:53-54), in seconds. */
  const DefaultInterval: int := 5
  const DefaultTimeout: int := 15

  /** `-proxy host[:port]`. */
  datatype Proxy = Proxy(host: string, port: Url.Port)

  /** The globals the flags set: `count` (-1 for no limit), `interval`, `timeout`,
      `quiet`, `nagle`, `do_proxy` with `proxy_host` and `proxy_port`, `method`,
      `vhost` and `request_data_file`. */
  datatype Options = Options(
    count: int,
    interval: int,
    timeout: int,
    quiet: bool,
    nagle: bool,
    proxy: Option<Proxy>,
    httpMethod: Option<string>,
    vhost: Option<string>,
    requestFile: Option<string>)

  /** A command line that leads on to `parse_url`: the options and the URL. */
  datatype Invocation = Invocation(options: Options, url: string)

  /** Why the program exits with status 1 before probing: `count must be positive`,
      `usage()`, or a request file, whose reader is an empty stub that leaves no URL. */
  datatype ArgError = CountNotPositive | Usage | RequestFileUnsupported

  /** The values `main` starts from. `timeout` is never assigned there, so it keeps the
      zero of a static variable. */
  const DefaultsAsWritten: Options :=
    Options(-1, DefaultInterval, 0, false, false, None, None, None, None)

  /** The same with `timeout` set to `TIMEOUT`, as the otherwise unused definition of
      `TIMEOUT` intends. */
  const Defaults: Options := DefaultsAsWritten.(timeout := DefaultTimeout)

  /** The loop condition: the argument starts with `-` and has a second character. */
  predicate IsFlag(a: string) {
    |a| >= 2 && a[0] == '-'
  }

  /** `count` is unlimited or positive, `interval` is not negative, `timeout` is at
      least `minTimeout`. */
  predicate Sane(o: Options, minTimeout: int) {
    (o.count == -1 || o.count > 0) && o.interval >= 0 && o.timeout >= minTimeout
  }

  /** `-proxy`'s argument split at its first `:`; without one the port is 80. */
  function ProxyOf(arg: string): (p: Proxy)
    ensures ':' !in p.host && IsPrefix(p.host, arg)
    ensures |p.host| == |arg| ==> p.port == 80
    ensures |p.host| < |arg| ==>
              arg[|p.host|] == ':' && p.port == UnsignedShort(AtoiInt(arg[|p.host| + 1..]))
  {
    var i := IndexOf(arg, ':');
    assert ':' !in arg[..i];
    if i == |arg| then Proxy(arg, 80)
    else Proxy(arg[..i], UnsignedShort(AtoiInt(arg[i + 1..])))
  }

  /** One pass of the flag chain at `argn`: the new options and the next `argn`. A flag
      that takes a value only matches when one follows; an argument that matches no flag
      is a usage error. */
  function ApplyFlag(args: seq<string>, argn: nat, o: Options): (r: Result<(Options, nat), ArgError>)
    requires argn < |args|
    ensures r.Ok? ==> argn < r.value.1 <= |args|
    ensures r.Ok? && Sane(o, 0) ==> Sane(r.value.0, if o.timeout >= 1 then 1 else 0)
  {
    var a := args[argn];
    var hasValue := argn + 1 < |args|;
    if StrncmpPrefix(a, "-count") && hasValue then
      var c := AtoiInt(args[argn + 1]);
      if c <= 0 then Err(CountNotPositive) else Ok((o.(count := c), argn + 2))
    else if StrncmpPrefix(a, "-interval") && hasValue then
      var n := AtoiInt(args[argn + 1]);
      Ok((o.(interval := if n < 1 && n != 0 then 0 else n), argn + 2))
    else if StrncmpPrefix(a, "-timeout") && hasValue then
      var n := AtoiInt(args[argn + 1]);
      Ok((o.(timeout := if n < 1 then 1 else n), argn + 2))
    else if StrncmpPrefix(a, "-quiet") then
      Ok((o.(quiet := true), argn + 1))
    else if StrncmpPrefix(a, "-nagle") then
      Ok((o.(nagle := true), argn + 1))
    else if StrncmpPrefix(a, "-proxy") && hasValue then
      Ok((o.(proxy := Some(ProxyOf(args[argn + 1]))), argn + 2))
    else if StrncmpPrefix(a, "-method") && hasValue then
      Ok((o.(httpMethod := Some(args[argn + 1])), argn + 2))
    else if StrncmpPrefix(a, "-vhost") && hasValue then
      Ok((o.(vhost := Some(args[argn + 1])), argn + 2))
    else if StrncmpPrefix(a, "-file") && hasValue then
      Ok((o.(requestFile := Some(args[argn + 1])), argn + 2))
    else Err(Usage)
  }

  /** The flag loop from `argn` on: the options and the index of the first argument
      that is not a flag. */
  function ParseFlags(args: seq<string>, argn: nat, o: Options): (r: Result<(Options, nat), ArgError>)
    ensures r.Ok? ==> argn <= r.value.1
    ensures r.Ok? ==> r.value.1 >= |args| || !IsFlag(args[r.value.1])
    ensures r.Ok? && Sane(o, 0) ==> Sane(r.value.0, if o.timeout >= 1 then 1 else 0)
    decreases |args| - argn
  {
    if argn < |args| && IsFlag(args[argn]) then
      match ApplyFlag(args, argn, o)
      case Err(e) => Err(e)
      case Ok((o', n)) => ParseFlags(args, n, o')
    else Ok((o, argn))
  }

  /** The whole command line from the given starting values: flags from `argv[1]` on,
      then exactly one URL, or with `-file` nothing more. */
  function ArgsFrom(args: seq<string>, start: Options): (r: Result<Invocation, ArgError>)
    ensures r.Ok? ==> |args| >= 2 && r.value.url == args[|args| - 1] && !IsFlag(r.value.url)
    ensures r.Ok? ==> r.value.options.requestFile.None?
    ensures r.Ok? && Sane(start, 0) ==> Sane(r.value.options, if start.timeout >= 1 then 1 else 0)
  {
    match ParseFlags(args, 1, start)
    case Err(e) => Err(e)
    case Ok((o, n)) =>
      if o.requestFile.Some? then
        if n != |args| then Err(Usage) else Err(RequestFileUnsupported)
      else if n + 1 != |args| then Err(Usage)
      else Ok(Invocation(o, args[n]))
  }

  /** The command line as the source reads it, `timeout` starting at 0. */
  function ArgsAsWritten(args: seq<string>): (r: Result<Invocation, ArgError>)
    ensures r.Ok? ==> Sane(r.value.options, 0)
  {
    ArgsFrom(args, DefaultsAsWritten)
  }

  /** The command line with `timeout` starting at `TIMEOUT`: an accepted one has a
      positive `count` or none, an `interval` of at least 0 and a `timeout` of at least
      one second. */
  function ArgsOf(args: seq<string>): (r: Result<Invocation, ArgError>)
    ensures r.Ok? ==> Sane(r.value.options, 1)
  {
    ArgsFrom(args, Defaults)
  }

  /** The argument loop of `main`, advancing `argn`, from the given starting values:
      `DefaultsAsWritten` for the source as it stands, `Defaults` for the intended one. */
  method ParseArgs(args: seq<string>, start: Options) returns (r: Result<Invocation, ArgError>)
    ensures r == ArgsFrom(args, start)
    ensures start == DefaultsAsWritten ==> r == ArgsAsWritten(args)
    ensures start == Defaults ==> r == ArgsOf(args)
  {
    var argn: nat := 1;
    var o := start;
    while argn < |args| && IsFlag(args[argn])
      invariant ParseFlags(args, argn, o) == ParseFlags(args, 1, start)
      decreases |args| - argn
    {
      var step := ApplyFlag(args, argn, o);
      if step.Err? {
        return Err(step.error);
      }
      o, argn := step.value.0, step.value.1;
    }
    if o.requestFile.Some? {
      if argn != |args| {
        return Err(Usage);
      }
      return Err(RequestFileUnsupported);
    }
    if argn + 1 != |args| {
      return Err(Usage);
    }
    r := Ok(Invocation(o, args[argn]));
  }

  /** As written, a command line without `-timeout` runs with `timeout` 0, and
      `alarm(0)` sets no deadline: a probe to a server that never answers blocks for ever. */
  lemma NoTimeoutByDefault()
    ensures ArgsAsWritten(["http_ping", "http://example.com/"]) ==
            Ok(Invocation(DefaultsAsWritten, "http://example.com/"))
    ensures DefaultsAsWritten.timeout == 0
  {
    var args := ["http_ping", "http://example.com/"];
    assert !IsFlag(args[1]);
  }

  /** `-count n url` reads back the count `%d` writes and the URL. */
  lemma CountRoundTrip(n: nat, url: string)
    requires 0 < n <= IntMax && !IsFlag(url)
    ensures ArgsOf(["http_ping", "-count", Decimal(n), url]) ==
            Ok(Invocation(Defaults.(count := n), url))
  {
    var args := ["http_ping", "-count", Decimal(n), url];
    assert Decimal(n) + [] == Decimal(n);
    AtoiDecimal(n, []);
    assert IsFlag(args[1]) && StrncmpPrefix(args[1], "-count");
    assert ApplyFlag(args, 1, Defaults) == Ok((Defaults.(count := n), 3));
    assert !IsFlag(args[3]);
    assert ParseFlags(args, 3, Defaults.(count := n)) == Ok((Defaults.(count := n), 3));
    assert ParseFlags(args, 1, Defaults) == Ok((Defaults.(count := n), 3));
  }

  /** A count past the range of an `int` wraps to a negative `int` and is refused. */
  lemma CountWrapsNegative(n: nat, url: string)
    requires IntMax < n < 0x1_0000_0000
    ensures ArgsOf(["http_ping", "-count", Decimal(n), url]) == Err(CountNotPositive)
  {
    var args := ["http_ping", "-count", Decimal(n), url];
    assert Decimal(n) + [] == Decimal(n);
    AtoiDecimal(n, []);
    assert AtoiInt(args[2]) == n - 0x1_0000_0000;
    assert IsFlag(args[1]) && StrncmpPrefix(args[1], "-count");
    assert ApplyFlag(args, 1, Defaults) == Err(CountNotPositive);
  }

  /** A timeout past the range of an `int` wraps around: `-timeout 4294967297` is one
      second. */
  lemma TimeoutWraps(n: nat, url: string)
    requires 0x1_0000_0000 < n <= 0x1_0000_0000 + IntMax && !IsFlag(url)
    ensures ArgsOf(["http_ping", "-timeout", Decimal(n), url]) ==
            Ok(Invocation(Defaults.(timeout := n - 0x1_0000_0000), url))
  {
    var args := ["http_ping", "-timeout", Decimal(n), url];
    var o := Defaults.(timeout := n - 0x1_0000_0000);
    assert AtoiInt(args[2]) == n - 0x1_0000_0000 by {
      assert Decimal(n) + [] == Decimal(n);
      AtoiDecimal(n, []);
    }
    assert ApplyFlag(args, 1, Defaults) == Ok((o, 3)) by {
      assert StrncmpPrefix(args[1], "-timeout");
      assert !StrncmpPrefix(args[1], "-count") && !StrncmpPrefix(args[1], "-interval");
    }
    assert IsFlag(args[1]) && !IsFlag(args[3]);
    assert ParseFlags(args, 3, o) == Ok((o, 3));
  }

  /** `-proxy` takes `host` and `host:port` apart again. */
  lemma ProxyComposed(h: string, pt: string)
    requires ':' !in h
    ensures ProxyOf(h) == Proxy(h, 80)
    ensures ProxyOf(h + ":" + pt) == Proxy(h, UnsignedShort(AtoiInt(pt)))
  {
    var arg := h + ":" + pt;
    var q := ProxyOf(arg);
    assert arg[..|h|] == h && arg[|h|] == ':';
    assert q.host == h;
    assert arg[|h| + 1..] == pt;
  }

  /** The flag names in the order the chain tries them. */
  const FlagNames: seq<string> :=
    ["-count", "-interval", "-timeout", "-quiet", "-nagle", "-proxy", "-method", "-vhost", "-file"]

  /** The flag names differ in their second character, so an abbreviation of at least two
      characters is a prefix of one of them only. */
  lemma AbbreviationIsUnique(a: string, i: nat, j: nat)
    requires i < |FlagNames| && j < |FlagNames|
    requires |a| >= 2 && IsPrefix(a, FlagNames[i]) && IsPrefix(a, FlagNames[j])
    ensures i == j
  {
    assert a[1] == FlagNames[i][1] == FlagNames[j][1];
  }

  /** Any abbreviation of a flag of at least two characters does what the full name does. */
  lemma AbbreviationsAgree(args: seq<string>, argn: nat, o: Options, i: nat)
    requires argn < |args| && i < |FlagNames|
    requires |args[argn]| >= 2 && IsPrefix(args[argn], FlagNames[i])
    ensures ApplyFlag(args, argn, o) == ApplyFlag(args[argn := FlagNames[i]], argn, o)
  {
    var a := args[argn];
    var full := args[argn := FlagNames[i]];
    assert full[argn] == FlagNames[i];
    assert argn + 1 < |args| ==> full[argn + 1] == args[argn + 1];
    SameMatches(a, i, 0);
    SameMatches(a, i, 1);
    SameMatches(a, i, 2);
    SameMatches(a, i, 3);
    SameMatches(a, i, 4);
    SameMatches(a, i, 5);
    SameMatches(a, i, 6);
    SameMatches(a, i, 7);
    SameMatches(a, i, 8);
  }

  lemma SameMatches(a: string, i: nat, j: nat)
    requires i < |FlagNames| && j < |FlagNames|
    requires |a| >= 2 && IsPrefix(a, FlagNames[i])
    ensures IsPrefix(a, FlagNames[j]) <==> IsPrefix(FlagNames[i], FlagNames[j])
  {
    if IsPrefix(a, FlagNames[j]) {
      AbbreviationIsUnique(a, i, j);
    }
    if IsPrefix(FlagNames[i], FlagNames[j]) {
      assert FlagNames[i][..2] == a[..2];
      assert IsPrefix(FlagNames[i][..2], FlagNames[j]);
      AbbreviationIsUnique(FlagNames[i][..2], i, j);
    }
  }
}
