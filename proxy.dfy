/**
 * Proxy resolution (server.js lines 16, 21-44) and the browser launch
 * arguments and credentials derived from it (lines 46-47, 52-53).
 * `Math.random()` is a draw `r` with 0 <= r < 1 supplied by the caller, and
 * `new URL(...)` is a caller-supplied partial parser.
 */
module Proxy {
  import opened Wrappers
  import opened JsText
  import opened Query

  /** The parts of a parsed URL the handler reads: `hostname`, `port`, `username`, `password`. */
  datatype Url = Url(hostname: string, port: string, username: string, password: string)

  /** `proxyConfig`: the empty object `{}`, or the four fields copied from the parsed proxy URL. */
  datatype ProxyConfig = NoProxy | ProxyConfig(host: string, port: string, username: string, password: string)

  /** What `undefined.includes(',')` throws when an empty array was given (V8's message). */
  const UndefinedIncludes := "Cannot read properties of undefined (reading 'includes')"

  /** `Math.floor(r * n)`: the index a draw `r` of `Math.random()` selects among `n` elements. */
  function PickIndex(r: real, n: nat): (i: nat)
    requires 0.0 <= r < 1.0 && 0 < n
    ensures i < n
    ensures i as real <= r * n as real < i as real + 1.0
  {
    DrawScaled(r, n);
    (r * n as real).Floor
  }

  /** A draw in [0, 1) scaled by `m` lies in [0, m), and is 0 for m = 0. */
  lemma {:induction false} DrawScaled(r: real, m: nat)
    requires 0.0 <= r < 1.0
    ensures 0.0 <= r * m as real
    ensures 0 < m ==> r * m as real < m as real
  {
    if m > 0 {
      DrawScaled(r, m - 1);
      assert r * m as real == r * (m - 1) as real + r;
    }
  }

  /** `req.query.proxies || req.query.proxy`. */
  function CustomProxy(proxies: QueryValue, proxy: QueryValue): (custom: QueryValue)
    ensures ParamTruthy(custom) <==> ParamTruthy(proxies) || ParamTruthy(proxy)
    ensures ParamTruthy(proxies) ==> custom == proxies
    ensures !ParamTruthy(proxies) ==> custom == proxy
  {
    Or(proxies, proxy)
  }

  /**
   * The string first taken from a truthy proxy parameter (lines 23-25): the string itself, or the
   * array element at a random index. An empty array yields `undefined`, and the `includes` call
   * of line 26 throws.
   */
  function Chosen(custom: QueryValue, r: real): Result<string, string>
    requires ParamTruthy(custom) && 0.0 <= r < 1.0
  {
    match custom
    case Text(s) => Ok(s)
    case List(items) => if |items| == 0 then Err(UndefinedIncludes) else Ok(items[PickIndex(r, |items|)])
  }

  /** Lines 26-29: a comma-joined pool is split, and a randomly drawn piece is trimmed. */
  function FromPool(s: string, r: real): string
    requires 0.0 <= r < 1.0
  {
    if ',' in s then
      var pool := Split(s, ',');
      Trim(pool[PickIndex(r, |pool|)])
    else s
  }

  /** Line 30: `http://` is put in front of a string that does not start with `http`. */
  function WithScheme(s: string): string {
    if StartsWith(s, "http") then s else "http://" + s
  }

  /** The URL handed to the parser for the chosen string. */
  function ProxyUrl(s: string, r: real): string
    requires 0.0 <= r < 1.0
  {
    WithScheme(FromPool(s, r))
  }

  /** Lines 32-43: the configuration copied from a parse, or `{}` when `new URL` throws. */
  function ConfigFrom(parsed: Option<Url>): ProxyConfig {
    match parsed
    case Some(u) => ProxyConfig(u.hostname, u.port, u.username, u.password)
    case None => NoProxy
  }

  /** The outcome of lines 21-44: a configuration, or the error that escapes them. */
  function Resolution(custom: QueryValue, arrayDraw: real, poolDraw: real, parse: string -> Option<Url>): (r: Result<ProxyConfig, string>)
    requires 0.0 <= arrayDraw < 1.0 && 0.0 <= poolDraw < 1.0
    ensures r.Err? ==> r.error == UndefinedIncludes
    ensures r.Ok? && r.value.ProxyConfig? ==>
              && ParamTruthy(custom)
              && Chosen(custom, arrayDraw).Ok?
              && parse(ProxyUrl(Chosen(custom, arrayDraw).value, poolDraw)) == Some(Url(r.value.host, r.value.port, r.value.username, r.value.password))
  {
    if !ParamTruthy(custom) then Ok(NoProxy)
    else
      match Chosen(custom, arrayDraw)
      case Err(e) => Err(e)
      case Ok(s) => Ok(ConfigFrom(parse(ProxyUrl(s, poolDraw))))
  }

  /** Lines 21-44 as written: `proxyUrl` and `proxyConfig` are reassigned step by step. */
  method ResolveProxy(custom: QueryValue, arrayDraw: real, poolDraw: real, parse: string -> Option<Url>)
    returns (result: Result<ProxyConfig, string>)
    requires 0.0 <= arrayDraw < 1.0 && 0.0 <= poolDraw < 1.0
    ensures result == Resolution(custom, arrayDraw, poolDraw, parse)
  {
    var proxyConfig := NoProxy;
    if ParamTruthy(custom) {
      var proxyUrl: string;
      if custom.List? {
        if |custom.items| == 0 {
          return Err(UndefinedIncludes);
        }
        proxyUrl := custom.items[PickIndex(arrayDraw, |custom.items|)];
      } else {
        proxyUrl := custom.s;
      }
      if ',' in proxyUrl {
        var pool := Split(proxyUrl, ',');
        proxyUrl := Trim(pool[PickIndex(poolDraw, |pool|)]);
      }
      if !StartsWith(proxyUrl, "http") {
        proxyUrl := "http://" + proxyUrl;
      }
      var parsed := parse(proxyUrl);
      if parsed.Some? {
        proxyConfig := ProxyConfig(parsed.value.hostname, parsed.value.port, parsed.value.username, parsed.value.password);
      }
    }
    result := Ok(proxyConfig);
  }

  /** A falsy proxy parameter resolves to no proxy; an empty array is the one spec that throws. */
  lemma ResolutionOutcomes(custom: QueryValue, arrayDraw: real, poolDraw: real, parse: string -> Option<Url>)
    requires 0.0 <= arrayDraw < 1.0 && 0.0 <= poolDraw < 1.0
    ensures !ParamTruthy(custom) ==> Resolution(custom, arrayDraw, poolDraw, parse) == Ok(NoProxy)
    ensures Resolution(custom, arrayDraw, poolDraw, parse).Err? <==> custom == List([])
  {
  }

  /** With an array, the string chosen is one of its elements; with a string, it is the string. */
  lemma ChosenIsElement(custom: QueryValue, r: real)
    requires ParamTruthy(custom) && 0.0 <= r < 1.0
    ensures custom.Text? ==> Chosen(custom, r) == Ok(custom.s)
    ensures custom.List? && custom.items != [] ==> Chosen(custom, r).Ok? && Chosen(custom, r).value in custom.items
  {
  }

  /**
   * From a comma-joined pool the proxy taken is a trimmed piece of `split(',')` and holds no
   * comma, so taking from the pool a second time changes nothing; without a comma the string
   * is kept as it is.
   */
  lemma {:induction false} FromPoolPicksTrimmedPiece(s: string, r: real, r': real)
    requires 0.0 <= r < 1.0 && 0.0 <= r' < 1.0
    ensures ',' !in s ==> FromPool(s, r) == s
    ensures ',' in s ==> exists k :: 0 <= k < |Split(s, ',')| && FromPool(s, r) == Trim(Split(s, ',')[k])
    ensures ',' !in FromPool(s, r)
    ensures FromPool(FromPool(s, r), r') == FromPool(s, r)
  {
    if ',' in s {
      var pool := Split(s, ',');
      var k := PickIndex(r, |pool|);
      SplitPiecesLackSeparator(s, ',');
      assert ',' !in pool[k];
      TrimAddsNothing(pool[k], ',');
    }
  }

  /** After line 30 the URL starts with `http`; the rule applied twice is the rule applied once. */
  lemma WithSchemeStartsWithHttp(s: string)
    ensures StartsWith(WithScheme(s), "http")
    ensures StartsWith(s, "http") ==> WithScheme(s) == s
    ensures WithScheme(WithScheme(s)) == WithScheme(s)
  {
    var w := WithScheme(s);
    if !StartsWith(s, "http") {
      assert w[..4] == "http";
    }
  }

  /** `host` and `port` that go into `--proxy-server=`; empty when there is no proxy. */
  predicate HasHost(c: ProxyConfig) {
    c.ProxyConfig? && c.host != ""
  }

  /** If `new URL` rejects the proxy URL, the configuration stays `{}` and has no host. */
  lemma ParseFailureLeavesNoProxy(custom: QueryValue, arrayDraw: real, poolDraw: real, parse: string -> Option<Url>)
    requires 0.0 <= arrayDraw < 1.0 && 0.0 <= poolDraw < 1.0
    requires ParamTruthy(custom) && Chosen(custom, arrayDraw).Ok?
    requires parse(ProxyUrl(Chosen(custom, arrayDraw).value, poolDraw)) == None
    ensures Resolution(custom, arrayDraw, poolDraw, parse) == Ok(NoProxy)
    ensures LaunchArgs(Resolution(custom, arrayDraw, poolDraw, parse).value) == BaseArgs
  {
  }

  /**
   * If `new URL` accepts the URL built from the chosen string (lines 23-30), which starts with
   * `http`, the configuration copies its hostname, port, username and password.
   */
  lemma ResolutionSuccess(custom: QueryValue, arrayDraw: real, poolDraw: real, parse: string -> Option<Url>, u: Url)
    requires 0.0 <= arrayDraw < 1.0 && 0.0 <= poolDraw < 1.0
    requires ParamTruthy(custom) && Chosen(custom, arrayDraw).Ok?
    requires parse(ProxyUrl(Chosen(custom, arrayDraw).value, poolDraw)) == Some(u)
    ensures Resolution(custom, arrayDraw, poolDraw, parse) == Ok(ProxyConfig(u.hostname, u.port, u.username, u.password))
    ensures StartsWith(ProxyUrl(Chosen(custom, arrayDraw).value, poolDraw), "http")
  {
    WithSchemeStartsWithHttp(FromPool(Chosen(custom, arrayDraw).value, poolDraw));
  }

  /** The launch arguments every browser gets. */
  const BaseArgs := ["--no-sandbox", "--disable-setuid-sandbox", "--disable-dev-shm-usage"]

  /** The flag that routes the browser through a proxy. */
  const ProxyFlag := "--proxy-server="

  /** Lines 46-47: the base arguments, then `--proxy-server=host:port` exactly when a host is known. */
  function LaunchArgs(c: ProxyConfig): (args: seq<string>)
    ensures |args| >= 3 && args[..3] == BaseArgs
    ensures |args| == 4 <==> HasHost(c)
    ensures |args| <= 4
    ensures HasHost(c) ==> args[3] == ProxyFlag + c.host + ":" + c.port
  {
    if HasHost(c) then BaseArgs + [ProxyFlag + c.host + ":" + c.port] else BaseArgs
  }

  /** Some launch argument carries the proxy flag exactly when the configuration has a host. */
  lemma ProxyArgumentIffHost(c: ProxyConfig)
    ensures (exists i :: 0 <= i < |LaunchArgs(c)| && StartsWith(LaunchArgs(c)[i], ProxyFlag)) <==> HasHost(c)
  {
    var args := LaunchArgs(c);
    forall i | 0 <= i < 3
      ensures !StartsWith(args[i], ProxyFlag)
    {
      assert args[i] == BaseArgs[i];
      assert args[i][2] != ProxyFlag[2];
    }
    if HasHost(c) {
      assert args[3][..|ProxyFlag|] == ProxyFlag;
    }
  }

  /** Lines 52-53: the browser authenticates to the proxy only when the proxy URL named a user. */
  function Credentials(c: ProxyConfig): (cred: Option<(string, string)>)
    ensures cred.Some? <==> c.ProxyConfig? && c.username != ""
    ensures cred.Some? ==> cred.value == (c.username, c.password)
  {
    if c.ProxyConfig? && c.username != "" then Some((c.username, c.password)) else None
  }
}
