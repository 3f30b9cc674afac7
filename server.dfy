/** The configuration resolver of package sslmgr: `NewSecureServer` turns a
    `ServerConfig` into a `SecureServer`, or into one of three configuration
    errors. The source takes the configuration by value, fills in defaults on
    its local copy and builds a fresh record; here that is one pure function. */
module SslMgr {
  import opened Wrappers
  import opened Strings
  import opened StrConv

  /** `time.Duration`: a signed 64-bit count of nanoseconds. */
  type Duration = d: int | MIN_INT64 <= d <= MAX_INT64

  const SECOND: Duration := 1_000_000_000

  const DEFAULT_HTTPS_PORT: string := ":443"
  const DEFAULT_HTTP_PORT: string := ":80"
  const DEFAULT_READ_TIMEOUT: Duration := 5 * SECOND
  const DEFAULT_WRITE_TIMEOUT: Duration := 5 * SECOND
  const DEFAULT_IDLE_TIMEOUT: Duration := 25 * SECOND
  const DEFAULT_GRACEFULNESS_TIMEOUT: Duration := 5 * SECOND
  /** The TLS decision used when none is supplied: always serve HTTPS. */
  const SERVE_ALWAYS: () -> bool := () => true
  /** The directory of the fallback `autocert.DirCache`. */
  const DEFAULT_CERT_DIR: string := "."

  /** An `http.Handler` supplied by the caller; only its identity matters here. */
  datatype HandlerRef = HandlerRef(id: nat)

  /** An `autocert.Cache`: the file-system cache the resolver falls back to,
      or one supplied by the caller. */
  datatype CertCache = DirCache(dir: string) | UserCache(id: nat)

  /** A `func(error)` called when a graceful shutdown fails: the no-op the
      resolver falls back to, or one supplied by the caller. */
  datatype ErrHandler = NoOp | Supplied(id: nat)

  /** `ServerConfig`. A nil `Hostnames` slice is the empty sequence, and a nil
      handler, callback or cache is `None`. */
  datatype ServerConfig = ServerConfig(
    hostnames: seq<string>,
    handler: Option<HandlerRef>,
    serveSSLFunc: Option<() -> bool>,
    certCache: Option<CertCache>,
    httpsPort: string,
    httpPort: string,
    readTimeout: Duration,
    writeTimeout: Duration,
    idleTimeout: Duration,
    gracefulnessTimeout: Duration,
    gracefulShutdownErrHandler: Option<ErrHandler>)

  /** The fields of the `http.Server` that the resolver sets. */
  datatype HttpServer = HttpServer(
    readTimeout: Duration,
    writeTimeout: Duration,
    idleTimeout: Duration,
    handler: HandlerRef)

  datatype Prompt = AcceptTOS

  /** `autocert.HostWhitelist`: the host names certificates may be issued for. */
  datatype HostPolicy = HostWhitelist(hosts: seq<string>)

  /** The `autocert.Manager` the resolver builds. */
  datatype CertManager = CertManager(prompt: Prompt, hostPolicy: HostPolicy, cache: CertCache)

  /** `SecureServer`, as `NewSecureServer` leaves it. */
  datatype SecureServer = SecureServer(
    server: HttpServer,
    certMgr: CertManager,
    serveSSLFunc: () -> bool,
    httpsPort: string,
    httpPort: string,
    gracefulnessTimeout: Duration,
    gracefulShutdownErrHandler: ErrHandler)

  /** The sentinel errors `ErrNoHostname`, `ErrNoHandler` and `ErrNotAnInteger`. */
  datatype ConfigError = ErrNoHostname | ErrNoHandler | ErrNotAnInteger

  /** A colon followed by text Atoi accepts: the form every address the
      resolver returns has. Only Atoi's check is applied, so the port
      number is not confined to 0..65535. */
  predicate IsColonInteger(a: string) {
    |a| > 0 && a[0] == ':' && Atoi(a[1..]).Some?
  }

  /** Both default ports pass the resolver's own validation. */
  lemma DefaultPortsPassCheck()
    ensures IsColonInteger(DEFAULT_HTTPS_PORT)
    ensures IsColonInteger(DEFAULT_HTTP_PORT)
  {
    DefaultHttpsPortPassesCheck();
    DefaultHttpPortPassesCheck();
  }

  lemma DefaultHttpsPortPassesCheck()
    ensures IsColonInteger(DEFAULT_HTTPS_PORT)
  {
    var digits := DEFAULT_HTTPS_PORT[1..];
    assert |DEFAULT_HTTPS_PORT| > 0 && DEFAULT_HTTPS_PORT[0] == ':';
    assert IsShortNumeral(digits) by {
      assert digits == ['4', '4', '3'];
      assert SplitSign(digits).1 == digits;
    }
    AtoiAcceptsShortNumerals(digits);
  }

  lemma DefaultHttpPortPassesCheck()
    ensures IsColonInteger(DEFAULT_HTTP_PORT)
  {
    var digits := DEFAULT_HTTP_PORT[1..];
    assert |DEFAULT_HTTP_PORT| > 0 && DEFAULT_HTTP_PORT[0] == ':';
    assert IsShortNumeral(digits) by {
      assert digits == ['8', '0'];
      assert SplitSign(digits).1 == digits;
    }
    AtoiAcceptsShortNumerals(digits);
  }

  /** A port string the resolver accepts: empty (it is then defaulted), or an
      integer after at most one leading colon. */
  predicate PortAccepted(p: string) {
    p == "" || Atoi(TrimPrefix(p, ":")).Some?
  }

  /** Defaulting, validation and normalisation of one port string: an empty
      port becomes `fallback`; what follows one optional colon must parse as an
      integer; the colon is then added if it is missing. */
  function ResolvePort(port: string, fallback: string): (r: Result<string, ConfigError>)
    ensures r.Failure? ==> r.error == ErrNotAnInteger
    ensures port != "" ==> (r.Success? <==> PortAccepted(port))
    ensures port == "" && IsColonInteger(fallback) ==> r == Success(fallback)
    ensures r.Success? ==> IsColonInteger(r.value)
    ensures r.Success? && port != "" ==> r.value == port || r.value == ":" + port
    ensures r.Success? ==> r.value[1..] == TrimPrefix(if port == "" then fallback else port, ":")
  {
    var port := if port == "" then fallback else port;
    if Atoi(TrimPrefix(port, ":")).None? then Failure(ErrNotAnInteger)
    else if HasPrefix(port, ":") then Success(port)
    else Success(":" + port)
  }

  /** A timeout: a zero duration is replaced by `fallback`, any other kept. */
  function DefaultDuration(d: Duration, fallback: Duration): (r: Duration)
    requires fallback != 0
    ensures r != 0
    ensures d != 0 ==> r == d
    ensures d == 0 ==> r == fallback
  {
    if d == 0 then fallback else d
  }

  /** What a resolved server must be for configuration `c`, stated field by
      field without reference to how `NewSecureServer` computes it. */
  ghost predicate Resolves(c: ServerConfig, s: SecureServer) {
    && c.handler.Some?
    && s.server.handler == c.handler.value
    && PortResolvedFrom(c.httpsPort, DEFAULT_HTTPS_PORT, s.httpsPort)
    && PortResolvedFrom(c.httpPort, DEFAULT_HTTP_PORT, s.httpPort)
    && DurationResolvedFrom(c.readTimeout, DEFAULT_READ_TIMEOUT, s.server.readTimeout)
    && DurationResolvedFrom(c.writeTimeout, DEFAULT_WRITE_TIMEOUT, s.server.writeTimeout)
    && DurationResolvedFrom(c.idleTimeout, DEFAULT_IDLE_TIMEOUT, s.server.idleTimeout)
    && DurationResolvedFrom(c.gracefulnessTimeout, DEFAULT_GRACEFULNESS_TIMEOUT, s.gracefulnessTimeout)
    && (c.serveSSLFunc.None? ==> s.serveSSLFunc() == true)
    && (c.serveSSLFunc.Some? ==> s.serveSSLFunc == c.serveSSLFunc.value)
    && (c.gracefulShutdownErrHandler.None? ==> s.gracefulShutdownErrHandler == NoOp)
    && (c.gracefulShutdownErrHandler.Some? ==> s.gracefulShutdownErrHandler == c.gracefulShutdownErrHandler.value)
    && s.certMgr.prompt == AcceptTOS
    && s.certMgr.hostPolicy == HostWhitelist(c.hostnames)
    && (c.certCache.None? ==> s.certMgr.cache == DirCache(DEFAULT_CERT_DIR))
    && (c.certCache.Some? ==> s.certMgr.cache == c.certCache.value)
  }

  /** A resolved address is a colon integer and is the default (for an empty port)
      or the supplied port, possibly with a colon put in front. */
  predicate PortResolvedFrom(supplied: string, fallback: string, a: string) {
    && IsColonInteger(a)
    && (supplied == "" ==> a == fallback)
    && (supplied != "" ==> a == supplied || a == ":" + supplied)
  }

  /** A resolved timeout is the default when zero was supplied, else the supplied one. */
  predicate DurationResolvedFrom(supplied: Duration, fallback: Duration, d: Duration) {
    && (supplied == 0 ==> d == fallback)
    && (supplied != 0 ==> d == supplied)
  }

  /** The missing certificate cache is replaced by the file-system cache
      in the working directory; nothing else changes. */
  function DefaultCache(c: ServerConfig): (r: ServerConfig)
    ensures r == c.(certCache := r.certCache)
    ensures c.certCache.None? ==> r.certCache == Some(DirCache(DEFAULT_CERT_DIR))
    ensures c.certCache.Some? ==> r.certCache == c.certCache
  {
    if c.certCache.None? then c.(certCache := Some(DirCache(DEFAULT_CERT_DIR))) else c
  }

  /** Both ports are defaulted, validated and normalised, the HTTPS port
      first; nothing else changes. */
  function ResolvePorts(c: ServerConfig): (r: Result<ServerConfig, ConfigError>)
    ensures r.Success? <==> PortAccepted(c.httpsPort) && PortAccepted(c.httpPort)
    ensures r.Failure? ==> r.error == ErrNotAnInteger
    ensures r.Success? ==> r.value == c.(httpsPort := r.value.httpsPort, httpPort := r.value.httpPort)
    ensures r.Success? ==> PortResolvedFrom(c.httpsPort, DEFAULT_HTTPS_PORT, r.value.httpsPort)
    ensures r.Success? ==> PortResolvedFrom(c.httpPort, DEFAULT_HTTP_PORT, r.value.httpPort)
  {
    DefaultPortsPassCheck();
    var httpsPort :- ResolvePort(c.httpsPort, DEFAULT_HTTPS_PORT);
    var httpPort :- ResolvePort(c.httpPort, DEFAULT_HTTP_PORT);
    Success(c.(httpsPort := httpsPort, httpPort := httpPort))
  }

  /** Each zero timeout is replaced by its own default; nothing else changes. */
  function DefaultTimeouts(c: ServerConfig): (r: ServerConfig)
    ensures r == c.(readTimeout := r.readTimeout, writeTimeout := r.writeTimeout,
                    idleTimeout := r.idleTimeout, gracefulnessTimeout := r.gracefulnessTimeout)
    ensures DurationResolvedFrom(c.readTimeout, DEFAULT_READ_TIMEOUT, r.readTimeout)
    ensures DurationResolvedFrom(c.writeTimeout, DEFAULT_WRITE_TIMEOUT, r.writeTimeout)
    ensures DurationResolvedFrom(c.idleTimeout, DEFAULT_IDLE_TIMEOUT, r.idleTimeout)
    ensures DurationResolvedFrom(c.gracefulnessTimeout, DEFAULT_GRACEFULNESS_TIMEOUT, r.gracefulnessTimeout)
  {
    c.(readTimeout := DefaultDuration(c.readTimeout, DEFAULT_READ_TIMEOUT),
       writeTimeout := DefaultDuration(c.writeTimeout, DEFAULT_WRITE_TIMEOUT),
       idleTimeout := DefaultDuration(c.idleTimeout, DEFAULT_IDLE_TIMEOUT),
       gracefulnessTimeout := DefaultDuration(c.gracefulnessTimeout, DEFAULT_GRACEFULNESS_TIMEOUT))
  }

  /** A missing TLS decision becomes "always serve HTTPS" and a missing
      shutdown error handler becomes the no-op; supplied ones are kept and
      nothing else changes. */
  function DefaultCallbacks(c: ServerConfig): (r: ServerConfig)
    ensures r == c.(serveSSLFunc := r.serveSSLFunc, gracefulShutdownErrHandler := r.gracefulShutdownErrHandler)
    ensures r.serveSSLFunc.Some? && r.gracefulShutdownErrHandler.Some?
    ensures c.serveSSLFunc.None? ==> r.serveSSLFunc.value() == true
    ensures c.serveSSLFunc.Some? ==> r.serveSSLFunc == c.serveSSLFunc
    ensures c.gracefulShutdownErrHandler.None? ==> r.gracefulShutdownErrHandler == Some(NoOp)
    ensures c.gracefulShutdownErrHandler.Some? ==> r.gracefulShutdownErrHandler == c.gracefulShutdownErrHandler
  {
    var c := if c.serveSSLFunc.None? then c.(serveSSLFunc := Some(SERVE_ALWAYS)) else c;
    if c.gracefulShutdownErrHandler.None? then c.(gracefulShutdownErrHandler := Some(NoOp)) else c
  }

  /** The server record built from a fully resolved configuration. Every
      setting lands in its own field: writing them back gives `c` again. */
  function Assemble(c: ServerConfig): (r: SecureServer)
    requires c.handler.Some? && c.certCache.Some?
    requires c.serveSSLFunc.Some? && c.gracefulShutdownErrHandler.Some?
    ensures ConfigOf(r) == c
    ensures r.certMgr.prompt == AcceptTOS
  {
    SecureServer(
      HttpServer(c.readTimeout, c.writeTimeout, c.idleTimeout, c.handler.value),
      CertManager(AcceptTOS, HostWhitelist(c.hostnames), c.certCache.value),
      c.serveSSLFunc.value,
      c.httpsPort,
      c.httpPort,
      c.gracefulnessTimeout,
      c.gracefulShutdownErrHandler.value)
  }

  /** `NewSecureServer`. Hostnames are checked first, then the handler, then
      the HTTPS port and then the HTTP port; once those pass, nothing fails. */
  function NewSecureServer(c: ServerConfig): (r: Result<SecureServer, ConfigError>)
    ensures |c.hostnames| == 0 ==> r.Failure? && r.error == ErrNoHostname
    ensures |c.hostnames| > 0 && c.handler.None? ==> r.Failure? && r.error == ErrNoHandler
    ensures |c.hostnames| > 0 && c.handler.Some? ==>
              (r.Success? <==> PortAccepted(c.httpsPort) && PortAccepted(c.httpPort))
    ensures |c.hostnames| > 0 && c.handler.Some? && r.Failure? ==> r.error == ErrNotAnInteger
    ensures r.Success? ==> Resolves(c, r.value)
  {
    if |c.hostnames| < 1 then Failure(ErrNoHostname)
    else if c.handler.None? then Failure(ErrNoHandler)
    else
      var c1 := DefaultCache(c);
      var c2 :- ResolvePorts(c1);
      var c3 := DefaultTimeouts(c2);
      var c4 := DefaultCallbacks(c3);
      Success(Assemble(c4))
  }

  /** A resolved address is determined by what was supplied: of the two
      candidate spellings `p` and `":" + p`, at most one is a colon integer. */
  lemma PortResolvedFromUnique(supplied: string, fallback: string, a1: string, a2: string)
    requires PortResolvedFrom(supplied, fallback, a1)
    requires PortResolvedFrom(supplied, fallback, a2)
    ensures a1 == a2
  {
    if supplied != "" && a1 != a2 {
      // one of them is `supplied` itself, which then starts with a colon,
      // so the other one has a colon right after its leading colon
      var longer := if a1 == supplied then a2 else a1;
      assert longer == ":" + supplied && supplied[0] == ':';
      AtoiRejectsColon(longer[1..], 0);
    }
  }

  /** Two servers that both meet `Resolves(c, _)` agree on every field; the
      default TLS decision is only known through its answer. */
  lemma ResolvesIsUnique(c: ServerConfig, s1: SecureServer, s2: SecureServer)
    requires Resolves(c, s1) && Resolves(c, s2)
    ensures s1.server == s2.server && s1.certMgr == s2.certMgr
    ensures s1.httpsPort == s2.httpsPort && s1.httpPort == s2.httpPort
    ensures s1.gracefulnessTimeout == s2.gracefulnessTimeout
    ensures s1.gracefulShutdownErrHandler == s2.gracefulShutdownErrHandler
    ensures s1.serveSSLFunc() == s2.serveSSLFunc()
  {
    PortResolvedFromUnique(c.httpsPort, DEFAULT_HTTPS_PORT, s1.httpsPort, s2.httpsPort);
    PortResolvedFromUnique(c.httpPort, DEFAULT_HTTP_PORT, s1.httpPort, s2.httpPort);
  }

  /** A configuration holding only hostnames and a handler. */
  function MinimalConfig(hostnames: seq<string>, handler: HandlerRef): ServerConfig {
    ServerConfig(hostnames, Some(handler), None, None, "", "", 0, 0, 0, 0, None)
  }

  /** Hostnames and a handler suffice, and every other field takes its default. */
  lemma RequiredFieldsSuffice(hostnames: seq<string>, handler: HandlerRef)
    requires |hostnames| > 0
    ensures var r := NewSecureServer(MinimalConfig(hostnames, handler));
      && r.Success?
      && r.value.httpsPort == ":443" && r.value.httpPort == ":80"
      && r.value.server == HttpServer(5 * SECOND, 5 * SECOND, 25 * SECOND, handler)
      && r.value.gracefulnessTimeout == 5 * SECOND
      && r.value.serveSSLFunc() == true
      && r.value.gracefulShutdownErrHandler == NoOp
      && r.value.certMgr == CertManager(AcceptTOS, HostWhitelist(hostnames), DirCache("."))
  {
    DefaultPortsPassCheck();
  }

  /** A port without a colon and the same port with one resolve alike. */
  lemma PortSpellingsAgree(port: string, fallback: string)
    requires port != "" && !HasPrefix(port, ":")
    ensures ResolvePort(port, fallback) == ResolvePort(":" + port, fallback)
  {
    assert TrimPrefix(":" + port, ":") == port;
  }

  /** A colon integer resolves to itself, whatever the default; since
      every resolved address is one, resolving is idempotent. */
  lemma ResolvePortIdempotent(a: string, fallback: string)
    requires IsColonInteger(a)
    ensures ResolvePort(a, fallback) == Success(a)
  {
    ColonPrefixTrimmed(a);
  }

  /** An address that starts with a colon loses exactly that colon to `TrimPrefix`. */
  lemma ColonPrefixTrimmed(a: string)
    requires |a| > 0 && a[0] == ':'
    ensures HasPrefix(a, ":") && TrimPrefix(a, ":") == a[1..]
  {
    assert a[..1] == [a[0]];
  }

  /** A numeral of up to 18 digits, with an optional sign, is accepted as
      a port whether or not it starts with a colon, and resolves to the colon
      followed by the numeral; so `"80"` and `":80"` both give `":80"`, and
      a negative port such as `"-80"` gives `":-80"`. */
  lemma NumeralPortsAccepted(numeral: string, fallback: string)
    requires IsShortNumeral(numeral)
    ensures ResolvePort(numeral, fallback) == Success(":" + numeral)
    ensures ResolvePort(":" + numeral, fallback) == Success(":" + numeral)
  {
    AtoiAcceptsShortNumerals(numeral);
    assert !HasPrefix(numeral, ":") by {
      assert numeral[..1][0] == numeral[0];
    }
    PortSpellingsAgree(numeral, fallback);
  }

  /** A port with a sign in front of its digits is accepted and keeps its
      sign: `"-80"` resolves to `":-80"` and `"+80"` to `":+80"`. */
  lemma SignedPortsAccepted(digits: string, fallback: string)
    requires 0 < |digits| <= 18 && AllDigits(digits)
    ensures ResolvePort("-" + digits, fallback) == Success(":-" + digits)
    ensures ResolvePort("+" + digits, fallback) == Success(":+" + digits)
  {
    assert SplitSign("-" + digits).1 == digits;
    NumeralPortsAccepted("-" + digits, fallback);
    assert ":" + ("-" + digits) == ":-" + digits;
    assert SplitSign("+" + digits).1 == digits;
    NumeralPortsAccepted("+" + digits, fallback);
    assert ":" + ("+" + digits) == ":+" + digits;
  }

  /** Only one leading colon is removed before validation, so a port with
      two colons, or a lone colon, is not an integer. */
  lemma OnlyOneColonRemoved(rest: string, fallback: string)
    ensures ResolvePort("::" + rest, fallback) == Failure(ErrNotAnInteger)
    ensures ResolvePort(":", fallback) == Failure(ErrNotAnInteger)
  {
    var port := "::" + rest;
    assert port[..1] == ":";
    assert TrimPrefix(port, ":") == port[1..];
    AtoiRejectsColon(port[1..], 0);
    assert TrimPrefix(":", ":") == "";
  }

  /** The settings of a resolved server, written back as a configuration. */
  function ConfigOf(s: SecureServer): ServerConfig {
    ServerConfig(
      s.certMgr.hostPolicy.hosts,
      Some(s.server.handler),
      Some(s.serveSSLFunc),
      Some(s.certMgr.cache),
      s.httpsPort,
      s.httpPort,
      s.server.readTimeout,
      s.server.writeTimeout,
      s.server.idleTimeout,
      s.gracefulnessTimeout,
      Some(s.gracefulShutdownErrHandler))
  }

  /** Resolution is idempotent: resolving the settings of a resolved server
      gives back that same server. */
  lemma NewSecureServerIdempotent(c: ServerConfig)
    requires NewSecureServer(c).Success?
    ensures NewSecureServer(ConfigOf(NewSecureServer(c).value)) == NewSecureServer(c)
  {
    var s := NewSecureServer(c).value;
    var c' := ConfigOf(s);
    assert DefaultCache(c') == c';
    assert ResolvePorts(c') == Success(c') by {
      ResolvePortIdempotent(s.httpsPort, DEFAULT_HTTPS_PORT);
      ResolvePortIdempotent(s.httpPort, DEFAULT_HTTP_PORT);
    }
    assert DefaultTimeouts(c') == c';
    assert DefaultCallbacks(c') == c';
    assert Assemble(c') == s;
  }

  /** `p2` is `p1`, or `p1` with the colon it lacked put in front. */
  predicate SameOrColonPrefixed(p1: string, p2: string) {
    p2 == p1 || (p1 != "" && !HasPrefix(p1, ":") && p2 == ":" + p1)
  }

  /** Respelling a port with the colon it lacked does not change what
      `ResolvePorts` produces. */
  lemma ResolvePortsSpelling(c1: ServerConfig, c2: ServerConfig)
    requires c2 == c1.(httpsPort := c2.httpsPort, httpPort := c2.httpPort)
    requires SameOrColonPrefixed(c1.httpsPort, c2.httpsPort)
    requires SameOrColonPrefixed(c1.httpPort, c2.httpPort)
    ensures ResolvePorts(c1) == ResolvePorts(c2)
  {
    assert ResolvePort(c1.httpsPort, DEFAULT_HTTPS_PORT) == ResolvePort(c2.httpsPort, DEFAULT_HTTPS_PORT) by {
      if c2.httpsPort != c1.httpsPort {
        PortSpellingsAgree(c1.httpsPort, DEFAULT_HTTPS_PORT);
      }
    }
    assert ResolvePort(c1.httpPort, DEFAULT_HTTP_PORT) == ResolvePort(c2.httpPort, DEFAULT_HTTP_PORT) by {
      if c2.httpPort != c1.httpPort {
        PortSpellingsAgree(c1.httpPort, DEFAULT_HTTP_PORT);
      }
    }
  }

  /** Configurations that spell their ports with or without the colon
      resolve to the same server, or fail with the same error. */
  lemma PortSpellingGivesSameServer(c1: ServerConfig, c2: ServerConfig)
    requires c2 == c1.(httpsPort := c2.httpsPort, httpPort := c2.httpPort)
    requires SameOrColonPrefixed(c1.httpsPort, c2.httpsPort)
    requires SameOrColonPrefixed(c1.httpPort, c2.httpPort)
    ensures NewSecureServer(c1) == NewSecureServer(c2)
  {
    var d1, d2 := DefaultCache(c1), DefaultCache(c2);
    assert d2 == d1.(httpsPort := c2.httpsPort, httpPort := c2.httpPort);
    ResolvePortsSpelling(d1, d2);
  }

  /** Missing or empty hostnames fail first, even without a handler; then a
      missing handler fails (server_test.go, required fields). */
  lemma TestRequiredFields(hostname: string, handler: HandlerRef)
    ensures NewSecureServer(MinimalConfig([], handler)) == Failure(ErrNoHostname)
    ensures NewSecureServer(MinimalConfig([], handler).(handler := None)) == Failure(ErrNoHostname)
    ensures NewSecureServer(MinimalConfig([hostname], handler).(handler := None)) == Failure(ErrNoHandler)
  {
  }

  /** Numeric ports given without the colon get one, as `"80"` and `"443"`
      become `":80"` and `":443"` (server_test.go, address correction). */
  lemma TestPortAddressCorrection(hostname: string, handler: HandlerRef, http: string, https: string)
    requires 0 < |http| <= 18 && AllDigits(http)
    requires 0 < |https| <= 18 && AllDigits(https)
    ensures var r := NewSecureServer(MinimalConfig([hostname], handler).(httpPort := http, httpsPort := https));
      r.Success? && r.value.httpPort == ":" + http && r.value.httpsPort == ":" + https
  {
    assert IsDigit(http[0]) && IsDigit(https[0]);
    NumeralPortsAccepted(http, DEFAULT_HTTP_PORT);
    NumeralPortsAccepted(https, DEFAULT_HTTPS_PORT);
  }

  /** A port that is not a number fails, whichever port it is
      (server_test.go, address failures). */
  lemma TestPortAddressFailure(hostname: string, handler: HandlerRef)
    ensures NewSecureServer(MinimalConfig([hostname], handler).(httpPort := "not an int")) == Failure(ErrNotAnInteger)
    ensures NewSecureServer(MinimalConfig([hostname], handler).(httpsPort := "not an int")) == Failure(ErrNotAnInteger)
  {
    assert !PortAccepted("not an int") by {
      assert !IsDigit("not an int"[0]);
    }
  }
}
