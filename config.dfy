/** `AppConfig::load_from_env` (`src/config.rs`): an immutable configuration
    record built from the process environment, given here as a map from
    variable names to values. */
module Config {
  import opened Wrappers
  import Errors

  newtype u16 = x: int | 0 <= x < 0x1_0000

  const MAX_PORT := 65535

  /** The two hosts the loader ever writes: `[::]` and `0.0.0.0`. */
  datatype IpAddr = V6Unspecified | V4Unspecified

  /** A `std::net::SocketAddr`. */
  datatype SocketAddr = SocketAddr(ip: IpAddr, port: u16)

  datatype AppConfig = AppConfig(
    grpcListenAddr: SocketAddr,
    httpListenAddr: SocketAddr,
    sipListenAddr: SocketAddr,
    env: string,
    rustLog: string,
    serviceVersion: string,
    certPath: string,
    keyPath: string,
    caPath: string,
    registrarServiceUrl: string,
    b2buaServiceUrl: string)

  type Environment = map<string, string>

  const GRPC_PORT_VAR := "PROXY_SERVICE_GRPC_PORT"
  const HTTP_PORT_VAR := "PROXY_SERVICE_HTTP_PORT"
  const SIP_PORT_VAR := "PROXY_SERVICE_SIP_PORT"
  const REGISTRAR_URL_VAR := "REGISTRAR_SERVICE_TARGET_GRPC_URL"
  const B2BUA_URL_VAR := "B2BUA_SERVICE_TARGET_GRPC_URL"
  const ENV_VAR := "ENV"
  const RUST_LOG_VAR := "RUST_LOG"
  const SERVICE_VERSION_VAR := "SERVICE_VERSION"
  const CERT_PATH_VAR := "PROXY_SERVICE_CERT_PATH"
  const KEY_PATH_VAR := "PROXY_SERVICE_KEY_PATH"
  const CA_PATH_VAR := "GRPC_TLS_CA_PATH"

  const V6_ANY_PREFIX := "[::]:"
  const V4_ANY_PREFIX := "0.0.0.0:"

  /** `env::var(name)`: the value if the variable is set. */
  function Var(env: Environment, name: string): (v: Option<string>)
    ensures v.Some? <==> name in env
    ensures v.Some? ==> v.value == env[name]
  {
    if name in env then Some(env[name]) else None
  }

  /** `env::var(name).unwrap_or_else(|_| default)`. */
  function VarOr(env: Environment, name: string, default: string): string {
    Var(env, name).UnwrapOr(default)
  }

  function GrpcPort(env: Environment): string { VarOr(env, GRPC_PORT_VAR, "12071") }
  function HttpPort(env: Environment): string { VarOr(env, HTTP_PORT_VAR, "12070") }
  function SipPort(env: Environment): string { VarOr(env, SIP_PORT_VAR, "5060") }

  // ---------------------------------------------------------------------
  // Ports: a reference definition and the parser std::net uses.

  predicate IsDigit(c: char) { '0' <= c <= '9' }

  function DigitValue(c: char): nat
    requires IsDigit(c)
  {
    (c as int) - ('0' as int)
  }

  predicate AllDigits(s: string) {
    forall i :: 0 <= i < |s| ==> IsDigit(s[i])
  }

  function Pow10(n: nat): (p: nat)
    ensures p >= 1
  {
    if n == 0 then 1 else 10 * Pow10(n - 1)
  }

  /** The number a string of decimal digits denotes, leading zeros allowed. */
  function DecimalValue(s: string): nat
    requires AllDigits(s)
  {
    if s == [] then 0 else DigitValue(s[0]) * Pow10(|s| - 1) + DecimalValue(s[1..])
  }

  /** A valid port: one or more decimal digits denoting at most 65535. */
  predicate IsPort(s: string) {
    |s| > 0 && AllDigits(s) && DecimalValue(s) <= MAX_PORT
  }

  /** The digit reader of the std::net address parser: digits left to right
      into a `u16` accumulator, with `checked_mul(10)` then
      `checked_add(digit)`; any overflow, and any character that is not a
      digit (the whole text must be consumed), fails. */
  function ReadDigits(s: string, acc: u16): Option<u16>
    decreases |s|
  {
    if s == [] then Some(acc)
    else if !IsDigit(s[0]) then None
    else if (acc as int) * 10 > MAX_PORT then None
    else if (acc as int) * 10 + DigitValue(s[0]) > MAX_PORT then None
    else ReadDigits(s[1..], ((acc as int) * 10 + DigitValue(s[0])) as u16)
  }

  /** The port after the final `:`; no digits at all is an error. */
  function ParsePort(s: string): Option<u16> {
    if s == [] then None else ReadDigits(s, 0)
  }

  lemma MulMono(a: nat, b: nat, c: nat)
    requires b <= c
    ensures a * b <= a * c
  {}

  lemma {:induction false} ReadDigitsValue(s: string, acc: u16)
    ensures ReadDigits(s, acc) ==
            if AllDigits(s) && (acc as int) * Pow10(|s|) + DecimalValue(s) <= MAX_PORT
            then Some(((acc as int) * Pow10(|s|) + DecimalValue(s)) as u16)
            else None
    decreases |s|
  {
    if s == [] {
    } else if !IsDigit(s[0]) {
    } else {
      var t := s[1..];
      var d := DigitValue(s[0]);
      var p := Pow10(|t|);
      assert AllDigits(s) <==> AllDigits(t) by {
        assert forall i :: 0 <= i < |t| ==> t[i] == s[i + 1];
      }
      assert Pow10(|s|) == 10 * p;
      if AllDigits(t) {
        assert DecimalValue(s) == d * p + DecimalValue(t);
        assert (acc as int) * Pow10(|s|) + DecimalValue(s)
               == ((acc as int) * 10 + d) * p + DecimalValue(t);
        MulMono((acc as int) * 10 + d, 1, p);
      }
      if (acc as int) * 10 > MAX_PORT {
      } else if (acc as int) * 10 + d > MAX_PORT {
      } else {
        var next := ((acc as int) * 10 + d) as u16;
        ReadDigitsValue(t, next);
      }
    }
  }

  /** The parser accepts exactly the valid ports and yields their value. */
  lemma ParsePortIffIsPort(s: string)
    ensures ParsePort(s) == if IsPort(s) then Some(DecimalValue(s) as u16) else None
  {
    if s != [] {
      ReadDigitsValue(s, 0);
    }
  }

  /** `SocketAddr::from_str`, restricted to the two unspecified hosts the
      loader writes: `[::]:<port>` and `0.0.0.0:<port>`. */
  function ParseSocketAddr(s: string): Option<SocketAddr> {
    if |s| >= |V6_ANY_PREFIX| && s[..|V6_ANY_PREFIX|] == V6_ANY_PREFIX then
      match ParsePort(s[|V6_ANY_PREFIX|..])
      case Some(p) => Some(SocketAddr(V6Unspecified, p))
      case None => None
    else if |s| >= |V4_ANY_PREFIX| && s[..|V4_ANY_PREFIX|] == V4_ANY_PREFIX then
      match ParsePort(s[|V4_ANY_PREFIX|..])
      case Some(p) => Some(SocketAddr(V4Unspecified, p))
      case None => None
    else
      None
  }

  /** Parsing `[::]:p` succeeds exactly when `p` is a valid port. */
  lemma ParseV6AddrIffPort(p: string)
    ensures ParseSocketAddr(V6_ANY_PREFIX + p) ==
            if IsPort(p) then Some(SocketAddr(V6Unspecified, DecimalValue(p) as u16)) else None
  {
    var s := V6_ANY_PREFIX + p;
    assert s[..|V6_ANY_PREFIX|] == V6_ANY_PREFIX;
    assert s[|V6_ANY_PREFIX|..] == p;
    ParsePortIffIsPort(p);
  }

  /** Parsing `0.0.0.0:p` succeeds exactly when `p` is a valid port. */
  lemma ParseV4AddrIffPort(p: string)
    ensures ParseSocketAddr(V4_ANY_PREFIX + p) ==
            if IsPort(p) then Some(SocketAddr(V4Unspecified, DecimalValue(p) as u16)) else None
  {
    var s := V4_ANY_PREFIX + p;
    assert s[..|V6_ANY_PREFIX|] != V6_ANY_PREFIX by {
      assert s[0] != V6_ANY_PREFIX[0];
    }
    assert s[..|V4_ANY_PREFIX|] == V4_ANY_PREFIX;
    assert s[|V4_ANY_PREFIX|..] == p;
    ParsePortIffIsPort(p);
  }

  // ---------------------------------------------------------------------
  // Loading.

  /** `format!(..).parse()?`: an address or an `AddrParseError`. */
  function ParseAddr(text: string): Result<SocketAddr, Errors.AnyError> {
    match ParseSocketAddr(text)
    case Some(a) => Ok(a)
    case None => Err(Errors.AddrParse(text))
  }

  function MissingContext(name: string): string {
    "ZORUNLU: " + name + " eksik"
  }

  /** `env::var(name).context("ZORUNLU: <name> eksik")?`. */
  function Required(env: Environment, name: string): Result<string, Errors.AnyError> {
    match Var(env, name)
    case Some(v) => Ok(v)
    case None => Err(Errors.Context(MissingContext(name), Errors.VarNotPresent))
  }

  /** `AppConfig::load_from_env`: the three listen addresses are parsed in
      the order gRPC, HTTP, SIP; then the struct's fields are evaluated in
      the order written, so the required TLS paths are read in the order
      cert, key, CA. The first failure is the result. */
  function LoadFromEnv(env: Environment): (r: Result<AppConfig, Errors.AnyError>)
    ensures r.Ok? ==> TlsPresent(env)
    ensures r.Ok? ==> r.value.certPath == env[CERT_PATH_VAR] && r.value.keyPath == env[KEY_PATH_VAR]
                      && r.value.caPath == env[CA_PATH_VAR]
    ensures r.Ok? ==> r.value.env == (if ENV_VAR in env then env[ENV_VAR] else "production")
    ensures r.Ok? ==> r.value.rustLog == (if RUST_LOG_VAR in env then env[RUST_LOG_VAR] else "info")
    ensures r.Ok? ==> r.value.serviceVersion ==
                      (if SERVICE_VERSION_VAR in env then env[SERVICE_VERSION_VAR] else "0.1.0")
    ensures r.Ok? ==> r.value.registrarServiceUrl ==
                      (if REGISTRAR_URL_VAR in env then env[REGISTRAR_URL_VAR] else "registrar-service:12061")
    ensures r.Ok? ==> r.value.b2buaServiceUrl ==
                      (if B2BUA_URL_VAR in env then env[B2BUA_URL_VAR] else "b2bua-service:12081")
  {
    var grpcPort := GrpcPort(env);
    var httpPort := HttpPort(env);
    var sipPort := SipPort(env);

    var grpcAddr :- ParseAddr(V6_ANY_PREFIX + grpcPort);
    var httpAddr :- ParseAddr(V6_ANY_PREFIX + httpPort);
    var sipAddr :- ParseAddr(V4_ANY_PREFIX + sipPort);

    var registrar := VarOr(env, REGISTRAR_URL_VAR, "registrar-service:12061");
    var b2bua := VarOr(env, B2BUA_URL_VAR, "b2bua-service:12081");
    var envName := VarOr(env, ENV_VAR, "production");
    var rustLog := VarOr(env, RUST_LOG_VAR, "info");
    var version := VarOr(env, SERVICE_VERSION_VAR, "0.1.0");
    var cert :- Required(env, CERT_PATH_VAR);
    var key :- Required(env, KEY_PATH_VAR);
    var ca :- Required(env, CA_PATH_VAR);

    Ok(AppConfig(
      grpcListenAddr := grpcAddr,
      httpListenAddr := httpAddr,
      sipListenAddr := sipAddr,
      env := envName,
      rustLog := rustLog,
      serviceVersion := version,
      certPath := cert,
      keyPath := key,
      caPath := ca,
      registrarServiceUrl := registrar,
      b2buaServiceUrl := b2bua))
  }

  predicate PortsValid(env: Environment) {
    IsPort(GrpcPort(env)) && IsPort(HttpPort(env)) && IsPort(SipPort(env))
  }

  predicate TlsPresent(env: Environment) {
    CERT_PATH_VAR in env && KEY_PATH_VAR in env && CA_PATH_VAR in env
  }

  /** Loading succeeds exactly when the three port strings are valid ports
      and the three TLS variables are set. */
  lemma LoadSucceedsIff(env: Environment)
    ensures LoadFromEnv(env).Ok? <==> PortsValid(env) && TlsPresent(env)
  {
    ParseV6AddrIffPort(GrpcPort(env));
    ParseV6AddrIffPort(HttpPort(env));
    ParseV4AddrIffPort(SipPort(env));
  }

  /** The first failing check decides the error: the gRPC, HTTP and SIP
      addresses in that order, then the cert, key and CA paths. */
  lemma LoadErrorOrder(env: Environment)
    ensures !IsPort(GrpcPort(env)) ==>
              LoadFromEnv(env) == Err(Errors.AddrParse(V6_ANY_PREFIX + GrpcPort(env)))
    ensures IsPort(GrpcPort(env)) && !IsPort(HttpPort(env)) ==>
              LoadFromEnv(env) == Err(Errors.AddrParse(V6_ANY_PREFIX + HttpPort(env)))
    ensures IsPort(GrpcPort(env)) && IsPort(HttpPort(env)) && !IsPort(SipPort(env)) ==>
              LoadFromEnv(env) == Err(Errors.AddrParse(V4_ANY_PREFIX + SipPort(env)))
    ensures PortsValid(env) && CERT_PATH_VAR !in env ==>
              LoadFromEnv(env) == Err(Errors.Context(MissingContext(CERT_PATH_VAR), Errors.VarNotPresent))
    ensures PortsValid(env) && CERT_PATH_VAR in env && KEY_PATH_VAR !in env ==>
              LoadFromEnv(env) == Err(Errors.Context(MissingContext(KEY_PATH_VAR), Errors.VarNotPresent))
    ensures PortsValid(env) && CERT_PATH_VAR in env && KEY_PATH_VAR in env && CA_PATH_VAR !in env ==>
              LoadFromEnv(env) == Err(Errors.Context(MissingContext(CA_PATH_VAR), Errors.VarNotPresent))
  {
    ParseV6AddrIffPort(GrpcPort(env));
    ParseV6AddrIffPort(HttpPort(env));
    ParseV4AddrIffPort(SipPort(env));
  }

  /** A set port value that is not a valid port makes loading fail. */
  lemma InvalidPortFails(env: Environment, name: string)
    requires name in {GRPC_PORT_VAR, HTTP_PORT_VAR, SIP_PORT_VAR}
    requires name in env && !IsPort(env[name])
    ensures LoadFromEnv(env).Err?
  {
    LoadSucceedsIff(env);
  }

  /** A missing TLS variable makes loading fail. */
  lemma MissingTlsFails(env: Environment, name: string)
    requires name in {CERT_PATH_VAR, KEY_PATH_VAR, CA_PATH_VAR}
    requires name !in env
    ensures LoadFromEnv(env).Err?
  {}

  /** On success the listen addresses carry the configured (or default) port
      numbers, on `[::]` for gRPC and HTTP and on `0.0.0.0` for SIP. */
  lemma LoadedAddresses(env: Environment)
    requires LoadFromEnv(env).Ok?
    ensures PortsValid(env)
    ensures LoadFromEnv(env).value.grpcListenAddr == SocketAddr(V6Unspecified, DecimalValue(GrpcPort(env)) as u16)
    ensures LoadFromEnv(env).value.httpListenAddr == SocketAddr(V6Unspecified, DecimalValue(HttpPort(env)) as u16)
    ensures LoadFromEnv(env).value.sipListenAddr == SocketAddr(V4Unspecified, DecimalValue(SipPort(env)) as u16)
  {
    ParseV6AddrIffPort(GrpcPort(env));
    ParseV6AddrIffPort(HttpPort(env));
    ParseV4AddrIffPort(SipPort(env));
  }

  /** With no port variables set (and the TLS paths present) the addresses
      are `[::]:12071`, `[::]:12070` and `0.0.0.0:5060`. */
  lemma DefaultAddresses(env: Environment)
    requires GRPC_PORT_VAR !in env && HTTP_PORT_VAR !in env && SIP_PORT_VAR !in env
    requires TlsPresent(env)
    ensures LoadFromEnv(env).Ok?
    ensures LoadFromEnv(env).value.grpcListenAddr == SocketAddr(V6Unspecified, 12071)
    ensures LoadFromEnv(env).value.httpListenAddr == SocketAddr(V6Unspecified, 12070)
    ensures LoadFromEnv(env).value.sipListenAddr == SocketAddr(V4Unspecified, 5060)
  {
    DigitsOfDefaults();
    LoadSucceedsIff(env);
    LoadedAddresses(env);
  }

  lemma DigitsOfDefaults()
    ensures IsPort("12071") && DecimalValue("12071") == 12071
    ensures IsPort("12070") && DecimalValue("12070") == 12070
    ensures IsPort("5060") && DecimalValue("5060") == 5060
  {}
}
