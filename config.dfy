/**
 * The gateway's configuration record, its defaults, the validation guard
 * chain run at load time, and the service lookups (config/config.go).
 */
module GatewayConfig {
  import opened Wrappers
  import Clock

  datatype ServerConfig = ServerConfig(readTimeout: int, writeTimeout: int, idleTimeout: int)

  datatype JwtConfig = JwtConfig(secretKey: string, tokenDuration: int, refreshDuration: int, issuer: string)

  datatype RateLimitConfig = RateLimitConfig(enabled: bool, requestsPerMin: int, burstSize: int, cleanupInterval: int)

  datatype RedisConfig = RedisConfig(host: string, port: int, password: string, db: int)

  datatype CorsConfig = CorsConfig(
    allowOrigins: seq<string>,
    allowMethods: seq<string>,
    allowHeaders: seq<string>,
    exposeHeaders: seq<string>,
    allowCredentials: bool,
    maxAge: int)

  datatype OpaConfig = OpaConfig(enabled: bool, policyPath: string, bundleUrl: string)

  /** A backend service: its base URL and its timeout in nanoseconds. */
  datatype ServiceEndpoint = ServiceEndpoint(baseUrl: string, timeout: int)

  datatype ExternalServiceEndpoint = ExternalServiceEndpoint(baseUrl: string, timeout: int, webSocket: bool)

  /**
   * A Go map value: either `nil` or an allocated map. Reading a `nil` map
   * behaves like reading an empty one.
   */
  datatype GoMap<V> = Nil | Made(entries: map<string, V>) {
    function Entries(): (m: map<string, V>)
      ensures Nil? ==> m == map[]
      ensures Made? ==> m == entries
    {
      if Nil? then map[] else entries
    }
  }

  datatype Config = Config(
    environment: string,
    port: int,
    server: ServerConfig,
    jwt: JwtConfig,
    rateLimit: RateLimitConfig,
    redis: RedisConfig,
    cors: CorsConfig,
    opa: OpaConfig,
    services: GoMap<ServiceEndpoint>,
    externalServices: GoMap<ExternalServiceEndpoint>)

  /** The placeholder JWT secret shipped as the default. */
  const DefaultSecret := "change-me-in-production"

  /** Why `validateConfig` rejects a configuration. */
  datatype ConfigError =
    | InvalidPort(port: int)
    | EmptySecret
    | DefaultSecretInProduction
    | NonPositiveRequestsPerMin
    | NonPositiveBurstSize

  /** The number of guards `validateConfig` runs. */
  const CheckCount := 5

  /**
   * Guard `i` of `validateConfig`, stated on its own: does it reject `cfg`?
   * 0 port range, 1 empty secret, 2 default secret in production,
   * 3 requests per minute, 4 burst size (3 and 4 only when rate limiting is enabled).
   */
  predicate Fails(cfg: Config, i: nat) {
    match i
    case 0 => !(1 <= cfg.port <= 65535)
    case 1 => cfg.jwt.secretKey == ""
    case 2 => cfg.environment == "production" && cfg.jwt.secretKey == DefaultSecret
    case 3 => cfg.rateLimit.enabled && cfg.rateLimit.requestsPerMin <= 0
    case 4 => cfg.rateLimit.enabled && cfg.rateLimit.burstSize <= 0
    case _ => false
  }

  /** The error guard `i` reports. */
  function ErrorOf(cfg: Config, i: nat): ConfigError {
    match i
    case 0 => InvalidPort(cfg.port)
    case 1 => EmptySecret
    case 2 => DefaultSecretInProduction
    case 3 => NonPositiveRequestsPerMin
    case _ => NonPositiveBurstSize
  }

  /**
   * `validateConfig`: the guards run in a fixed order and the first one that
   * fails is reported; when none fails the result is `None` (Go's `nil`).
   */
  function ValidateConfig(cfg: Config): (r: Option<ConfigError>)
    ensures r.None? <==> forall i :: 0 <= i < CheckCount ==> !Fails(cfg, i)
    ensures r.Some? ==> exists i :: 0 <= i < CheckCount && Fails(cfg, i) && r.value == ErrorOf(cfg, i)
                                    && forall j :: 0 <= j < i ==> !Fails(cfg, j)
  {
    if cfg.port < 1 || cfg.port > 65535 then
      assert Fails(cfg, 0);
      Some(InvalidPort(cfg.port))
    else if cfg.jwt.secretKey == "" then
      assert Fails(cfg, 1) && !Fails(cfg, 0);
      Some(EmptySecret)
    else if cfg.environment == "production" && cfg.jwt.secretKey == DefaultSecret then
      assert Fails(cfg, 2) && !Fails(cfg, 0) && !Fails(cfg, 1);
      Some(DefaultSecretInProduction)
    else if cfg.rateLimit.enabled && cfg.rateLimit.requestsPerMin <= 0 then
      assert Fails(cfg, 3) && !Fails(cfg, 0) && !Fails(cfg, 1) && !Fails(cfg, 2);
      Some(NonPositiveRequestsPerMin)
    else if cfg.rateLimit.enabled && cfg.rateLimit.burstSize <= 0 then
      assert Fails(cfg, 4) && !Fails(cfg, 0) && !Fails(cfg, 1) && !Fails(cfg, 2) && !Fails(cfg, 3);
      Some(NonPositiveBurstSize)
    else
      assert forall i :: 0 <= i < CheckCount ==> !Fails(cfg, i);
      None
  }

  /** The rate-limit guards run only when rate limiting is enabled. */
  lemma DisabledRateLimitUnchecked(cfg: Config, rpm: int, burst: int)
    requires !cfg.rateLimit.enabled
    ensures ValidateConfig(cfg) == ValidateConfig(cfg.(rateLimit := cfg.rateLimit.(requestsPerMin := rpm, burstSize := burst)))
  {
  }

  /** The default secret is refused only in the "production" environment. */
  lemma DefaultSecretOnlyRefusedInProduction(cfg: Config)
    requires 1 <= cfg.port <= 65535 && cfg.jwt.secretKey == DefaultSecret
    ensures ValidateConfig(cfg) == Some(DefaultSecretInProduction) <==> cfg.environment == "production"
  {
  }

  /**
   * `LoadConfig`'s normalisation (lines 113-118): `nil` service maps become
   * empty maps; an allocated map and every other field are kept as they are.
   */
  function InitMaps(cfg: Config): (r: Config)
    ensures r.services.Made? && r.externalServices.Made?
    ensures r.services.Entries() == cfg.services.Entries()
    ensures r.externalServices.Entries() == cfg.externalServices.Entries()
    ensures cfg.services.Made? ==> r.services == cfg.services
    ensures cfg.externalServices.Made? ==> r.externalServices == cfg.externalServices
    ensures r.(services := cfg.services, externalServices := cfg.externalServices) == cfg
  {
    var c1 := if cfg.services.Nil? then cfg.(services := Made(map[])) else cfg;
    if c1.externalServices.Nil? then c1.(externalServices := Made(map[])) else c1
  }

  /** How loading fails once the file and the environment have been decoded. */
  datatype LoadError = InvalidConfiguration(cause: ConfigError)

  /**
   * The tail of `LoadConfig` after decoding: normalise the maps, then validate.
   * Normalising never changes the verdict, since no guard looks at the maps.
   */
  function FinishLoad(decoded: Config): (r: Result<Config, LoadError>)
    ensures r.Success? <==> ValidateConfig(decoded).None?
    ensures r.Success? ==> r.value.services.Made? && r.value.externalServices.Made?
                           && r.value.services.Entries() == decoded.services.Entries()
    ensures r.Success? ==> r.value == InitMaps(decoded)
    ensures r.Failure? ==> r.error == InvalidConfiguration(ValidateConfig(decoded).value)
  {
    var cfg := InitMaps(decoded);
    assert forall i :: Fails(cfg, i) == Fails(decoded, i);
    match ValidateConfig(cfg)
    case Some(e) => Failure(InvalidConfiguration(e))
    case None => Success(cfg)
  }

  /** The values `setDefaults` registers, decoded with no file and no environment overrides. */
  function DefaultConfig(): (cfg: Config)
    ensures ValidateConfig(cfg).None?
    ensures cfg.port == 8080 && cfg.environment == "development"
    ensures cfg.rateLimit.enabled && cfg.rateLimit.requestsPerMin == 100 && cfg.rateLimit.burstSize == 20
    ensures cfg.jwt.secretKey == DefaultSecret
  {
    Config(
      "development",
      8080,
      ServerConfig(15 * Clock.Second, 15 * Clock.Second, 60 * Clock.Second),
      JwtConfig(DefaultSecret, 15 * Clock.Minute, 7 * 24 * 60 * Clock.Minute, "api-gateway"),
      RateLimitConfig(true, 100, 20, 1 * Clock.Minute),
      RedisConfig("localhost", 6379, "", 0),
      CorsConfig(
        ["*"],
        ["GET", "POST", "PUT", "PATCH", "DELETE", "OPTIONS"],
        ["Origin", "Content-Type", "Accept", "Authorization", "X-Request-ID"],
        ["Content-Length", "X-Request-ID"],
        true,
        12 * 3600),
      OpaConfig(true, "./policies", ""),
      Nil,
      Nil)
  }

  /** The defaults with the environment switched to "production" are refused. */
  lemma DefaultsRefusedInProduction()
    ensures ValidateConfig(DefaultConfig().(environment := "production")) == Some(DefaultSecretInProduction)
  {
  }

  /**
   * `GetService`: `found` exactly when the name is a key, the entry itself
   * when found and Go's zero value otherwise.
   */
  function GetService(cfg: Config, name: string): (r: (ServiceEndpoint, bool))
    ensures r.1 <==> name in cfg.services.Entries()
    ensures r.1 ==> r.0 == cfg.services.Entries()[name]
    ensures !r.1 ==> r.0 == ServiceEndpoint("", 0)
  {
    var m := cfg.services.Entries();
    if name in m then (m[name], true) else (ServiceEndpoint("", 0), false)
  }

  /** `GetExternalService`, with the same contract over the external services. */
  function GetExternalService(cfg: Config, name: string): (r: (ExternalServiceEndpoint, bool))
    ensures r.1 <==> name in cfg.externalServices.Entries()
    ensures r.1 ==> r.0 == cfg.externalServices.Entries()[name]
    ensures !r.1 ==> r.0 == ExternalServiceEndpoint("", 0, false)
  {
    var m := cfg.externalServices.Entries();
    if name in m then (m[name], true) else (ExternalServiceEndpoint("", 0, false), false)
  }
}
