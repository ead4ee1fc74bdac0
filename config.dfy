/**
 * The configuration loader of internal/config/config.go: the `Config` record tree, the choice
 * of the configuration file path, and the reading of that file followed by the environment
 * overrides, applied one variable at a time in a fixed order.
 *
 * The process environment is a map (a missing key reads as the empty string, as `os.Getenv`
 * does), the file system is a map from path to contents (a missing path is a file that cannot
 * be read), and the YAML decoder and `time.ParseDuration` are parameters of the loader.
 */
module Config {
  import opened Results
  import opened Strconv

  newtype byte = x: int | 0 <= x < 256

  /** A Go `time.Duration`: a count of nanoseconds. */
  type Duration = int

  type Environment = map<string, string>
  type FileSystem = map<string, seq<byte>>

  datatype ServerConfig = ServerConfig(
    host: string, port: int, enableReflection: bool, maxRecvMsgSize: int, maxSendMsgSize: int)
  datatype TLSConfig = TLSConfig(enabled: bool, certFile: string, keyFile: string, clientCAFile: string)
  datatype LoggingConfig = LoggingConfig(level: string, format: string, output: string)
  datatype MetricsConfig = MetricsConfig(enabled: bool, host: string, port: int, path: string)
  datatype TracingConfig = TracingConfig(enabled: bool, endpoint: string, serviceName: string)
  datatype DatabaseConfig = DatabaseConfig(
    url: string, maxOpenConns: int, maxIdleConns: int, connMaxLifetime: Duration)
  datatype CacheConfig = CacheConfig(host: string, port: int, password: string, db: int)
  datatype ExternalServicesConfig = ExternalServicesConfig(userServiceURL: string, paymentServiceURL: string)
  datatype TimeoutsConfig = TimeoutsConfig(defaultRPCTimeout: Duration, handlerTimeout: Duration)
  datatype FeatureFlagsConfig = FeatureFlagsConfig(useNewAlgorithm: bool)

  datatype Config = Config(
    environment: string,
    server: ServerConfig,
    tls: TLSConfig,
    logging: LoggingConfig,
    metrics: MetricsConfig,
    tracing: TracingConfig,
    database: DatabaseConfig,
    cache: CacheConfig,
    externalServices: ExternalServicesConfig,
    timeouts: TimeoutsConfig,
    featureFlags: FeatureFlagsConfig)

  /** Why loading failed, and the file path or the environment variable (with its value) at fault. */
  datatype ConfigError =
    | ReadFailed(path: string)
    | ParseFailed(path: string)
    | InvalidOverride(variable: string, value: string)

  /** `os.Getenv`: an unset variable reads as the empty string. */
  function Getenv(env: Environment, key: string): string {
    if key in env then env[key] else ""
  }

  const ProdConfigPath: string := "configs/prod.yaml"
  const DevConfigPath: string := "configs/dev.yaml"

  /** The path `LoadConfig` reads: `CONFIG_FILE` when set, otherwise chosen by `GO_ENV`. */
  function ConfigPath(env: Environment): (path: string)
    ensures Getenv(env, "CONFIG_FILE") != "" ==> path == Getenv(env, "CONFIG_FILE")
    ensures Getenv(env, "CONFIG_FILE") == "" ==>
              (path == ProdConfigPath <==> Getenv(env, "GO_ENV") == "production")
    ensures Getenv(env, "CONFIG_FILE") == "" ==>
              (path == DevConfigPath <==> Getenv(env, "GO_ENV") != "production")
  {
    var configPath := Getenv(env, "CONFIG_FILE");
    if configPath != "" then configPath
    else if Getenv(env, "GO_ENV") == "production" then ProdConfigPath
    else DevConfigPath
  }

  // ---------------------------------------------------------------------------------------
  // The fields an environment variable can override, and how each override is coerced.
  // ---------------------------------------------------------------------------------------

  /** How an override value is converted: verbatim, a boolean token, `Atoi`, or `ParseDuration`. */
  datatype Kind = StringKind | BoolKind | IntKind | DurationKind

  datatype Value =
    | StringValue(s: string)
    | BoolValue(b: bool)
    | IntValue(n: int)
    | DurationValue(d: Duration)

  predicate HasKind(v: Value, k: Kind) {
    match k
    case StringKind => v.StringValue?
    case BoolKind => v.BoolValue?
    case IntKind => v.IntValue?
    case DurationKind => v.DurationValue?
  }

  /** The fifteen fields that an environment variable overrides. */
  datatype Target =
    | ServerPort
    | ServerEnableReflection
    | LoggingLevel
    | MetricsEnabled
    | MetricsPort
    | DatabaseURL
    | TLSEnabled
    | TLSCertFile
    | TLSKeyFile
    | TLSClientCAFile
    | UserServiceURL
    | PaymentServiceURL
    | UseNewAlgorithm
    | DefaultRPCTimeout
    | HandlerTimeout

  /** The order in which the loader consults the override variables. */
  const OverrideOrder: seq<Target> := [
    ServerPort, ServerEnableReflection, LoggingLevel, MetricsEnabled, MetricsPort, DatabaseURL,
    TLSEnabled, TLSCertFile, TLSKeyFile, TLSClientCAFile, UserServiceURL, PaymentServiceURL,
    UseNewAlgorithm, DefaultRPCTimeout, HandlerTimeout]

  function VarName(t: Target): string {
    match t
    case ServerPort => "GRPC_PORT"
    case ServerEnableReflection => "GRPC_ENABLE_REFLECTION"
    case LoggingLevel => "LOG_LEVEL"
    case MetricsEnabled => "METRICS_ENABLED"
    case MetricsPort => "METRICS_PORT"
    case DatabaseURL => "DATABASE_URL"
    case TLSEnabled => "TLS_ENABLED"
    case TLSCertFile => "TLS_CERT_FILE"
    case TLSKeyFile => "TLS_KEY_FILE"
    case TLSClientCAFile => "TLS_CLIENT_CA_FILE"
    case UserServiceURL => "USER_SERVICE_URL"
    case PaymentServiceURL => "PAYMENT_SERVICE_URL"
    case UseNewAlgorithm => "FEATURE_USE_NEW_ALGORITHM"
    case DefaultRPCTimeout => "DEFAULT_RPC_TIMEOUT"
    case HandlerTimeout => "HANDLER_TIMEOUT"
  }

  function KindOf(t: Target): Kind {
    match t
    case ServerPort | MetricsPort => IntKind
    case ServerEnableReflection | MetricsEnabled | TLSEnabled | UseNewAlgorithm => BoolKind
    case DefaultRPCTimeout | HandlerTimeout => DurationKind
    case _ => StringKind
  }

  /** The current value of a target field. */
  function Get(c: Config, t: Target): (v: Value)
    ensures HasKind(v, KindOf(t))
  {
    match t
    case ServerPort => IntValue(c.server.port)
    case ServerEnableReflection => BoolValue(c.server.enableReflection)
    case LoggingLevel => StringValue(c.logging.level)
    case MetricsEnabled => BoolValue(c.metrics.enabled)
    case MetricsPort => IntValue(c.metrics.port)
    case DatabaseURL => StringValue(c.database.url)
    case TLSEnabled => BoolValue(c.tls.enabled)
    case TLSCertFile => StringValue(c.tls.certFile)
    case TLSKeyFile => StringValue(c.tls.keyFile)
    case TLSClientCAFile => StringValue(c.tls.clientCAFile)
    case UserServiceURL => StringValue(c.externalServices.userServiceURL)
    case PaymentServiceURL => StringValue(c.externalServices.paymentServiceURL)
    case UseNewAlgorithm => BoolValue(c.featureFlags.useNewAlgorithm)
    case DefaultRPCTimeout => DurationValue(c.timeouts.defaultRPCTimeout)
    case HandlerTimeout => DurationValue(c.timeouts.handlerTimeout)
  }

  /**
   * Everything in a configuration that no override reaches: the fifteen target fields are
   * blanked, every other field (environment, server host and message sizes, logging format
   * and output, metrics host and path, all of tracing and cache, the database pool settings)
   * is kept.
   */
  function Untargeted(c: Config): Config {
    c.(server := c.server.(port := 0, enableReflection := false),
       logging := c.logging.(level := ""),
       metrics := c.metrics.(enabled := false, port := 0),
       database := c.database.(url := ""),
       tls := TLSConfig(false, "", "", ""),
       externalServices := ExternalServicesConfig("", ""),
       timeouts := TimeoutsConfig(0, 0),
       featureFlags := FeatureFlagsConfig(false))
  }

  /** Overwrite one target field; nothing else changes. */
  function Set(c: Config, t: Target, v: Value): Config
    requires HasKind(v, KindOf(t))
  {
    match t
    case ServerPort => c.(server := c.server.(port := v.n))
    case ServerEnableReflection => c.(server := c.server.(enableReflection := v.b))
    case LoggingLevel => c.(logging := c.logging.(level := v.s))
    case MetricsEnabled => c.(metrics := c.metrics.(enabled := v.b))
    case MetricsPort => c.(metrics := c.metrics.(port := v.n))
    case DatabaseURL => c.(database := c.database.(url := v.s))
    case TLSEnabled => c.(tls := c.tls.(enabled := v.b))
    case TLSCertFile => c.(tls := c.tls.(certFile := v.s))
    case TLSKeyFile => c.(tls := c.tls.(keyFile := v.s))
    case TLSClientCAFile => c.(tls := c.tls.(clientCAFile := v.s))
    case UserServiceURL => c.(externalServices := c.externalServices.(userServiceURL := v.s))
    case PaymentServiceURL => c.(externalServices := c.externalServices.(paymentServiceURL := v.s))
    case UseNewAlgorithm => c.(featureFlags := c.featureFlags.(useNewAlgorithm := v.b))
    case DefaultRPCTimeout => c.(timeouts := c.timeouts.(defaultRPCTimeout := v.d))
    case HandlerTimeout => c.(timeouts := c.timeouts.(handlerTimeout := v.d))
  }

  /** The boolean override tokens: exactly "true" or "false", nothing else. */
  function ParseBool(raw: string): (r: Option<bool>)
    ensures r == Some(true) <==> raw == "true"
    ensures r == Some(false) <==> raw == "false"
  {
    if raw == "true" then Some(true)
    else if raw == "false" then Some(false)
    else None
  }

  /** A string override: a non-empty value replaces the current one verbatim. */
  function StringOverride(current: string, raw: string): (v: string)
    ensures raw == "" ==> v == current
    ensures raw != "" ==> v == raw
  {
    if raw == "" then current else raw
  }

  /**
   * A checked override: an empty value keeps `current`; a non-empty one must parse, and its
   * parsed value replaces `current`; otherwise the error names the variable and its value.
   */
  function CheckedOverride<T>(current: T, raw: string, name: string, parse: string -> Option<T>)
    : (r: Result<T, ConfigError>)
    ensures raw == "" ==> r == Success(current)
    ensures raw != "" && parse(raw).Some? ==> r == Success(parse(raw).value)
    ensures raw != "" && parse(raw).None? ==> r == Failure(InvalidOverride(name, raw))
  {
    if raw == "" then Success(current)
    else match parse(raw)
      case Some(v) => Success(v)
      case None => Failure(InvalidOverride(name, raw))
  }

  /** The meaning of a non-empty override value for a field of kind `k`, if it is valid. */
  function Parse(k: Kind, raw: string, parseDuration: string -> Option<Duration>): (r: Option<Value>)
    ensures r.Some? ==> HasKind(r.value, k)
  {
    match k
    case StringKind => Some(StringValue(raw))
    case BoolKind =>
      (match ParseBool(raw)
       case Some(b) => Some(BoolValue(b))
       case None => None)
    case IntKind =>
      (match Atoi(raw)
       case Some(n) => Some(IntValue(n))
       case None => None)
    case DurationKind =>
      (match parseDuration(raw)
       case Some(d) => Some(DurationValue(d))
       case None => None)
  }

  /** True when the override variable for `t` is set to a value its field cannot take. */
  predicate Rejects(env: Environment, t: Target, parseDuration: string -> Option<Duration>) {
    var raw := Getenv(env, VarName(t));
    raw != "" && Parse(KindOf(t), raw, parseDuration).None?
  }

  /** The value field `t` holds after its override, when the override is valid. */
  function Effective(c: Config, env: Environment, t: Target, parseDuration: string -> Option<Duration>): (v: Value)
    requires !Rejects(env, t, parseDuration)
    ensures HasKind(v, KindOf(t))
  {
    var raw := Getenv(env, VarName(t));
    if raw == "" then Get(c, t) else Parse(KindOf(t), raw, parseDuration).value
  }

  /** One override step, by the rule for the field's kind. */
  function ApplyOne(c: Config, env: Environment, t: Target, parseDuration: string -> Option<Duration>)
    : Result<Config, ConfigError>
  {
    var raw := Getenv(env, VarName(t));
    match KindOf(t)
    case StringKind => Success(Set(c, t, StringValue(StringOverride(Get(c, t).s, raw))))
    case BoolKind =>
      (match CheckedOverride(Get(c, t).b, raw, VarName(t), ParseBool)
       case Failure(e) => Failure(e)
       case Success(b) => Success(Set(c, t, BoolValue(b))))
    case IntKind =>
      (match CheckedOverride(Get(c, t).n, raw, VarName(t), Atoi)
       case Failure(e) => Failure(e)
       case Success(n) => Success(Set(c, t, IntValue(n))))
    case DurationKind =>
      (match CheckedOverride(Get(c, t).d, raw, VarName(t), parseDuration)
       case Failure(e) => Failure(e)
       case Success(d) => Success(Set(c, t, DurationValue(d))))
  }

  /** The overrides for `targets`, left to right, stopping at the first invalid one. */
  function ApplyOverrides(c: Config, env: Environment, targets: seq<Target>,
                          parseDuration: string -> Option<Duration>): Result<Config, ConfigError>
    decreases |targets|
  {
    if targets == [] then Success(c)
    else match ApplyOne(c, env, targets[0], parseDuration)
      case Failure(e) => Failure(e)
      case Success(c') => ApplyOverrides(c', env, targets[1..], parseDuration)
  }

  /** Reading then decoding the file: a read failure is reported before any decoding. */
  function ReadConfigFile(path: string, files: FileSystem, decode: seq<byte> -> Option<Config>)
    : (r: Result<Config, ConfigError>)
    ensures path !in files ==> r == Failure(ReadFailed(path))
    ensures path in files && decode(files[path]).None? ==> r == Failure(ParseFailed(path))
    ensures path in files && decode(files[path]).Some? ==> r == Success(decode(files[path]).value)
  {
    if path !in files then Failure(ReadFailed(path))
    else match decode(files[path])
      case None => Failure(ParseFailed(path))
      case Some(c) => Success(c)
  }

  /** What loading the file at `path` yields. */
  function LoadedFrom(path: string, env: Environment, files: FileSystem,
                      decode: seq<byte> -> Option<Config>,
                      parseDuration: string -> Option<Duration>): Result<Config, ConfigError>
  {
    match ReadConfigFile(path, files, decode)
    case Failure(e) => Failure(e)
    case Success(c) => ApplyOverrides(c, env, OverrideOrder, parseDuration)
  }

  /** What `LoadConfig` yields. */
  function Loaded(env: Environment, files: FileSystem, decode: seq<byte> -> Option<Config>,
                  parseDuration: string -> Option<Duration>): Result<Config, ConfigError>
  {
    LoadedFrom(ConfigPath(env), env, files, decode, parseDuration)
  }

  /** Running the overrides for `a + b` is running those for `a`, then, unless one failed, those for `b`. */
  lemma {:induction false} ApplyOverridesAppend(c: Config, env: Environment, a: seq<Target>, b: seq<Target>,
                                                parseDuration: string -> Option<Duration>)
    ensures ApplyOverrides(c, env, a + b, parseDuration)
              == match ApplyOverrides(c, env, a, parseDuration)
                 case Failure(e) => Failure(e)
                 case Success(c') => ApplyOverrides(c', env, b, parseDuration)
    decreases |a|
  {
    if a == [] {
      assert a + b == b;
    } else {
      assert (a + b)[0] == a[0];
      assert (a + b)[1..] == a[1..] + b;
      match ApplyOne(c, env, a[0], parseDuration)
      case Failure(_) =>
      case Success(c') => ApplyOverridesAppend(c', env, a[1..], b, parseDuration);
    }
  }

  // ---------------------------------------------------------------------------------------
  // The loader as the program runs it.
  // ---------------------------------------------------------------------------------------

  /** The override variables of each section of the configuration, in the loader's order. */
  const ServerOverrides: seq<Target> := [ServerPort, ServerEnableReflection]
  const LoggingOverrides: seq<Target> := [LoggingLevel]
  const MetricsOverrides: seq<Target> := [MetricsEnabled, MetricsPort]
  const DatabaseOverrides: seq<Target> := [DatabaseURL]
  const TLSOverrides: seq<Target> := [TLSEnabled, TLSCertFile, TLSKeyFile, TLSClientCAFile]
  const ExternalServicesOverrides: seq<Target> := [UserServiceURL, PaymentServiceURL]
  const FeatureFlagsOverrides: seq<Target> := [UseNewAlgorithm]
  const TimeoutsOverrides: seq<Target> := [DefaultRPCTimeout, HandlerTimeout]

  /** The sections follow one another in `OverrideOrder`. */
  lemma OrderBySection()
    ensures OverrideOrder[0..2] == ServerOverrides
    ensures OverrideOrder[2..3] == LoggingOverrides
    ensures OverrideOrder[3..5] == MetricsOverrides
    ensures OverrideOrder[5..6] == DatabaseOverrides
    ensures OverrideOrder[6..10] == TLSOverrides
    ensures OverrideOrder[10..12] == ExternalServicesOverrides
    ensures OverrideOrder[12..13] == FeatureFlagsOverrides
    ensures OverrideOrder[13..15] == TimeoutsOverrides
    ensures OverrideOrder[15..] == []
  {
  }

  /** `cfg` is what the first `k` overrides have made of the decoded `file`. */
  ghost predicate Passed(file: Config, cfg: Config, env: Environment, k: nat,
                         parseDuration: string -> Option<Duration>)
    requires k <= |OverrideOrder|
  {
    ApplyOverrides(file, env, OverrideOrder, parseDuration)
      == ApplyOverrides(cfg, env, OverrideOrder[k..], parseDuration)
  }

  /** From position `k`, the overrides up to `j` either end the load with their error or move it on to `j`. */
  lemma AdvanceSection(file: Config, cfg: Config, env: Environment, k: nat, j: nat,
                       parseDuration: string -> Option<Duration>)
    requires k <= j <= |OverrideOrder|
    requires Passed(file, cfg, env, k, parseDuration)
    ensures ApplyOverrides(cfg, env, OverrideOrder[k..j], parseDuration).Failure? ==>
              ApplyOverrides(file, env, OverrideOrder, parseDuration)
                == ApplyOverrides(cfg, env, OverrideOrder[k..j], parseDuration)
    ensures ApplyOverrides(cfg, env, OverrideOrder[k..j], parseDuration).Success? ==>
              Passed(file, ApplyOverrides(cfg, env, OverrideOrder[k..j], parseDuration).value, env, j, parseDuration)
  {
    SplitSuffix(cfg, env, OverrideOrder, k, j, parseDuration);
  }

  /** The overrides for `order[k..]` are those for `order[k..j]`, then those for `order[j..]`. */
  lemma SplitSuffix(c: Config, env: Environment, order: seq<Target>, k: nat, j: nat,
                    parseDuration: string -> Option<Duration>)
    requires k <= j <= |order|
    ensures ApplyOverrides(c, env, order[k..], parseDuration)
              == match ApplyOverrides(c, env, order[k..j], parseDuration)
                 case Failure(e) => Failure(e)
                 case Success(c') => ApplyOverrides(c', env, order[j..], parseDuration)
  {
    assert order[k..] == order[k..j] + order[j..];
    ApplyOverridesAppend(c, env, order[k..j], order[j..], parseDuration);
  }

  /** `LoadConfig`: pick the path, then load it. */
  method LoadConfig(env: Environment, files: FileSystem, decode: seq<byte> -> Option<Config>,
                    parseDuration: string -> Option<Duration>)
    returns (r: Result<Config, ConfigError>)
    ensures r == Loaded(env, files, decode, parseDuration)
  {
    r := LoadConfigFromFile(ConfigPath(env), env, files, decode, parseDuration);
  }

  /**
   * `loadConfigFromFile`: read and decode the file, then overwrite the fields of the local
   * record section by section, in the source's order, returning at the first invalid override.
   */
  method LoadConfigFromFile(path: string, env: Environment, files: FileSystem,
                            decode: seq<byte> -> Option<Config>,
                            parseDuration: string -> Option<Duration>)
    returns (r: Result<Config, ConfigError>)
    ensures r == LoadedFrom(path, env, files, decode, parseDuration)
  {
    if path !in files {
      return Failure(ReadFailed(path));
    }
    var data := files[path];
    var decoded := decode(data);
    if decoded.None? {
      return Failure(ParseFailed(path));
    }
    var cfg := decoded.value;
    ghost var file := cfg;
    OrderBySection();

    AdvanceSection(file, cfg, env, 0, 2, parseDuration);
    cfg :- ApplyServerOverrides(cfg, env, parseDuration);
    AdvanceSection(file, cfg, env, 2, 3, parseDuration);
    cfg :- ApplyLoggingOverrides(cfg, env, parseDuration);
    AdvanceSection(file, cfg, env, 3, 5, parseDuration);
    cfg :- ApplyMetricsOverrides(cfg, env, parseDuration);
    AdvanceSection(file, cfg, env, 5, 6, parseDuration);
    cfg :- ApplyDatabaseOverrides(cfg, env, parseDuration);
    AdvanceSection(file, cfg, env, 6, 10, parseDuration);
    cfg :- ApplyTLSOverrides(cfg, env, parseDuration);
    AdvanceSection(file, cfg, env, 10, 12, parseDuration);
    cfg :- ApplyExternalServicesOverrides(cfg, env, parseDuration);
    AdvanceSection(file, cfg, env, 12, 13, parseDuration);
    cfg :- ApplyFeatureFlagsOverrides(cfg, env, parseDuration);
    AdvanceSection(file, cfg, env, 13, 15, parseDuration);
    cfg :- ApplyTimeoutsOverrides(cfg, env, parseDuration);
    return Success(cfg);
  }

  /** `GRPC_PORT` (through `Atoi`) and `GRPC_ENABLE_REFLECTION` (a boolean token). */
  method ApplyServerOverrides(c: Config, env: Environment, parseDuration: string -> Option<Duration>)
    returns (r: Result<Config, ConfigError>)
    ensures r == ApplyOverrides(c, env, ServerOverrides, parseDuration)
  {
    var cfg := c;
    var p := Getenv(env, "GRPC_PORT");
    var portInt :- CheckedOverride(cfg.server.port, p, "GRPC_PORT", Atoi);
    cfg := cfg.(server := cfg.server.(port := portInt));

    var refl := Getenv(env, "GRPC_ENABLE_REFLECTION");
    var enableReflection :- CheckedOverride(cfg.server.enableReflection, refl, "GRPC_ENABLE_REFLECTION", ParseBool);
    cfg := cfg.(server := cfg.server.(enableReflection := enableReflection));
    return Success(cfg);
  }

  /** `LOG_LEVEL`, verbatim. */
  method ApplyLoggingOverrides(c: Config, env: Environment, parseDuration: string -> Option<Duration>)
    returns (r: Result<Config, ConfigError>)
    ensures r == ApplyOverrides(c, env, LoggingOverrides, parseDuration)
  {
    var cfg := c;
    var lvl := Getenv(env, "LOG_LEVEL");
    cfg := cfg.(logging := cfg.logging.(level := StringOverride(cfg.logging.level, lvl)));
    return Success(cfg);
  }

  /** `METRICS_ENABLED` (a boolean token) and `METRICS_PORT` (through `Atoi`). */
  method ApplyMetricsOverrides(c: Config, env: Environment, parseDuration: string -> Option<Duration>)
    returns (r: Result<Config, ConfigError>)
    ensures r == ApplyOverrides(c, env, MetricsOverrides, parseDuration)
  {
    var cfg := c;
    var me := Getenv(env, "METRICS_ENABLED");
    var metricsEnabled :- CheckedOverride(cfg.metrics.enabled, me, "METRICS_ENABLED", ParseBool);
    cfg := cfg.(metrics := cfg.metrics.(enabled := metricsEnabled));

    var mp := Getenv(env, "METRICS_PORT");
    var metricsPort :- CheckedOverride(cfg.metrics.port, mp, "METRICS_PORT", Atoi);
    cfg := cfg.(metrics := cfg.metrics.(port := metricsPort));
    return Success(cfg);
  }

  /** `DATABASE_URL`, verbatim. */
  method ApplyDatabaseOverrides(c: Config, env: Environment, parseDuration: string -> Option<Duration>)
    returns (r: Result<Config, ConfigError>)
    ensures r == ApplyOverrides(c, env, DatabaseOverrides, parseDuration)
  {
    var cfg := c;
    var dburl := Getenv(env, "DATABASE_URL");
    cfg := cfg.(database := cfg.database.(url := StringOverride(cfg.database.url, dburl)));
    return Success(cfg);
  }

  /** `TLS_ENABLED` (a boolean token), then the three TLS file paths, verbatim. */
  method ApplyTLSOverrides(c: Config, env: Environment, parseDuration: string -> Option<Duration>)
    returns (r: Result<Config, ConfigError>)
    ensures r == ApplyOverrides(c, env, TLSOverrides, parseDuration)
  {
    var cfg := c;
    var te := Getenv(env, "TLS_ENABLED");
    var tlsEnabled :- CheckedOverride(cfg.tls.enabled, te, "TLS_ENABLED", ParseBool);
    cfg := cfg.(tls := cfg.tls.(enabled := tlsEnabled));

    var cert := Getenv(env, "TLS_CERT_FILE");
    cfg := cfg.(tls := cfg.tls.(certFile := StringOverride(cfg.tls.certFile, cert)));
    assert ApplyOverrides(c, env, TLSOverrides, parseDuration)
      == ApplyOverrides(cfg, env, TLSOverrides[2..], parseDuration);

    var key := Getenv(env, "TLS_KEY_FILE");
    cfg := cfg.(tls := cfg.tls.(keyFile := StringOverride(cfg.tls.keyFile, key)));
    assert ApplyOverrides(c, env, TLSOverrides, parseDuration)
      == ApplyOverrides(cfg, env, TLSOverrides[3..], parseDuration);

    var ca := Getenv(env, "TLS_CLIENT_CA_FILE");
    cfg := cfg.(tls := cfg.tls.(clientCAFile := StringOverride(cfg.tls.clientCAFile, ca)));
    return Success(cfg);
  }

  /** `USER_SERVICE_URL` and `PAYMENT_SERVICE_URL`, verbatim. */
  method ApplyExternalServicesOverrides(c: Config, env: Environment, parseDuration: string -> Option<Duration>)
    returns (r: Result<Config, ConfigError>)
    ensures r == ApplyOverrides(c, env, ExternalServicesOverrides, parseDuration)
  {
    var cfg := c;
    var u := Getenv(env, "USER_SERVICE_URL");
    cfg := cfg.(externalServices := cfg.externalServices.(userServiceURL := StringOverride(cfg.externalServices.userServiceURL, u)));

    var purl := Getenv(env, "PAYMENT_SERVICE_URL");
    cfg := cfg.(externalServices := cfg.externalServices.(paymentServiceURL := StringOverride(cfg.externalServices.paymentServiceURL, purl)));
    return Success(cfg);
  }

  /** `FEATURE_USE_NEW_ALGORITHM`, a boolean token. */
  method ApplyFeatureFlagsOverrides(c: Config, env: Environment, parseDuration: string -> Option<Duration>)
    returns (r: Result<Config, ConfigError>)
    ensures r == ApplyOverrides(c, env, FeatureFlagsOverrides, parseDuration)
  {
    var cfg := c;
    var fn := Getenv(env, "FEATURE_USE_NEW_ALGORITHM");
    var useNewAlgorithm :- CheckedOverride(cfg.featureFlags.useNewAlgorithm, fn, "FEATURE_USE_NEW_ALGORITHM", ParseBool);
    cfg := cfg.(featureFlags := cfg.featureFlags.(useNewAlgorithm := useNewAlgorithm));
    return Success(cfg);
  }

  /** `DEFAULT_RPC_TIMEOUT` and `HANDLER_TIMEOUT`, through `time.ParseDuration`. */
  method ApplyTimeoutsOverrides(c: Config, env: Environment, parseDuration: string -> Option<Duration>)
    returns (r: Result<Config, ConfigError>)
    ensures r == ApplyOverrides(c, env, TimeoutsOverrides, parseDuration)
  {
    var cfg := c;
    var dr := Getenv(env, "DEFAULT_RPC_TIMEOUT");
    var defaultRPCTimeout :- CheckedOverride(cfg.timeouts.defaultRPCTimeout, dr, "DEFAULT_RPC_TIMEOUT", parseDuration);
    cfg := cfg.(timeouts := cfg.timeouts.(defaultRPCTimeout := defaultRPCTimeout));

    var ht := Getenv(env, "HANDLER_TIMEOUT");
    var handlerTimeout :- CheckedOverride(cfg.timeouts.handlerTimeout, ht, "HANDLER_TIMEOUT", parseDuration);
    cfg := cfg.(timeouts := cfg.timeouts.(handlerTimeout := handlerTimeout));
    return Success(cfg);
  }
}
