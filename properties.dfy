/**
 * What the configuration loader promises, stated over the specification functions of module
 * `Config` (and so, through the `ensures` of `Config.LoadConfig` and `Config.LoadConfigFromFile`,
 * about the loader itself).
 */
module ConfigProperties {
  import opened Results
  import opened Strconv
  import opened Config

  // ---------------------------------------------------------------------------------------
  // Fields and single overrides.
  // ---------------------------------------------------------------------------------------

  /** Setting a target field changes that field and nothing else. */
  lemma SetChangesOnlyItsField(c: Config, t: Target, v: Value)
    requires HasKind(v, KindOf(t))
    ensures Get(Set(c, t, v), t) == v
    ensures forall u :: u != t ==> Get(Set(c, t, v), u) == Get(c, u)
    ensures Untargeted(Set(c, t, v)) == Untargeted(c)
  {
    match t
    case ServerPort =>
    case ServerEnableReflection =>
    case LoggingLevel =>
    case MetricsEnabled =>
    case MetricsPort =>
    case DatabaseURL =>
    case TLSEnabled =>
    case TLSCertFile =>
    case TLSKeyFile =>
    case TLSClientCAFile =>
    case UserServiceURL =>
    case PaymentServiceURL =>
    case UseNewAlgorithm =>
    case DefaultRPCTimeout =>
    case HandlerTimeout =>
  }

  /** Storing a field's current value changes nothing. */
  lemma SetCurrentValue(c: Config, t: Target)
    ensures Set(c, t, Get(c, t)) == c
  {
    match t
    case ServerPort =>
    case ServerEnableReflection =>
    case LoggingLevel =>
    case MetricsEnabled =>
    case MetricsPort =>
    case DatabaseURL =>
    case TLSEnabled =>
    case TLSCertFile =>
    case TLSKeyFile =>
    case TLSClientCAFile =>
    case UserServiceURL =>
    case PaymentServiceURL =>
    case UseNewAlgorithm =>
    case DefaultRPCTimeout =>
    case HandlerTimeout =>
  }

  /**
   * One override: it fails exactly when its variable is set to a value the field's kind
   * rejects, with an error naming the variable and that value; otherwise it stores the
   * effective value in the field.
   */
  lemma ApplyOneMeaning(c: Config, env: Environment, t: Target, parseDuration: string -> Option<Duration>)
    ensures Rejects(env, t, parseDuration) ==>
              ApplyOne(c, env, t, parseDuration) == Failure(InvalidOverride(VarName(t), Getenv(env, VarName(t))))
    ensures !Rejects(env, t, parseDuration) ==>
              ApplyOne(c, env, t, parseDuration) == Success(Set(c, t, Effective(c, env, t, parseDuration)))
  {
    var raw := Getenv(env, VarName(t));
    match KindOf(t)
    case StringKind =>
    case BoolKind =>
      assert raw != "" ==> (ParseBool(raw).Some? <==> Parse(BoolKind, raw, parseDuration).Some?);
    case IntKind =>
    case DurationKind =>
  }

  /** An override fails exactly when its value is rejected, and then with an error naming the variable and the value. */
  lemma ApplyOneFailsIffRejects(c: Config, env: Environment, t: Target, parseDuration: string -> Option<Duration>)
    ensures ApplyOne(c, env, t, parseDuration).Failure? <==> Rejects(env, t, parseDuration)
    ensures ApplyOne(c, env, t, parseDuration).Failure? ==>
              ApplyOne(c, env, t, parseDuration).error == InvalidOverride(VarName(t), Getenv(env, VarName(t)))
  {
    ApplyOneMeaning(c, env, t, parseDuration);
  }

  /** An unset (or empty) variable leaves the configuration as it is. */
  lemma UnsetKeepsConfig(c: Config, env: Environment, t: Target, parseDuration: string -> Option<Duration>)
    requires Getenv(env, VarName(t)) == ""
    ensures ApplyOne(c, env, t, parseDuration) == Success(c)
  {
    ApplyOneMeaning(c, env, t, parseDuration);
    SetCurrentValue(c, t);
  }

  /** A boolean override accepts exactly "true" and "false"; anything else is an error naming the variable. */
  lemma BoolOverride(c: Config, env: Environment, t: Target, parseDuration: string -> Option<Duration>)
    requires KindOf(t) == BoolKind && Getenv(env, VarName(t)) != ""
    ensures Getenv(env, VarName(t)) == "true" ==> ApplyOne(c, env, t, parseDuration) == Success(Set(c, t, BoolValue(true)))
    ensures Getenv(env, VarName(t)) == "false" ==> ApplyOne(c, env, t, parseDuration) == Success(Set(c, t, BoolValue(false)))
    ensures Getenv(env, VarName(t)) != "true" && Getenv(env, VarName(t)) != "false" ==>
              ApplyOne(c, env, t, parseDuration) == Failure(InvalidOverride(VarName(t), Getenv(env, VarName(t))))
  {
    ApplyOneMeaning(c, env, t, parseDuration);
  }

  /** An integer override is `Atoi`: its value is stored whatever its range, and a failure is an error. */
  lemma IntOverride(c: Config, env: Environment, t: Target, parseDuration: string -> Option<Duration>)
    requires KindOf(t) == IntKind && Getenv(env, VarName(t)) != ""
    ensures Atoi(Getenv(env, VarName(t))).Some? ==>
              ApplyOne(c, env, t, parseDuration) == Success(Set(c, t, IntValue(Atoi(Getenv(env, VarName(t))).value)))
    ensures Atoi(Getenv(env, VarName(t))).None? ==>
              ApplyOne(c, env, t, parseDuration) == Failure(InvalidOverride(VarName(t), Getenv(env, VarName(t))))
  {
    ApplyOneMeaning(c, env, t, parseDuration);
  }

  /** No port range is checked: any 64-bit integer, negative or above 65535, becomes the port. */
  lemma AnyInt64PortAccepted(c: Config, env: Environment, t: Target, n: int,
                             parseDuration: string -> Option<Duration>)
    requires KindOf(t) == IntKind && Getenv(env, VarName(t)) == Itoa(n)
    requires MinInt64 <= n <= MaxInt64
    ensures ApplyOne(c, env, t, parseDuration) == Success(Set(c, t, IntValue(n)))
  {
    AtoiItoa(n);
    NatDigitsValue(if n < 0 then -n else n);
    IntOverride(c, env, t, parseDuration);
  }

  /** A string override never fails and stores its value verbatim. */
  lemma StringOverrideVerbatim(c: Config, env: Environment, t: Target, parseDuration: string -> Option<Duration>)
    requires KindOf(t) == StringKind && Getenv(env, VarName(t)) != ""
    ensures ApplyOne(c, env, t, parseDuration) == Success(Set(c, t, StringValue(Getenv(env, VarName(t)))))
  {
    ApplyOneMeaning(c, env, t, parseDuration);
  }

  /** A duration override is `time.ParseDuration`: its value is stored, and a failure is an error. */
  lemma DurationOverride(c: Config, env: Environment, t: Target, parseDuration: string -> Option<Duration>)
    requires KindOf(t) == DurationKind && Getenv(env, VarName(t)) != ""
    ensures parseDuration(Getenv(env, VarName(t))).Some? ==>
              ApplyOne(c, env, t, parseDuration)
                == Success(Set(c, t, DurationValue(parseDuration(Getenv(env, VarName(t))).value)))
    ensures parseDuration(Getenv(env, VarName(t))).None? ==>
              ApplyOne(c, env, t, parseDuration) == Failure(InvalidOverride(VarName(t), Getenv(env, VarName(t))))
  {
    ApplyOneMeaning(c, env, t, parseDuration);
  }

  // ---------------------------------------------------------------------------------------
  // A sequence of overrides.
  // ---------------------------------------------------------------------------------------

  /** The overrides succeed exactly when none of their variables holds a rejected value. */
  lemma {:induction false} SucceedsIffNoneRejects(c: Config, env: Environment, targets: seq<Target>,
                                                  parseDuration: string -> Option<Duration>)
    ensures ApplyOverrides(c, env, targets, parseDuration).Success? <==>
              forall t :: t in targets ==> !Rejects(env, t, parseDuration)
    ensures ApplyOverrides(c, env, targets, parseDuration).Failure? ==>
              ApplyOverrides(c, env, targets, parseDuration).error.InvalidOverride?
    decreases |targets|
  {
    if targets != [] {
      ApplyOneFailsIffRejects(c, env, targets[0], parseDuration);
      assert forall t :: t in targets <==> t == targets[0] || t in targets[1..];
      if !Rejects(env, targets[0], parseDuration) {
        SucceedsIffNoneRejects(ApplyOne(c, env, targets[0], parseDuration).value, env, targets[1..], parseDuration);
      }
    }
  }

  /** The first override of a non-empty sequence either stops it with its error or hands on its result. */
  lemma OverridesStep(c: Config, env: Environment, targets: seq<Target>, parseDuration: string -> Option<Duration>)
    requires targets != []
    ensures Rejects(env, targets[0], parseDuration) ==>
              ApplyOverrides(c, env, targets, parseDuration)
                == Failure(InvalidOverride(VarName(targets[0]), Getenv(env, VarName(targets[0]))))
    ensures !Rejects(env, targets[0], parseDuration) ==>
              ApplyOverrides(c, env, targets, parseDuration)
                == ApplyOverrides(ApplyOne(c, env, targets[0], parseDuration).value, env, targets[1..], parseDuration)
  {
    ApplyOneFailsIffRejects(c, env, targets[0], parseDuration);
  }

  /** The error reported is that of the first override, in order, whose value is rejected. */
  lemma {:induction false} FirstRejectionReported(c: Config, env: Environment, targets: seq<Target>, i: nat,
                                                  parseDuration: string -> Option<Duration>)
    requires i < |targets| && Rejects(env, targets[i], parseDuration)
    requires forall j :: 0 <= j < i ==> !Rejects(env, targets[j], parseDuration)
    ensures ApplyOverrides(c, env, targets, parseDuration)
              == Failure(InvalidOverride(VarName(targets[i]), Getenv(env, VarName(targets[i]))))
    decreases i
  {
    OverridesStep(c, env, targets, parseDuration);
    if i > 0 {
      var rest := targets[1..];
      forall j | 0 <= j < i - 1
        ensures !Rejects(env, rest[j], parseDuration)
      {
        assert rest[j] == targets[j + 1];
      }
      FirstRejectionReported(ApplyOne(c, env, targets[0], parseDuration).value, env, rest, i - 1, parseDuration);
    }
  }

  /** A field's effective value depends only on that field and on the environment. */
  lemma EffectiveOfField(c: Config, d: Config, env: Environment, t: Target, parseDuration: string -> Option<Duration>)
    requires !Rejects(env, t, parseDuration) && Get(c, t) == Get(d, t)
    ensures Effective(c, env, t, parseDuration) == Effective(d, env, t, parseDuration)
  {
  }

  /**
   * When no value is rejected, each target field ends up holding its effective value for the
   * configuration the overrides started from, and every other field keeps its value.
   */
  lemma {:induction false} AppliedFieldValues(c: Config, env: Environment, targets: seq<Target>,
                                              parseDuration: string -> Option<Duration>)
    requires forall t :: t in targets ==> !Rejects(env, t, parseDuration)
    ensures ApplyOverrides(c, env, targets, parseDuration).Success?
    ensures forall t :: t in targets ==>
              Get(ApplyOverrides(c, env, targets, parseDuration).value, t) == Effective(c, env, t, parseDuration)
    ensures forall t :: t !in targets ==> Get(ApplyOverrides(c, env, targets, parseDuration).value, t) == Get(c, t)
    ensures Untargeted(ApplyOverrides(c, env, targets, parseDuration).value) == Untargeted(c)
    decreases |targets|
  {
    if targets != [] {
      var t0 := targets[0];
      assert t0 in targets;
      ApplyOneMeaning(c, env, t0, parseDuration);
      var c1 := Set(c, t0, Effective(c, env, t0, parseDuration));
      SetChangesOnlyItsField(c, t0, Effective(c, env, t0, parseDuration));
      assert forall t :: t in targets[1..] ==> t in targets;
      AppliedFieldValues(c1, env, targets[1..], parseDuration);
      var r := ApplyOverrides(c1, env, targets[1..], parseDuration).value;
      forall t | t in targets
        ensures Get(r, t) == Effective(c, env, t, parseDuration)
      {
        if t in targets[1..] {
          if t == t0 {
            assert Effective(c1, env, t, parseDuration) == Effective(c, env, t, parseDuration);
          } else {
            EffectiveOfField(c1, c, env, t, parseDuration);
          }
        }
      }
      forall t | t !in targets
        ensures Get(r, t) == Get(c, t)
      {
        assert t != t0 && t !in targets[1..];
      }
    }
  }

  /** Overrides read only their own variables. */
  lemma {:induction false} OverridesReadOnlyTheirVariables(c: Config, env1: Environment, env2: Environment,
                                                           targets: seq<Target>,
                                                           parseDuration: string -> Option<Duration>)
    requires forall t :: t in targets ==> Getenv(env1, VarName(t)) == Getenv(env2, VarName(t))
    ensures ApplyOverrides(c, env1, targets, parseDuration) == ApplyOverrides(c, env2, targets, parseDuration)
    decreases |targets|
  {
    if targets != [] {
      assert targets[0] in targets;
      assert forall t :: t in targets[1..] ==> t in targets;
      ApplyOneMeaning(c, env1, targets[0], parseDuration);
      ApplyOneMeaning(c, env2, targets[0], parseDuration);
      match ApplyOne(c, env1, targets[0], parseDuration)
      case Failure(_) =>
      case Success(c') => OverridesReadOnlyTheirVariables(c', env1, env2, targets[1..], parseDuration);
    }
  }

  // ---------------------------------------------------------------------------------------
  // The whole load.
  // ---------------------------------------------------------------------------------------

  /** Every override variable is consulted, each exactly once. */
  lemma OverrideOrderIsComplete()
    ensures forall t :: t in OverrideOrder
    ensures forall i, j :: 0 <= i < j < |OverrideOrder| ==> OverrideOrder[i] != OverrideOrder[j]
  {
    forall t ensures t in OverrideOrder {
      match t
      case ServerPort => assert OverrideOrder[0] == t;
      case ServerEnableReflection => assert OverrideOrder[1] == t;
      case LoggingLevel => assert OverrideOrder[2] == t;
      case MetricsEnabled => assert OverrideOrder[3] == t;
      case MetricsPort => assert OverrideOrder[4] == t;
      case DatabaseURL => assert OverrideOrder[5] == t;
      case TLSEnabled => assert OverrideOrder[6] == t;
      case TLSCertFile => assert OverrideOrder[7] == t;
      case TLSKeyFile => assert OverrideOrder[8] == t;
      case TLSClientCAFile => assert OverrideOrder[9] == t;
      case UserServiceURL => assert OverrideOrder[10] == t;
      case PaymentServiceURL => assert OverrideOrder[11] == t;
      case UseNewAlgorithm => assert OverrideOrder[12] == t;
      case DefaultRPCTimeout => assert OverrideOrder[13] == t;
      case HandlerTimeout => assert OverrideOrder[14] == t;
    }
  }

  /** A file that cannot be read fails the load before decoding or any override is looked at. */
  lemma ReadFailureFirst(path: string, env: Environment, files: FileSystem, decode: seq<byte> -> Option<Config>,
                         parseDuration: string -> Option<Duration>)
    requires path !in files
    ensures LoadedFrom(path, env, files, decode, parseDuration) == Failure(ReadFailed(path))
  {
  }

  /** A file that does not decode fails the load before any override is looked at. */
  lemma ParseFailureBeforeOverrides(path: string, env: Environment, files: FileSystem,
                                    decode: seq<byte> -> Option<Config>,
                                    parseDuration: string -> Option<Duration>)
    requires path in files && decode(files[path]).None?
    ensures LoadedFrom(path, env, files, decode, parseDuration) == Failure(ParseFailed(path))
  {
  }

  /**
   * The load succeeds exactly when the chosen file reads and decodes and no override value is
   * rejected; the loaded configuration then holds every override's effective value for the
   * decoded file in its field and the decoded file's value in every other field.
   */
  lemma LoadedOutcome(env: Environment, files: FileSystem, decode: seq<byte> -> Option<Config>,
                      parseDuration: string -> Option<Duration>)
    ensures Loaded(env, files, decode, parseDuration).Success? <==>
              ConfigPath(env) in files && decode(files[ConfigPath(env)]).Some? &&
              forall t :: !Rejects(env, t, parseDuration)
    ensures Loaded(env, files, decode, parseDuration).Success? ==>
              var file := decode(files[ConfigPath(env)]).value;
              var cfg := Loaded(env, files, decode, parseDuration).value;
              Untargeted(cfg) == Untargeted(file) &&
              forall t :: !Rejects(env, t, parseDuration) && Get(cfg, t) == Effective(file, env, t, parseDuration)
  {
    var path := ConfigPath(env);
    OverrideOrderIsComplete();
    if path in files && decode(files[path]).Some? {
      var file := decode(files[path]).value;
      SucceedsIffNoneRejects(file, env, OverrideOrder, parseDuration);
      if forall t :: !Rejects(env, t, parseDuration) {
        AppliedFieldValues(file, env, OverrideOrder, parseDuration);
      }
    }
  }

  /** The effective value of a set variable, by the kind of its field. */
  lemma EffectiveByKind(c: Config, env: Environment, t: Target, parseDuration: string -> Option<Duration>)
    requires !Rejects(env, t, parseDuration) && Getenv(env, VarName(t)) != ""
    ensures KindOf(t) == StringKind ==> Effective(c, env, t, parseDuration) == StringValue(Getenv(env, VarName(t)))
    ensures KindOf(t) == BoolKind ==>
              Effective(c, env, t, parseDuration) == BoolValue(Getenv(env, VarName(t)) == "true")
    ensures KindOf(t) == BoolKind ==> Getenv(env, VarName(t)) in {"true", "false"}
    ensures KindOf(t) == IntKind ==>
              Atoi(Getenv(env, VarName(t))).Some? &&
              Effective(c, env, t, parseDuration) == IntValue(Atoi(Getenv(env, VarName(t))).value)
    ensures KindOf(t) == DurationKind ==>
              parseDuration(Getenv(env, VarName(t))).Some? &&
              Effective(c, env, t, parseDuration) == DurationValue(parseDuration(Getenv(env, VarName(t))).value)
  {
  }

  /**
   * On success the fields no variable overrides keep the decoded file's values: the
   * environment name, server host and message sizes, logging format and output, metrics host
   * and path, all of tracing and cache, and the database pool settings.
   */
  lemma LoadKeepsUntargetedFields(env: Environment, files: FileSystem, decode: seq<byte> -> Option<Config>,
                                  parseDuration: string -> Option<Duration>)
    requires Loaded(env, files, decode, parseDuration).Success?
    ensures ConfigPath(env) in files && decode(files[ConfigPath(env)]).Some?
    ensures var file := decode(files[ConfigPath(env)]).value;
            var cfg := Loaded(env, files, decode, parseDuration).value;
            && cfg.environment == file.environment
            && cfg.server.host == file.server.host
            && cfg.server.maxRecvMsgSize == file.server.maxRecvMsgSize
            && cfg.server.maxSendMsgSize == file.server.maxSendMsgSize
            && cfg.logging.format == file.logging.format
            && cfg.logging.output == file.logging.output
            && cfg.metrics.host == file.metrics.host
            && cfg.metrics.path == file.metrics.path
            && cfg.tracing == file.tracing
            && cfg.database.maxOpenConns == file.database.maxOpenConns
            && cfg.database.maxIdleConns == file.database.maxIdleConns
            && cfg.database.connMaxLifetime == file.database.connMaxLifetime
            && cfg.cache == file.cache
  {
    LoadedOutcome(env, files, decode, parseDuration);
    var file := decode(files[ConfigPath(env)]).value;
    var cfg := Loaded(env, files, decode, parseDuration).value;
    assert Untargeted(cfg) == Untargeted(file);
    assert Untargeted(cfg).server == Untargeted(file).server;
    assert Untargeted(cfg).logging == Untargeted(file).logging;
    assert Untargeted(cfg).metrics == Untargeted(file).metrics;
    assert Untargeted(cfg).database == Untargeted(file).database;
  }

  /** A failed override fails the whole load with the error of the first rejected variable in order. */
  lemma LoadedReportsFirstRejection(env: Environment, files: FileSystem, decode: seq<byte> -> Option<Config>,
                                    i: nat, parseDuration: string -> Option<Duration>)
    requires ConfigPath(env) in files && decode(files[ConfigPath(env)]).Some?
    requires i < |OverrideOrder| && Rejects(env, OverrideOrder[i], parseDuration)
    requires forall j :: 0 <= j < i ==> !Rejects(env, OverrideOrder[j], parseDuration)
    ensures Loaded(env, files, decode, parseDuration)
              == Failure(InvalidOverride(VarName(OverrideOrder[i]), Getenv(env, VarName(OverrideOrder[i]))))
  {
    FirstRejectionReported(decode(files[ConfigPath(env)]).value, env, OverrideOrder, i, parseDuration);
  }

  /** The variables the loader reads: the path selectors and the fifteen override variables. */
  predicate AgreeOnLoaderVariables(env1: Environment, env2: Environment) {
    && Getenv(env1, "CONFIG_FILE") == Getenv(env2, "CONFIG_FILE")
    && Getenv(env1, "GO_ENV") == Getenv(env2, "GO_ENV")
    && forall t :: Getenv(env1, VarName(t)) == Getenv(env2, VarName(t))
  }

  /** Environments that agree on the loader's variables load the same result. */
  lemma OnlyLoaderVariablesMatter(env1: Environment, env2: Environment, files: FileSystem,
                                  decode: seq<byte> -> Option<Config>,
                                  parseDuration: string -> Option<Duration>)
    requires AgreeOnLoaderVariables(env1, env2)
    ensures Loaded(env1, files, decode, parseDuration) == Loaded(env2, files, decode, parseDuration)
  {
    var path := ConfigPath(env1);
    assert path == ConfigPath(env2);
    if path in files && decode(files[path]).Some? {
      OverridesReadOnlyTheirVariables(decode(files[path]).value, env1, env2, OverrideOrder, parseDuration);
    }
  }

  /** A variable set to the empty string loads exactly as if it were not set at all. */
  lemma EmptyIsUnset(env: Environment, name: string, files: FileSystem, decode: seq<byte> -> Option<Config>,
                     parseDuration: string -> Option<Duration>)
    ensures Loaded(env[name := ""], files, decode, parseDuration)
              == Loaded(env - {name}, files, decode, parseDuration)
  {
    assert forall k :: Getenv(env[name := ""], k) == Getenv(env - {name}, k);
    OnlyLoaderVariablesMatter(env[name := ""], env - {name}, files, decode, parseDuration);
  }

  // ---------------------------------------------------------------------------------------
  // Examples.
  // ---------------------------------------------------------------------------------------

  /** `METRICS_ENABLED=yes` is not a boolean token: the load fails naming the variable and its value. */
  lemma YesIsNotABoolean(files: FileSystem, decode: seq<byte> -> Option<Config>,
                         parseDuration: string -> Option<Duration>)
    requires DevConfigPath in files && decode(files[DevConfigPath]).Some?
    ensures Loaded(map["METRICS_ENABLED" := "yes"], files, decode, parseDuration)
              == Failure(InvalidOverride("METRICS_ENABLED", "yes"))
  {
    var env := map["METRICS_ENABLED" := "yes"];
    assert ConfigPath(env) == DevConfigPath;
    LoadedReportsFirstRejection(env, files, decode, 3, parseDuration);
  }

  /** With two invalid values, the one the loader consults first (`GRPC_PORT`) is reported. */
  lemma EarliestInvalidWins(files: FileSystem, decode: seq<byte> -> Option<Config>,
                            parseDuration: string -> Option<Duration>)
    requires DevConfigPath in files && decode(files[DevConfigPath]).Some?
    ensures Loaded(map["TLS_ENABLED" := "maybe", "GRPC_PORT" := "abc"], files, decode, parseDuration)
              == Failure(InvalidOverride("GRPC_PORT", "abc"))
  {
    var env := map["TLS_ENABLED" := "maybe", "GRPC_PORT" := "abc"];
    assert ConfigPath(env) == DevConfigPath;
    assert Atoi("abc") == None;
    LoadedReportsFirstRejection(env, files, decode, 0, parseDuration);
  }

  /** `GRPC_PORT=-1` becomes the server port as it is: ports are not range-checked. */
  lemma NegativePortAccepted(c: Config, parseDuration: string -> Option<Duration>)
    ensures ApplyOne(c, map["GRPC_PORT" := "-1"], ServerPort, parseDuration)
              == Success(c.(server := c.server.(port := -1)))
  {
    assert Itoa(-1) == "-1";
    AnyInt64PortAccepted(c, map["GRPC_PORT" := "-1"], ServerPort, -1, parseDuration);
  }

  /** `METRICS_PORT=70000` becomes the metrics port although it exceeds 65535. */
  lemma PortAbove65535Accepted(c: Config, parseDuration: string -> Option<Duration>)
    ensures ApplyOne(c, map["METRICS_PORT" := "70000"], MetricsPort, parseDuration)
              == Success(c.(metrics := c.metrics.(port := 70000)))
  {
    assert Itoa(70000) == "70000";
    AnyInt64PortAccepted(c, map["METRICS_PORT" := "70000"], MetricsPort, 70000, parseDuration);
  }
}
