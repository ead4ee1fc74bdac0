# Configuration loader of the demo gRPC server, in Dafny

This project models the configuration loader in `internal/config/config.go` and proves what
it promises.

- **The `Config` record tree:** server, TLS, logging, metrics, tracing, database, cache,
  external services, timeouts and feature flags.
- **`LoadConfig`:** picks the file path from `CONFIG_FILE`, or from `GO_ENV` when
  `CONFIG_FILE` is unset.
- **`loadConfigFromFile`:**
  1. Reads the file; a failure is `ReadFailed(path)`.
  2. Decodes it; a failure is `ParseFailed(path)`.
  3. Applies fifteen environment-variable overrides in a fixed order, each guarded by "the
     variable is non-empty".
  4. Returns at the first invalid override with `InvalidOverride(variable, value)`.

Each override follows one of four rules:

- **String overrides** copy the value verbatim.
- **Boolean overrides** accept exactly `"true"` and `"false"`.
- **Integer overrides** go through `strconv.Atoi`, with no range check.
- **Duration overrides** go through `time.ParseDuration`.

Files:

- `results.dfy`: `Option` and `Result`. `Result` supports `:-` for the early returns.
- `strconv.dfy`: Go's `strconv.Atoi` on a 64-bit `int`: an optional `+`/`-`, at least one
  decimal digit, and the int64 range. An `Itoa` partner comes with the round-trip lemmas.
- `config.dfy`: the model itself.
  - The record tree as datatypes. Go's `int` is an unbounded `int`, and `time.Duration` is a
    nanosecond count.
  - The path choice.
  - A table-driven specification: `ApplyOne`, and `ApplyOverrides` over `OverrideOrder`.
  - The loader as imperative methods. `LoadConfigFromFile` reads and decodes, then passes the
    local record through one method per configuration section. Each section method overwrites
    the fields of the record with the source's guarded assignments and early returns, in the
    source's order.
  - Every method is proved equal to the specification.

  The Go function is one body. Splitting it into consecutive section methods keeps each proof
  small. The order of the checks and the early exits are unchanged.
- `properties.dfy`: the properties of the specification, and so of the loader:
  - per-kind override rules;
  - empty equals unset;
  - nothing else changes;
  - first error wins;
  - read before parse before overrides;
  - the exact outcome of a load.

The environment is a `map<string, string>`: a missing key reads as `""`, as with `os.Getenv`.
The file system is a map from path to bytes: a missing path is an unreadable file. The YAML
decoder and `time.ParseDuration` are parameters of the loader.

## Model

| member | source | states |
|---|---|---|
| Config.ConfigPath | internal/config/config.go:103-114 | A non-empty `CONFIG_FILE` is the path verbatim. Otherwise the path is `configs/prod.yaml` iff `GO_ENV` is exactly `production`, and `configs/dev.yaml` iff it is anything else, unset included. |
| Config.ParseBool | internal/config/config.go:140-148 | The boolean tokens: `Some(true)` iff the value is `"true"`, `Some(false)` iff it is `"false"`, nothing else parses. |
| Config.StringOverride | internal/config/config.go:150-152 | An empty value keeps the current string; a non-empty one replaces it verbatim. |
| Config.CheckedOverride | internal/config/config.go:132-138 | Empty keeps the current value. A non-empty value that parses is stored. A non-empty value that does not parse is `InvalidOverride(name, value)`. |
| Config.ReadConfigFile | internal/config/config.go:120-127 | An unreadable path is `ReadFailed(path)` whatever the decoder says. A readable path that does not decode is `ParseFailed(path)`. Otherwise the result is the decoded record. |
| Config.LoadConfig | internal/config/config.go:103-116 | The method's result is the specified load of the path `ConfigPath` chooses. |
| Config.LoadConfigFromFile | internal/config/config.go:119-228 | The method (read, decode, then the eight section methods with their early returns) yields exactly the read/parse result followed by `ApplyOverrides` over `OverrideOrder`. |
| Config.ApplyServerOverrides | internal/config/config.go:131-148 | `GRPC_PORT` through `Atoi`, then `GRPC_ENABLE_REFLECTION` as a boolean token. Equal to the specification over those two targets, including which error stops it. |
| Config.ApplyLoggingOverrides | internal/config/config.go:149-152 | `LOG_LEVEL` verbatim; equal to the specification for that target. |
| Config.ApplyMetricsOverrides | internal/config/config.go:153-170 | `METRICS_ENABLED` as a boolean token, then `METRICS_PORT` through `Atoi`. Equal to the specification, errors included. |
| Config.ApplyDatabaseOverrides | internal/config/config.go:171-174 | `DATABASE_URL` verbatim; equal to the specification for that target. |
| Config.ApplyTLSOverrides | internal/config/config.go:175-193 | `TLS_ENABLED` as a boolean token, then the certificate, key and client-CA paths verbatim. Equal to the specification over those four targets. |
| Config.ApplyExternalServicesOverrides | internal/config/config.go:194-200 | `USER_SERVICE_URL` and `PAYMENT_SERVICE_URL` verbatim; equal to the specification. |
| Config.ApplyFeatureFlagsOverrides | internal/config/config.go:201-210 | `FEATURE_USE_NEW_ALGORITHM` as a boolean token; equal to the specification, error included. |
| Config.ApplyTimeoutsOverrides | internal/config/config.go:211-225 | `DEFAULT_RPC_TIMEOUT`, then `HANDLER_TIMEOUT`, through `time.ParseDuration`. Equal to the specification, errors included. |
| Config.ApplyOverridesAppend | internal/config/config.go:129-227 | Running the overrides of `a + b` is running those of `a`, then, unless one failed, those of `b` on the result. |
| Strconv.Atoi | internal/config/config.go:133 | A parsed value is in the int64 range. Its digits (after an optional sign) are non-empty and all decimal. Without a sign it is non-negative. The exact value and the converse are stated by `Strconv.AtoiDigits`. |
| Strconv.AtoiDigits | internal/config/config.go:133 | Every non-empty digit string, bare or after `+` or `-`, parses to plus or minus its decimal value, leading zeros included, exactly when that value is in the int64 range. Otherwise it is `None`. |
| Strconv.DigitsValueLeadingZero | internal/config/config.go:133 | Prefixing a digit string with `0` keeps it a digit string with the same value. |
| Strconv.AtoiLeadingZero | internal/config/config.go:133 | `Atoi("0" + d) == Atoi(d)` for every non-empty digit string `d`, so `08080` parses as `8080`. |
| Strconv.AtoiItoa | internal/config/config.go:133 | Every int64 survives the round trip through its decimal spelling: `Atoi(Itoa(n)) == Some(n)`. |
| Strconv.AtoiRejectsOutOfRange | internal/config/config.go:133-137 | The decimal spelling of an integer outside the int64 range is rejected (the range error). |
| Strconv.AtoiPlusSign | internal/config/config.go:133 | A leading `+` is accepted and does not change the value. |
| ConfigProperties.SetChangesOnlyItsField | internal/config/config.go:134 | Assigning a target field gives it the new value. Every other target field and every untargeted field keeps its value. |
| ConfigProperties.SetCurrentValue | internal/config/config.go:132 | Writing a field's own value back leaves the record unchanged. |
| ConfigProperties.ApplyOneMeaning | internal/config/config.go:132-225 | One override fails iff its variable is set to a value its kind rejects, with `InvalidOverride(variable, value)`. Otherwise it stores the effective value in its field. |
| ConfigProperties.ApplyOneFailsIffRejects | internal/config/config.go:136 | Both directions: failure iff rejection. The error names the variable and its raw value. |
| ConfigProperties.UnsetKeepsConfig | internal/config/config.go:132 | An unset or empty variable leaves the whole record as it is, with no error. |
| ConfigProperties.BoolOverride | internal/config/config.go:140-148 | `"true"` stores true and `"false"` stores false. Any other non-empty value (`"yes"` or `"True"`, say) is `InvalidOverride` naming the variable. |
| ConfigProperties.IntOverride | internal/config/config.go:132-138 | On `Atoi` success the field is the parsed value, unchecked. On `Atoi` failure the override is `InvalidOverride` naming the variable. |
| ConfigProperties.AnyInt64PortAccepted | internal/config/config.go:164-170 | The decimal spelling of any int64, negative or above 65535, becomes the port as it is. |
| ConfigProperties.StringOverrideVerbatim | internal/config/config.go:185-200 | A set string variable never fails and lands verbatim in its field. |
| ConfigProperties.DurationOverride | internal/config/config.go:212-225 | On `ParseDuration` success the parsed duration is stored. On failure the override is `InvalidOverride` naming the variable. |
| ConfigProperties.SucceedsIffNoneRejects | internal/config/config.go:129-227 | A run of overrides succeeds iff none of its variables holds a rejected value. Any failure is an `InvalidOverride`. |
| ConfigProperties.OverridesStep | internal/config/config.go:132-138 | The first override either stops the run with its own error or hands its result to the rest. |
| ConfigProperties.FirstRejectionReported | internal/config/config.go:129-227 | With several invalid values, the error reported is that of the earliest in order, whatever the record. |
| ConfigProperties.EffectiveOfField | internal/config/config.go:132-225 | A field's value after its override depends only on that field's previous value and the environment. |
| ConfigProperties.AppliedFieldValues | internal/config/config.go:129-227 | With no rejected value the run succeeds. Each targeted field holds its effective value for the starting record, each other target field keeps its value, and the untargeted part is unchanged. |
| ConfigProperties.OverridesReadOnlyTheirVariables | internal/config/config.go:129-227 | Environments that agree on the override variables give the same run. |
| ConfigProperties.OverrideOrderIsComplete | internal/config/config.go:131-225 | Each of the fifteen targets is consulted, and exactly once. |
| ConfigProperties.ReadFailureFirst | internal/config/config.go:120-123 | An unreadable file fails the load with `ReadFailed(path)` in every environment. |
| ConfigProperties.ParseFailureBeforeOverrides | internal/config/config.go:124-127 | A file that does not decode fails with `ParseFailed(path)` in every environment, before any override is looked at. |
| ConfigProperties.LoadedOutcome | internal/config/config.go:103-228 | A load succeeds iff the chosen file reads and decodes and no override value is rejected. Then every target field holds its effective value for the decoded file, and everything else is the file's. |
| ConfigProperties.EffectiveByKind | internal/config/config.go:132-225 | The stored value of a set, accepted variable, by kind: the string; `"true"` or `"false"` as the boolean; the `Atoi` value; the `ParseDuration` value. |
| ConfigProperties.LoadKeepsUntargetedFields | internal/config/config.go:129-227 | On success these fields keep the decoded file's values: `Environment`, `Server.Host`, both message sizes, logging format and output, metrics host and path, all of `Tracing` and `Cache`, and the three database pool settings. |
| ConfigProperties.LoadedReportsFirstRejection | internal/config/config.go:119-228 | After a good read and decode, the load fails with the error of the first rejected variable in `OverrideOrder`, and no configuration is returned. |
| ConfigProperties.OnlyLoaderVariablesMatter | internal/config/config.go:103-228 | Environments that agree on `CONFIG_FILE`, `GO_ENV` and the fifteen override variables load the same result. |
| ConfigProperties.EmptyIsUnset | internal/config/config.go:105-225 | Setting any variable to `""` loads exactly as if it were not set. |
| ConfigProperties.YesIsNotABoolean | internal/config/config.go:154-162 | `METRICS_ENABLED=yes` fails the load with `InvalidOverride("METRICS_ENABLED", "yes")`. |
| ConfigProperties.EarliestInvalidWins | internal/config/config.go:132-184 | With `GRPC_PORT=abc` and `TLS_ENABLED=maybe`, the load reports `GRPC_PORT`. |
| ConfigProperties.NegativePortAccepted | internal/config/config.go:132-138 | `GRPC_PORT=-1` sets the server port to -1. |
| ConfigProperties.PortAbove65535Accepted | internal/config/config.go:164-170 | `METRICS_PORT=70000` sets the metrics port to 70000. |

## Left out

- Reading the file (`os.ReadFile`) is a map lookup. The I/O error itself is not modelled, only that reading failed.
- YAML decoding (`yaml.Unmarshal`) is a decoder parameter from bytes to an optional record. The YAML grammar is foreign code. So are the zero values the decoder gives fields missing from the file.
- `time.ParseDuration` is a parameter from strings to optional nanosecond counts. Its grammar is foreign code.
- Error text (`fmtError`, `fmt.Errorf`, the wrapped `%w` causes) is not modelled. An error is its kind plus the path, or the variable and its value.
- Go returns a `*Config` pointer or nil. The model returns `Success(config)` or `Failure(error)`, so "no config on error" holds by construction.
- The process environment and `os.Getenv` are an explicit map argument, not ambient state.
- The command-line flag `--port` (`cmd/demo-go-server/main.go:24`, `src/go/main.go:24`) and any precedence of flags over file and environment are not modelled: the entry points parse that one flag but never call `LoadConfig`, so the code has no such layering. No `--reflection` flag exists in the code.
- The code has no separate layer of defaults below the file. A field the file leaves out gets Go's zero value, which is decided by the YAML decoder.
- The gRPC bootstrap (`internal/server/server.go`), the entry points (`cmd/demo-go-server/main.go`, `src/go/main.go`), the echo handlers and the build files are left out. They are network plumbing, process wiring, identity functions and build scripts.
