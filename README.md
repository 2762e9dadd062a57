# Structured logging facade (logger.go), modelled in Dafny

`logger.go` is a thin process-wide wrapper around a leveled, structured logging
backend. This project models its own logic and treats the backend as abstract:

- **Configuration resolution.** `InitLogger` starts from the development or
  production template. It sets the colour level encoder only for development
  with the `text` format. It then sets the encoding from `getLogFormat` and the
  threshold from `getLogLevel`, applies the first override callback and builds the
  backend. Only if the build succeeds does it redirect the standard library's
  log output to the new backend. An
  unrecognised format falls back to `json` and an unrecognised level to
  `info`. Each fallback sends one informational notice through the logger that
  is installed at that moment.
- **Logging facade.** Five severities, ordered by the backend's numeric levels:
  debug < info < warn < error < fatal. A `Log<Level>Enabled` check compares its
  level with the installed threshold. A `Log<Level>` call hands the backend one
  record holding the message and the request identifier. The caller's field
  map goes under a `fields` key exactly when the map is non-nil.
- **Error deduplication.** `LogError` returns an `Error` value unchanged and
  emits nothing. Any other error, with nil counting as an empty error, is
  emitted as one error record and returned wrapped as `Error{message, cause}`.
  The next layer's `LogError` then short-circuits.

Modules: `Wrappers` (Option), `Severity`, `Errors`, `Records`, `Configuration`,
`Dedup` (the log-once contract stated on values) and `Facade`. `Facade` holds
the class `Logger`: the package-level `Logger` handle and the `zapLogger`
global in one object. Its fields are the configuration of the installed
backend, the sequence of records the backend has emitted, and how many times
standard-library output was redirected. Each method's `ensures` ties the new
state to the specification functions in `Records`, `Configuration` and
`Dedup`. The lemmas are proved about those functions.

`records` holds the entries the facade hands to the backend's core that pass its
level check. The core drops a record whose level is below the threshold, so a
`Log*` call appends its record exactly when the matching `Log*Enabled` check
holds. The production template's sampling can drop further repeated entries;
that is not modelled (see Left out).

- A failed build does not keep the previous logger: logger.go:46 assigns
  `Build`'s result straight into `zapLogger`, so the model promises nothing
  about the installed backend after a failure.
- The fallback notices are info records: `getLogFormat` and `getLogLevel` call
  `LogInfo` (logger.go:61, 75).
- The swap of `zapLogger` is not synchronised (see Left out).

## Model

| member | source | states |
|---|---|---|
| `Severity.EnabledLevels` | logger.go:99-167 | a threshold lets through exactly the levels at or above it, listed level by level for each threshold |
| `Severity.FatalAlwaysEnabled` | logger.go:164-167 | fatal records pass every threshold |
| `Errors.NewError` | logger.go:86-97 | the built value's `Error()` is the message and its `RawError()` the raw cause |
| `Errors.ErrorDeterminedByAccessors` | logger.go:80-97 | two Error values are equal exactly when `Error()` and `RawError()` agree |
| `Records.FieldsKeyExactlyWhenGiven` | logger.go:141-148 | a record has a `fields` key iff a field map was passed; it always has `requestId`; it has `error` iff it carries a cause |
| `Records.EmptyFieldsDistinguishable` | logger.go:143-147 | an empty non-nil map gives a different record, with a `fields` key, from a nil map |
| `Configuration.ResolveFormat` | logger.go:54-64 | the encoding is `json` or `console`; `console` exactly for `text`; fallback exactly for strings other than `json` and `text` |
| `Configuration.FormatRoundTrip` | logger.go:54-64 | recognised format names and backend encodings map to each other and back without fallback |
| `Configuration.ResolveLevel` | logger.go:66-78 | the threshold is debug, info or error; fallback exactly for unrecognised names, and then info; a recognised name is the name of its level |
| `Configuration.LevelRoundTrip` | logger.go:66-78 | the name of debug, info or error resolves back to that level without fallback |
| `Configuration.FallbackNoticeCount` | logger.go:54-78 | one info notice, with the internal request id and no fields, for each unrecognised option, and it carries that option's message |
| `Configuration.InvalidLevelFallsBack` | logger.go:66-78 | an unrecognised level, with a recognised format and either template, yields the info threshold and exactly the one level notice |
| `Configuration.InvalidFormatFallsBack` | logger.go:54-64 | an unrecognised format, with a recognised level and either template, yields the json encoding and exactly the one format notice |
| `Configuration.BaseConfig` | logger.go:31-41 | the template follows `isDev`; encoding and threshold are the resolved ones; the colour encoder is set iff development and `text`, else the template's encoder stays |
| `Configuration.AssembleWithoutCallback` | logger.go:40-44 | with no callback the built configuration is the resolved one |
| `Configuration.CallbackRunsLast` | logger.go:40-44 | the callback is applied to the fully resolved configuration, so its changes win |
| `Configuration.OnlyFirstCallback` | logger.go:42-44 | callbacks after the first have no effect |
| `Configuration.CallbackOverridesLevel` | logger.go:41-44 | a callback setting debug overrides the `error` option |
| `Dedup.LogErrorOutcome` | logger.go:105-119 | an Error value is returned unchanged with nothing emitted; otherwise the result has the message and the cause text, and one error record with that cause, request id and fields is emitted iff error is enabled |
| `Dedup.LogErrorIdempotent` | logger.go:105-119 | feeding LogError's result back in returns the same value and emits nothing |
| `Dedup.NilCauseIsEmpty` | logger.go:110-112 | a nil error is wrapped with an empty raw cause, and any record emitted for it has the empty cause |
| `Dedup.PropagateFromLogged` | logger.go:106-109 | an Error value crosses any number of LogError layers unchanged and without emitting |
| `Dedup.LoggedExactlyOnce` | logger.go:105-119 | across a chain of layers the result and records are those of the first call: at most one record, exactly one when the error is new and error is enabled |
| `Facade.Logger.constructor` | logger.go:24-28 | the default `InitLogger("info", "json", false)` emits nothing and installs the resolved configuration if the build succeeds |
| `Facade.Logger.InitLogger` | logger.go:30-51 | fallback notices go through the old backend; the assembled configuration is built; on success it is installed and output redirected once; on failure the build error is returned and nothing is redirected |
| `Facade.Logger.GetLogFormat` | logger.go:54-64 | returns the resolved encoding and logs the format notice at info only on fallback |
| `Facade.Logger.GetLogLevel` | logger.go:66-78 | returns the resolved threshold and logs the level notice at info only on fallback |
| `Facade.Logger.LogErrorEnabled` | logger.go:99-102 | true unless the threshold is fatal |
| `Facade.Logger.LogError` | logger.go:104-120 | result and new records are those of `Dedup.LogErrorOutcome` at the installed threshold; configuration unchanged |
| `Facade.Logger.LogWarnEnabled` | logger.go:122-125 | true exactly for thresholds debug, info and warn |
| `Facade.Logger.LogWarn` | logger.go:127-134 | appends the warn record, with fields iff given, when warn is enabled |
| `Facade.Logger.LogInfoEnabled` | logger.go:136-139 | true exactly for thresholds debug and info |
| `Facade.Logger.LogInfo` | logger.go:141-148 | appends the info record, with fields iff given, when info is enabled |
| `Facade.Logger.LogDebugEnabled` | logger.go:150-153 | true exactly for the debug threshold |
| `Facade.Logger.LogDebug` | logger.go:155-162 | appends the debug record, with fields iff given, when debug is enabled |
| `Facade.Logger.LogFatalEnabled` | logger.go:164-167 | always true |
| `Facade.Logger.LogFatal` | logger.go:169-176 | always appends the fatal record, with fields iff given |
| `Facade.ErrorThresholdScenario` | logger.go:99-119 | after a successful `InitLogger("error", ...)` debug, info and warn are off and error and fatal on; an error logged twice is returned unchanged and emitted once |

## Left out

- The backend itself (encoders, sinks, `zap.Any` serialisation, timestamps, caller annotation from `zap.AddCallerSkip`) is foreign code. `Config` keeps only the four settings the facade touches. `Config.Build` is the caller-supplied function `build`, returning a build error or none. `zap.RedirectStdLog` is the `redirects` counter.
- The templates' defaults (development: console, debug, capitalised levels; production: json, info, lower-case levels) are the backend's, not this repository's. The facade overwrites encoding and level in any case.
- Facade.Logger.InitLogger: after a failed build it promises nothing about `backend`. The code stores whatever `Build` returned, which is not part of this model.
- Calls on the logger after a failed build would dereference the backend's nil result. The model does not represent that crash.
- Sampling: the production template (logger.go:38) samples repeated entries with the same level and message, so past the first hundred in a second the core writes only every hundredth while `Core().Enabled` still holds. `records` are the entries that pass the level check; sampling is not modelled. A dropped entry makes the real program log fewer records than `Dedup.LoggedExactlyOnce` and the fallback notices count, never more.
- `LogFatal`'s process termination: the model stops once the fatal record is emitted.
- Concurrency and the unsynchronised global `zapLogger` (logger.go:24-28): the model is sequential.
- The backend's dpanic and panic levels, which an override callback could set as the threshold, are not in `Severity.Level`.
- The value of `internalRequestID` (logger.go:61, 75) is not defined in logger.go. It is the `Logger` constant `internalRequestId`, set by the constructor.
- Field values (`interface{}`) are the opaque type `Records.Value`.
- Override callbacks are pure functions from `Config` to `Config`. A callback that logs, panics or is nil is not modelled.
- A pointer `*Error` passed to `LogError` fails the type assertion at logger.go:106 and would be logged again. Callers get `Error` values, never pointers, so `Errors.Failure` has no pointer case.
