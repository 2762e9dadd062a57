/**
 * The process-wide logger: the configuration of the backend currently
 * installed, the records that backend has emitted, and how many times the
 * standard library's log output has been redirected to it. Every Log* call
 * appends its record when the installed threshold lets its level through.
 */
module Facade {

  import opened Wrappers
  import opened Severity
  import opened Errors
  import opened Records
  import opened Configuration
  import opened Dedup

  class Logger {

    /** The request identifier the facade uses for its own notices. */
    const internalRequestId: string

    /** The configuration the installed backend was built from. */
    var backend: Config
    var records: seq<Record>
    var redirects: nat

    /** Package initialisation: the default InitLogger("info", "json", false), its error ignored. */
    constructor (internalRequestId: string, build: Config -> Option<string>)
      ensures this.internalRequestId == internalRequestId
      ensures records == []
      ensures var config := BaseConfig(LOG_LEVEL_INFO, LOG_FORMAT_JSON, false);
              && (build(config).None? ==> backend == config && redirects == 1)
              && (build(config).Some? ==> redirects == 0)
    {
      this.internalRequestId := internalRequestId;
      backend := ProductionConfig();
      records := [];
      redirects := 0;
      new;
      var ignored := InitLogger(LOG_LEVEL_INFO, LOG_FORMAT_JSON, false, [], build);
    }

    /** Hands one record to the installed backend, which keeps it if its level is enabled. */
    method Emit(r: Record)
      modifies this
      ensures records == old(records) + Emitted(old(backend.level), r)
      ensures backend == old(backend) && redirects == old(redirects)
    {
      if Enabled(backend.level, r.level) {
        records := records + [r];
      }
    }

    method InitLogger(logLevel: string, logFormat: string, isDev: bool,
                      configCb: seq<Config -> Config>, build: Config -> Option<string>)
      returns (err: Option<string>)
      modifies this
      ensures records == old(records)
        + (if Enabled(old(backend.level), InfoLevel) then FallbackNotices(internalRequestId, logLevel, logFormat) else [])
      ensures var config := Assemble(logLevel, logFormat, isDev, configCb);
              && err == build(config)
              && (err.None? ==> backend == config && redirects == old(redirects) + 1)
              && (err.Some? ==> redirects == old(redirects))
    {
      var config: Config;
      if isDev {
        config := DevelopmentConfig();
        if logFormat == LOG_FORMAT_TEXT {
          config := config.(levelEncoder := CapitalColorLevel);
        }
      } else {
        config := ProductionConfig();
      }
      var encoding := GetLogFormat(logFormat);
      config := config.(encoding := encoding);
      var level := GetLogLevel(logLevel);
      config := config.(level := level);
      if |configCb| > 0 {
        config := configCb[0](config);
      }
      err := build(config);
      if err.Some? {
        return;
      }
      backend := config;
      redirects := redirects + 1;
    }

    method GetLogFormat(logFormat: string) returns (encoding: string)
      modifies this
      ensures encoding == ResolveFormat(logFormat).value
      ensures records == old(records) +
        if ResolveFormat(logFormat).fallback
        then Emitted(old(backend.level), Record(InfoLevel, FORMAT_FALLBACK_MESSAGE, internalRequestId, None, None))
        else []
      ensures backend == old(backend) && redirects == old(redirects)
    {
      if logFormat == LOG_FORMAT_JSON {
        encoding := LOG_FORMAT_JSON;
      } else if logFormat == LOG_FORMAT_TEXT {
        encoding := CONSOLE_ENCODING;
      } else {
        LogInfo(internalRequestId, FORMAT_FALLBACK_MESSAGE, None);
        encoding := LOG_FORMAT_JSON;
      }
    }

    method GetLogLevel(logLevel: string) returns (level: Level)
      modifies this
      ensures level == ResolveLevel(logLevel).value
      ensures records == old(records) +
        if ResolveLevel(logLevel).fallback
        then Emitted(old(backend.level), Record(InfoLevel, LEVEL_FALLBACK_MESSAGE, internalRequestId, None, None))
        else []
      ensures backend == old(backend) && redirects == old(redirects)
    {
      if logLevel == LOG_LEVEL_DEBUG {
        level := DebugLevel;
      } else if logLevel == LOG_LEVEL_INFO {
        level := InfoLevel;
      } else if logLevel == LOG_LEVEL_ERROR {
        level := ErrorLevel;
      } else {
        LogInfo(internalRequestId, LEVEL_FALLBACK_MESSAGE, None);
        level := InfoLevel;
      }
    }

    function LogErrorEnabled(): (b: bool)
      reads this
      ensures b <==> backend.level != FatalLevel
    {
      Enabled(backend.level, ErrorLevel)
    }

    /** Logs `err` once: an Error value passes through untouched, anything else is logged and wrapped. */
    method LogError(requestId: string, message: string, err: Option<Failure>, fields: Option<Fields>)
      returns (r: Error)
      modifies this
      ensures var o := LogErrorOutcome(old(backend.level), requestId, message, err, fields);
              r == o.result && records == old(records) + o.emitted
      ensures backend == old(backend) && redirects == old(redirects)
    {
      if err.Some? && err.value.AlreadyLogged? {
        return err.value.logged;
      }
      var cause := if err.None? then Raw("") else err.value;
      if fields.Some? {
        Emit(Record(ErrorLevel, message, requestId, Some(cause.Text()), fields));
      } else {
        Emit(Record(ErrorLevel, message, requestId, Some(cause.Text()), None));
      }
      r := Error(message, cause.Text());
    }

    function LogWarnEnabled(): (b: bool)
      reads this
      ensures b <==> backend.level in {DebugLevel, InfoLevel, WarnLevel}
    {
      Enabled(backend.level, WarnLevel)
    }

    method LogWarn(requestId: string, message: string, fields: Option<Fields>)
      modifies this
      ensures records == old(records) + Emitted(old(backend.level), Record(WarnLevel, message, requestId, None, fields))
      ensures backend == old(backend) && redirects == old(redirects)
    {
      if fields.Some? {
        Emit(Record(WarnLevel, message, requestId, None, fields));
      } else {
        Emit(Record(WarnLevel, message, requestId, None, None));
      }
    }

    function LogInfoEnabled(): (b: bool)
      reads this
      ensures b <==> backend.level in {DebugLevel, InfoLevel}
    {
      Enabled(backend.level, InfoLevel)
    }

    method LogInfo(requestId: string, message: string, fields: Option<Fields>)
      modifies this
      ensures records == old(records) + Emitted(old(backend.level), Record(InfoLevel, message, requestId, None, fields))
      ensures backend == old(backend) && redirects == old(redirects)
    {
      if fields.Some? {
        Emit(Record(InfoLevel, message, requestId, None, fields));
      } else {
        Emit(Record(InfoLevel, message, requestId, None, None));
      }
    }

    function LogDebugEnabled(): (b: bool)
      reads this
      ensures b <==> backend.level == DebugLevel
    {
      Enabled(backend.level, DebugLevel)
    }

    method LogDebug(requestId: string, message: string, fields: Option<Fields>)
      modifies this
      ensures records == old(records) + Emitted(old(backend.level), Record(DebugLevel, message, requestId, None, fields))
      ensures backend == old(backend) && redirects == old(redirects)
    {
      if fields.Some? {
        Emit(Record(DebugLevel, message, requestId, None, fields));
      } else {
        Emit(Record(DebugLevel, message, requestId, None, None));
      }
    }

    function LogFatalEnabled(): (b: bool)
      reads this
      ensures b
    {
      Enabled(backend.level, FatalLevel)
    }

    /** Emits a fatal record; the process exit that follows is not modelled. */
    method LogFatal(requestId: string, message: string, fields: Option<Fields>)
      modifies this
      ensures records == old(records) + [Record(FatalLevel, message, requestId, None, fields)]
      ensures backend == old(backend) && redirects == old(redirects)
    {
      if fields.Some? {
        Emit(Record(FatalLevel, message, requestId, None, fields));
      } else {
        Emit(Record(FatalLevel, message, requestId, None, None));
      }
    }
  }

  /**
   * After InitLogger("error", ...) succeeds without a callback, the debug, info
   * and warn checks are off and the error and fatal checks are on; an error
   * logged twice through the facade is returned unchanged and emitted once.
   */
  method ErrorThresholdScenario(build: Config -> Option<string>, logFormat: string, isDev: bool,
                                requestId: string, message: string, cause: string)
    returns (ok: bool)
    ensures ok == build(BaseConfig(LOG_LEVEL_ERROR, logFormat, isDev)).None?
  {
    var log := new Logger("internal", build);
    var err := log.InitLogger(LOG_LEVEL_ERROR, logFormat, isDev, [], build);
    ok := err.None?;
    if ok {
      assert !log.LogDebugEnabled() && !log.LogInfoEnabled() && !log.LogWarnEnabled();
      assert log.LogErrorEnabled() && log.LogFatalEnabled();
      var before := log.records;
      var first := log.LogError(requestId, message, Some(Raw(cause)), None);
      var second := log.LogError(requestId, message, Some(AlreadyLogged(first)), Some(map[]));
      assert second == first && first.RawError() == cause;
      assert log.records == before + [Record(ErrorLevel, message, requestId, Some(cause), None)];
    }
  }
}
