/**
 * Resolution of InitLogger's options into a backend configuration:
 * the format and level names, the development/production templates, the
 * colour level encoder and the caller's override callback.
 */
module Configuration {

  import opened Wrappers
  import opened Severity
  import opened Records

  const LOG_LEVEL_INFO := "info"
  const LOG_LEVEL_DEBUG := "debug"
  const LOG_LEVEL_ERROR := "error"

  const LOG_FORMAT_JSON := "json"
  const LOG_FORMAT_TEXT := "text"

  /** The backend's name for its human-readable encoding. */
  const CONSOLE_ENCODING := "console"

  const FORMAT_FALLBACK_MESSAGE := "Invalid log format provided switching to log format json"
  const LEVEL_FALLBACK_MESSAGE := "Invalid log level provided switching to log level info"

  /** How the backend renders the level of a record. */
  datatype LevelEncoder = LowercaseLevel | CapitalLevel | CapitalColorLevel

  /** The part of the backend's configuration this facade sets or reads. */
  datatype Config = Config(
    development: bool,
    encoding: string,
    level: Level,
    levelEncoder: LevelEncoder)

  /** The backend's development template: console encoding, debug threshold, capitalised levels. */
  function DevelopmentConfig(): Config
  {
    Config(true, CONSOLE_ENCODING, DebugLevel, CapitalLevel)
  }

  /** The backend's production template: JSON encoding, info threshold, lower-case levels. */
  function ProductionConfig(): Config
  {
    Config(false, LOG_FORMAT_JSON, InfoLevel, LowercaseLevel)
  }

  /** The result of resolving one option string, and whether the default had to be used. */
  datatype Resolved<T> = Resolved(value: T, fallback: bool)

  /** getLogFormat without its fallback notice: the encoding name for a format option. */
  function ResolveFormat(logFormat: string): (r: Resolved<string>)
    ensures r.value in {LOG_FORMAT_JSON, CONSOLE_ENCODING}
    ensures r.fallback <==> logFormat !in {LOG_FORMAT_JSON, LOG_FORMAT_TEXT}
    ensures r.value == CONSOLE_ENCODING <==> logFormat == LOG_FORMAT_TEXT
  {
    if logFormat == LOG_FORMAT_JSON then Resolved(LOG_FORMAT_JSON, false)
    else if logFormat == LOG_FORMAT_TEXT then Resolved(CONSOLE_ENCODING, false)
    else Resolved(LOG_FORMAT_JSON, true)
  }

  /** The option name that selects a backend encoding; the inverse of ResolveFormat on recognised names. */
  function FormatName(encoding: string): string
  {
    if encoding == CONSOLE_ENCODING then LOG_FORMAT_TEXT else LOG_FORMAT_JSON
  }

  lemma FormatRoundTrip(logFormat: string, encoding: string)
    ensures logFormat in {LOG_FORMAT_JSON, LOG_FORMAT_TEXT} ==> FormatName(ResolveFormat(logFormat).value) == logFormat
    ensures encoding in {LOG_FORMAT_JSON, CONSOLE_ENCODING} ==> ResolveFormat(FormatName(encoding)) == Resolved(encoding, false)
  {
  }

  /** getLogLevel without its fallback notice: the threshold for a level option. */
  function ResolveLevel(logLevel: string): (r: Resolved<Level>)
    ensures r.value in {DebugLevel, InfoLevel, ErrorLevel}
    ensures r.fallback <==> logLevel !in {LOG_LEVEL_DEBUG, LOG_LEVEL_INFO, LOG_LEVEL_ERROR}
    ensures r.fallback ==> r.value == InfoLevel
    ensures !r.fallback ==> LevelName(r.value) == logLevel
  {
    if logLevel == LOG_LEVEL_DEBUG then Resolved(DebugLevel, false)
    else if logLevel == LOG_LEVEL_INFO then Resolved(InfoLevel, false)
    else if logLevel == LOG_LEVEL_ERROR then Resolved(ErrorLevel, false)
    else Resolved(InfoLevel, true)
  }

  /** The option name of a level that has one (warn and fatal have none and map to "info"). */
  function LevelName(l: Level): string
  {
    match l
    case DebugLevel => LOG_LEVEL_DEBUG
    case ErrorLevel => LOG_LEVEL_ERROR
    case _ => LOG_LEVEL_INFO
  }

  lemma LevelRoundTrip(l: Level)
    requires l in {DebugLevel, InfoLevel, ErrorLevel}
    ensures ResolveLevel(LevelName(l)) == Resolved(l, false)
  {
  }

  /** The informational records getLogFormat and getLogLevel ask for, in call order. */
  function FallbackNotices(internalRequestId: string, logLevel: string, logFormat: string): seq<Record>
  {
    (if ResolveFormat(logFormat).fallback
     then [Record(InfoLevel, FORMAT_FALLBACK_MESSAGE, internalRequestId, None, None)] else [])
    + (if ResolveLevel(logLevel).fallback
       then [Record(InfoLevel, LEVEL_FALLBACK_MESSAGE, internalRequestId, None, None)] else [])
  }

  /** Each unrecognised option asks for exactly one info record, without fields or cause. */
  lemma FallbackNoticeCount(internalRequestId: string, logLevel: string, logFormat: string)
    ensures var n := FallbackNotices(internalRequestId, logLevel, logFormat);
            && |n| == (if ResolveFormat(logFormat).fallback then 1 else 0)
                      + (if ResolveLevel(logLevel).fallback then 1 else 0)
            && (forall i :: 0 <= i < |n| ==>
                  n[i].level == InfoLevel && n[i].requestId == internalRequestId
                  && n[i].cause == None && n[i].fields == None)
            && ((FORMAT_FALLBACK_MESSAGE in set r | r in n :: r.message) <==> ResolveFormat(logFormat).fallback)
            && ((LEVEL_FALLBACK_MESSAGE in set r | r in n :: r.message) <==> ResolveLevel(logLevel).fallback)
  {
  }

  /** The configuration InitLogger holds just before it runs the override callback. */
  function BaseConfig(logLevel: string, logFormat: string, isDev: bool): (c: Config)
    ensures c.development == isDev
    ensures c.encoding == ResolveFormat(logFormat).value
    ensures c.level == ResolveLevel(logLevel).value
    ensures c.levelEncoder == CapitalColorLevel <==> isDev && logFormat == LOG_FORMAT_TEXT
    ensures !isDev ==> c.levelEncoder == ProductionConfig().levelEncoder
    ensures isDev && logFormat != LOG_FORMAT_TEXT ==> c.levelEncoder == DevelopmentConfig().levelEncoder
  {
    var template :=
      if isDev then
        (if logFormat == LOG_FORMAT_TEXT then DevelopmentConfig().(levelEncoder := CapitalColorLevel)
         else DevelopmentConfig())
      else ProductionConfig();
    template.(encoding := ResolveFormat(logFormat).value, level := ResolveLevel(logLevel).value)
  }

  /** The configuration InitLogger builds: the base configuration, then the first callback if any. */
  function Assemble(logLevel: string, logFormat: string, isDev: bool, configCb: seq<Config -> Config>): Config
  {
    var base := BaseConfig(logLevel, logFormat, isDev);
    if |configCb| > 0 then configCb[0](base) else base
  }

  /** Without a callback the assembled configuration is the resolved base one. */
  lemma AssembleWithoutCallback(logLevel: string, logFormat: string, isDev: bool)
    ensures Assemble(logLevel, logFormat, isDev, []) == BaseConfig(logLevel, logFormat, isDev)
  {
  }

  /** The callback runs last, on the resolved configuration, so whatever it sets is what is built. */
  lemma CallbackRunsLast(logLevel: string, logFormat: string, isDev: bool, configCb: seq<Config -> Config>)
    requires |configCb| > 0
    ensures Assemble(logLevel, logFormat, isDev, configCb) == configCb[0](Assemble(logLevel, logFormat, isDev, []))
  {
  }

  /** Callbacks after the first are ignored. */
  lemma OnlyFirstCallback(logLevel: string, logFormat: string, isDev: bool, configCb: seq<Config -> Config>)
    requires |configCb| > 0
    ensures Assemble(logLevel, logFormat, isDev, configCb) == Assemble(logLevel, logFormat, isDev, configCb[..1])
  {
  }

  /** For instance, a callback lowering the threshold to debug wins over the "error" option. */
  lemma CallbackOverridesLevel(logFormat: string, isDev: bool)
    ensures Assemble(LOG_LEVEL_ERROR, logFormat, isDev, [(c: Config) => c.(level := DebugLevel)]).level == DebugLevel
    ensures Assemble(LOG_LEVEL_ERROR, logFormat, isDev, []).level == ErrorLevel
  {
  }

  /** An unrecognised level resolves to the info threshold and asks for exactly one level notice. */
  lemma InvalidLevelFallsBack(internalRequestId: string, logLevel: string, logFormat: string, isDev: bool)
    requires logLevel !in {LOG_LEVEL_DEBUG, LOG_LEVEL_INFO, LOG_LEVEL_ERROR}
    requires logFormat in {LOG_FORMAT_JSON, LOG_FORMAT_TEXT}
    ensures BaseConfig(logLevel, logFormat, isDev).level == InfoLevel
    ensures FallbackNotices(internalRequestId, logLevel, logFormat)
            == [Record(InfoLevel, LEVEL_FALLBACK_MESSAGE, internalRequestId, None, None)]
  {
  }

  /** An unrecognised format resolves to the JSON encoding and asks for exactly one format notice. */
  lemma InvalidFormatFallsBack(internalRequestId: string, logLevel: string, logFormat: string, isDev: bool)
    requires logFormat !in {LOG_FORMAT_JSON, LOG_FORMAT_TEXT}
    requires logLevel in {LOG_LEVEL_DEBUG, LOG_LEVEL_INFO, LOG_LEVEL_ERROR}
    ensures BaseConfig(logLevel, logFormat, isDev).encoding == LOG_FORMAT_JSON
    ensures FallbackNotices(internalRequestId, logLevel, logFormat)
            == [Record(InfoLevel, FORMAT_FALLBACK_MESSAGE, internalRequestId, None, None)]
  {
  }
}
