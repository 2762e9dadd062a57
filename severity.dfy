/**
 * The severities the logging facade offers, ordered as the backend orders
 * them. Rank gives the backend's own numeric level (debug is -1, info 0,
 * warn 1, error 2, fatal 5); a call at level `l` passes a threshold `t`
 * exactly when Rank(l) >= Rank(t).
 */
module Severity {

  datatype Level = DebugLevel | InfoLevel | WarnLevel | ErrorLevel | FatalLevel

  function Rank(l: Level): int
  {
    match l
    case DebugLevel => -1
    case InfoLevel => 0
    case WarnLevel => 1
    case ErrorLevel => 2
    case FatalLevel => 5
  }

  /** Does a backend whose threshold is `threshold` let a record of level `l` through? */
  predicate Enabled(threshold: Level, l: Level)
  {
    Rank(l) >= Rank(threshold)
  }

  /** The levels a threshold lets through, listed out rather than compared by rank. */
  lemma EnabledLevels(threshold: Level, l: Level)
    ensures Enabled(threshold, l) <==>
      match threshold
      case DebugLevel => true
      case InfoLevel => l != DebugLevel
      case WarnLevel => l in {WarnLevel, ErrorLevel, FatalLevel}
      case ErrorLevel => l in {ErrorLevel, FatalLevel}
      case FatalLevel => l == FatalLevel
  {
  }

  /** Fatal records pass every threshold. */
  lemma FatalAlwaysEnabled(threshold: Level)
    ensures Enabled(threshold, FatalLevel)
  {
  }
}
