/** The part of Go's `log/slog` the modelled code relies on: the four standard levels and a
    handler that drops records below its minimum level. */
module Slog {

  /** `slog.LevelDebug`, `LevelInfo`, `LevelWarn`, `LevelError`. */
  datatype Level = Debug | Info | Warn | Error

  /** The numeric value slog gives each level. */
  function Severity(level: Level): int
  {
    match level
    case Debug => -4
    case Info => 0
    case Warn => 4
    case Error => 8
  }

  /** A logger whose handler was built with `HandlerOptions{Level: minLevel}`. */
  datatype Logger = Logger(minLevel: Level)

  /** One structured log call: its level, its message and its attribute. */
  datatype Record<T> = Record(level: Level, message: string, attribute: T)

  /** The handler writes a record exactly when its level is at least the minimum. */
  predicate Enabled(logger: Logger, level: Level)
  {
    Severity(level) >= Severity(logger.minLevel)
  }
}
