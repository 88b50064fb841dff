/**
 * The severity scales of the log pipeline: spdlog's `level_enum` (as the raw
 * integer a C++ enum may hold), `Piece::LogLevel` of logging_api.h, and the
 * order each of them encodes.
 */
module LogLevels {

  /** Values of spdlog's `level::level_enum`; `off` is not a severity. */
  const SpdlogTrace: int := 0
  const SpdlogDebug: int := 1
  const SpdlogInfo: int := 2
  const SpdlogWarn: int := 3
  const SpdlogErr: int := 4
  const SpdlogCritical: int := 5
  const SpdlogOff: int := 6

  /** One of the six spdlog levels that name a severity (every value but `off` and unlisted ones). */
  predicate IsSpdlogSeverity(spdLevel: int) {
    SpdlogTrace <= spdLevel <= SpdlogCritical
  }

  /** `Piece::LogLevel`, an `enum class : uint8_t` numbered from Trace = 0. */
  datatype PieceLogLevel = Trace | Debug | Info | Warning | Error | Fatal
  {
    /** `static_cast<int>` of the enumerator. */
    function Code(): (c: int)
      ensures 0 <= c <= 5
    {
      match this
      case Trace => 0
      case Debug => 1
      case Info => 2
      case Warning => 3
      case Error => 4
      case Fatal => 5
    }
  }

  /** Distinct enumerators have distinct codes. */
  lemma CodeInjective(a: PieceLogLevel, b: PieceLogLevel)
    requires a.Code() == b.Code()
    ensures a == b
  {
  }
}
