/**
 * The managed end of the log pipeline: the interop `LogLevel` enum, Serilog's
 * `LogEventLevel`, `NativeCalls.MapLogLevel`, and the whole chain from an
 * spdlog level to the Serilog level the host logs at.
 */
module ManagedLogging {
  import LogLevels
  import CoreLogSink

  /** Members of `Piece.Core.Interop.LogLevel`, an `enum : int` numbered from Trace = 0. */
  const InteropTrace: int := 0
  const InteropDebug: int := 1
  const InteropInfo: int := 2
  const InteropWarning: int := 3
  const InteropError: int := 4
  const InteropFatal: int := 5

  /** Serilog's `LogEventLevel`, least to most severe. */
  datatype LogEventLevel = Verbose | Debug | Information | Warning | Error | Fatal
  {
    /** The enumerator's underlying value, which is its rank. */
    function Rank(): (n: int)
      ensures 0 <= n <= 5
    {
      match this
      case Verbose => 0
      case Debug => 1
      case Information => 2
      case Warning => 3
      case Error => 4
      case Fatal => 5
    }
  }

  /**
   * `MapLogLevel`: the int is cast to the interop enum and switched on; the
   * six named values become the Serilog level of the same rank and every
   * other int (negative or above 5) becomes Information. Total over int.
   */
  function MapLogLevel(cppLevel: int): (r: LogEventLevel)
    ensures 0 <= cppLevel <= 5 ==> r.Rank() == cppLevel
    ensures !(0 <= cppLevel <= 5) ==> r == Information
  {
    if cppLevel == InteropTrace then Verbose
    else if cppLevel == InteropDebug then Debug
    else if cppLevel == InteropInfo then Information
    else if cppLevel == InteropWarning then Warning
    else if cppLevel == InteropError then Error
    else if cppLevel == InteropFatal then Fatal
    else Information
  }

  /** On 0..5 the mapping keeps severity order. */
  lemma MapPreservesSeverityOrder(a: int, b: int)
    requires 0 <= a <= b <= 5
    ensures MapLogLevel(a).Rank() <= MapLogLevel(b).Rank()
  {
  }

  /** The Serilog level with the same name as an spdlog severity; `off` has none. */
  function SameNamed(spdLevel: int): LogEventLevel
    requires LogLevels.IsSpdlogSeverity(spdLevel)
  {
    match spdLevel
    case 0 => Verbose
    case 1 => Debug
    case 2 => Information
    case 3 => Warning
    case 4 => Error
    case 5 => Fatal
  }

  /**
   * End to end (spdlog level, Piece level, int, Serilog level): every
   * spdlog severity arrives at the host as the same-named Serilog level, and
   * `off` or an unlisted value arrives as Verbose, never at the Information
   * fallback of `MapLogLevel`.
   */
  lemma EndToEnd(spdLevel: int)
    ensures LogLevels.IsSpdlogSeverity(spdLevel) ==> MapLogLevel(CoreLogSink.SinkLevel(spdLevel)) == SameNamed(spdLevel)
    ensures !LogLevels.IsSpdlogSeverity(spdLevel) ==> MapLogLevel(CoreLogSink.SinkLevel(spdLevel)) == Verbose
  {
  }
}
