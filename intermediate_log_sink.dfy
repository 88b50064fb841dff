/** piece_intermediate's spdlog interop sink, a second copy of the same switch. */
module IntermediateLogSink {
  import opened LogLevels
  import CoreLogSink

  /** The intermediate `spdlog_level_to_piece_log_level`; it agrees with piece_core's on every input. */
  function SpdlogLevelToPieceLogLevel(spdLevel: int): (r: PieceLogLevel)
    ensures r == CoreLogSink.SpdlogLevelToPieceLogLevel(spdLevel)
  {
    match spdLevel
    case 0 => Trace
    case 1 => Debug
    case 2 => Info
    case 3 => Warning
    case 4 => Error
    case 5 => Fatal
    case _ => Trace
  }

  /** The `int level` that this sink hands to `PieceIntermediate_Log`. */
  function SinkLevel(spdLevel: int): (code: int)
    ensures 0 <= code <= 5
    ensures code == CoreLogSink.SinkLevel(spdLevel)
  {
    SpdlogLevelToPieceLogLevel(spdLevel).Code()
  }
}
