/** piece_core's spdlog interop sink: the level translation and the int it passes to `PieceCore_Log`. */
module CoreLogSink {
  import opened LogLevels

  /**
   * `spdlog_level_to_piece_log_level`: each of the six severities becomes the
   * Piece level of the same rank; `off` and every unlisted value become Trace.
   */
  function SpdlogLevelToPieceLogLevel(spdLevel: int): (r: PieceLogLevel)
    ensures IsSpdlogSeverity(spdLevel) ==> r.Code() == spdLevel
    ensures !IsSpdlogSeverity(spdLevel) ==> r == Trace
  {
    if spdLevel == SpdlogTrace then Trace
    else if spdLevel == SpdlogDebug then Debug
    else if spdLevel == SpdlogInfo then Info
    else if spdLevel == SpdlogWarn then Warning
    else if spdLevel == SpdlogErr then Error
    else if spdLevel == SpdlogCritical then Fatal
    else Trace
  }

  /** The `int level` that `InteropSink::sink_it_` hands to `PieceCore_Log`. */
  function SinkLevel(spdLevel: int): (code: int)
    ensures 0 <= code <= 5
    ensures IsSpdlogSeverity(spdLevel) ==> code == spdLevel
    ensures !IsSpdlogSeverity(spdLevel) ==> code == 0
  {
    SpdlogLevelToPieceLogLevel(spdLevel).Code()
  }

  /** The translation keeps severity order across the six real levels. */
  lemma PreservesSeverityOrder(a: int, b: int)
    requires IsSpdlogSeverity(a) && IsSpdlogSeverity(b) && a <= b
    ensures SpdlogLevelToPieceLogLevel(a).Code() <= SpdlogLevelToPieceLogLevel(b).Code()
  {
  }

  /** It is injective on the six real levels; `off` is the one value that collides, with trace. */
  lemma InjectiveOnSeverities(a: int, b: int)
    requires IsSpdlogSeverity(a) && IsSpdlogSeverity(b)
    requires SpdlogLevelToPieceLogLevel(a) == SpdlogLevelToPieceLogLevel(b)
    ensures a == b
  {
  }

  lemma OffCollidesWithTrace()
    ensures SpdlogLevelToPieceLogLevel(SpdlogOff) == SpdlogLevelToPieceLogLevel(SpdlogTrace) == Trace
  {
  }
}
