/**
 * piece_core's log traffic as the host sees it: the lines the library passes
 * to spdlog, and which of them reach the registered `LogCallback`. Once
 * `InitializeLogger` has made the logger holding the interop sink spdlog's
 * default, every line goes through `InteropSink::sink_it_` to
 * `PieceCore_Log`, which invokes the callback if one is registered; before
 * that, lines go to spdlog's own default console logger only.
 */
module CoreLog {
  import opened Wrappers
  import opened NativeTypes
  import opened Interfaces
  import opened Registry
  import opened Lifecycle
  import opened LogLevels
  import opened CoreLogSink

  /** A host-supplied `LogCallback` function pointer. */
  datatype LogCallback = LogCallback(id: nat)

  /** One spdlog call of the library: its spdlog level and its message. */
  datatype LogLine = LogLine(spdLevel: int, text: string)

  /** The library's observable side effects other than engine calls. */
  datatype LibraryEvent =
    | LoggerInitialized
    | CallbackInvoked(callback: LogCallback, level: int32, message: string)

  /**
   * The callback invocations that `lines`, logged through spdlog, produce:
   * none before the interop sink is installed or while no callback is
   * registered; otherwise one per line, in order, at the sink's level.
   */
  function Delivered(sinkInstalled: bool, callback: Option<LogCallback>, lines: seq<LogLine>): (r: seq<LibraryEvent>)
    ensures |r| == if sinkInstalled && callback.Some? then |lines| else 0
    ensures SetUps(r) == 0
  {
    if !sinkInstalled || callback.None? || lines == [] then []
    else
      [CallbackInvoked(callback.value, SinkLevel(lines[0].spdLevel) as int32, lines[0].text)]
      + Delivered(sinkInstalled, callback, lines[1..])
  }

  /** The i-th line delivered is the i-th line logged, at the level the sink computes for it. */
  lemma {:induction false} DeliveredElements(sinkInstalled: bool, callback: Option<LogCallback>, lines: seq<LogLine>, i: int)
    requires sinkInstalled && callback.Some? && 0 <= i < |lines|
    ensures Delivered(sinkInstalled, callback, lines)[i]
         == CallbackInvoked(callback.value, SinkLevel(lines[i].spdLevel) as int32, lines[i].text)
    decreases |lines|
  {
    if i > 0 {
      DeliveredElements(sinkInstalled, callback, lines[1..], i - 1);
    }
  }

  /** Logging two runs of lines one after the other delivers the two runs' invocations in that order. */
  lemma DeliveredAppend(sinkInstalled: bool, callback: Option<LogCallback>, a: seq<LogLine>, b: seq<LogLine>)
    ensures Delivered(sinkInstalled, callback, a + b)
         == Delivered(sinkInstalled, callback, a) + Delivered(sinkInstalled, callback, b)
  {
    var whole := Delivered(sinkInstalled, callback, a + b);
    var parts := Delivered(sinkInstalled, callback, a) + Delivered(sinkInstalled, callback, b);
    if sinkInstalled && callback.Some? {
      forall i | 0 <= i < |whole|
        ensures whole[i] == parts[i]
      {
        DeliveredElements(sinkInstalled, callback, a + b, i);
        if i < |a| {
          assert (a + b)[i] == a[i];
          DeliveredElements(sinkInstalled, callback, a, i);
        } else {
          assert (a + b)[i] == b[i - |a|];
          DeliveredElements(sinkInstalled, callback, b, i - |a|);
        }
      }
    }
    assert whole == parts;
  }

  /** How many times a history of library events records `InitializeLogger`. */
  function SetUps(events: seq<LibraryEvent>): nat {
    if events == [] then 0
    else (if events[0] == LoggerInitialized then 1 else 0) + SetUps(events[1..])
  }

  /** Set-ups in two histories one after the other add up. */
  lemma {:induction false} SetUpsAppend(a: seq<LibraryEvent>, b: seq<LibraryEvent>)
    ensures SetUps(a + b) == SetUps(a) + SetUps(b)
    decreases |a|
  {
    if a == [] {
      assert a + b == b;
    } else {
      assert (a + b)[1..] == a[1..] + b;
      SetUpsAppend(a[1..], b);
    }
  }

  const SpdlogInitializedLine := LogLine(SpdlogInfo, "spdlog initialized.")
  const InitializeCalledLine := LogLine(SpdlogInfo, "Engine_Initialize called. Attempting to create EngineCore...")
  const DestroyCalledLine := LogLine(SpdlogInfo, "Engine_Destroy called.")
  const DestroyedLine := LogLine(SpdlogInfo, "EngineCore: Destroyed.")
  const NullDestroyLine := LogLine(SpdlogWarn, "Engine_Destroy called with null corePtr.")
  const CallbackRegisteredLine := LogLine(SpdlogInfo, "C# LogCallback registered.")
  const CallbackUnregisteredLine := LogLine(SpdlogWarn, "C# LogCallback unregistered (null callback).")

  const WindowFactoryMissingLine := LogLine(SpdlogErr, "IWindowFactory not set in ServiceLocator. Engine cannot initialize.")
  const GraphicsFactoryMissingLine := LogLine(SpdlogErr, "IGraphicsDeviceFactory not set in ServiceLocator. Engine cannot initialize.")
  const PhysicsFactoryMissingLine := LogLine(SpdlogErr, "IPhysicsWorldFactory not set in ServiceLocator. Engine cannot initialize.")
  const WindowFailedLine := LogLine(SpdlogErr, "Failed to create IWindow instance.")
  const WindowCreatedLine := LogLine(SpdlogInfo, "IWindow created.")
  const GraphicsFailedLine := LogLine(SpdlogErr, "Failed to create IGraphicsDevice instance.")
  const GraphicsCreatedLine := LogLine(SpdlogInfo, "IGraphicsDevice created.")
  const PhysicsFailedLine := LogLine(SpdlogErr, "Failed to create IPhysicsWorld instance.")
  const PhysicsCreatedLine := LogLine(SpdlogInfo, "IPhysicsWorld created.")
  const InitializedLine := LogLine(SpdlogInfo, "EngineCore: Initialized successfully.")

  /**
   * The lines `EngineCore::EngineCore()` logs for the outcome `report`: one
   * info line per backend it created, then either an error line naming what
   * was missing or failed, or the success line.
   */
  function ConstructorLog(report: Report): (lines: seq<LogLine>)
    ensures |lines| >= 1
    ensures forall i :: 0 <= i < |lines| - 1 ==> lines[i].spdLevel == SpdlogInfo
    ensures lines[|lines| - 1].spdLevel == if report.Initialized? then SpdlogInfo else SpdlogErr
  {
    match report
    case FactoryNotSet(WindowSubsystem) => [WindowFactoryMissingLine]
    case FactoryNotSet(GraphicsDeviceSubsystem) => [GraphicsFactoryMissingLine]
    case FactoryNotSet(PhysicsWorldSubsystem) => [PhysicsFactoryMissingLine]
    case CreationFailed(WindowSubsystem) => [WindowFailedLine]
    case CreationFailed(GraphicsDeviceSubsystem) => [WindowCreatedLine, GraphicsFailedLine]
    case CreationFailed(PhysicsWorldSubsystem) => [WindowCreatedLine, GraphicsCreatedLine, PhysicsFailedLine]
    case Initialized => [WindowCreatedLine, GraphicsCreatedLine, PhysicsCreatedLine, InitializedLine]
  }

  /** The number of backends a construction left the engine owning. */
  function Owned(c: Construction): nat {
    (if c.window.Some? then 1 else 0)
    + (if c.graphicsDevice.Some? then 1 else 0)
    + (if c.physicsWorld.Some? then 1 else 0)
  }

  /**
   * The constructor's log tells the host what it got: one line per backend
   * the engine owns, plus the final line, and an error exactly when the
   * engine is not fully initialised.
   */
  lemma ConstructorLogMatchesBackends(s: Slots, b: Backends)
    ensures var c := Construct(s, b);
      && |ConstructorLog(c.report)| == Owned(c) + 1
      && (c.physicsWorld.None? <==> ConstructorLog(c.report)[Owned(c)].spdLevel == SpdlogErr)
  {
    if s.Complete() {
      var window := b.createWindow(s.window.value, DefaultWindowOptions);
      if window.Some? {
        var device := b.createGraphicsDevice(s.graphicsDevice.value, window.value, DefaultGraphicsOptions);
        if device.Some? {
          var world := b.createPhysicsWorld(s.physicsWorld.value, DefaultPhysicsOptions);
          assert Construct(s, b).report == if world.Some? then Initialized else CreationFailed(PhysicsWorldSubsystem);
        }
      }
    }
  }
}
