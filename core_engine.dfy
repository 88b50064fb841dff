/**
 * piece_core's engine: `EngineCore` (staged construction, Update, Render) and
 * the library's C ABI with its static state (the locator singleton, the
 * logger-initialised flag and the registered log callback). Every spdlog call
 * of the library is a `Log` of a `LogLine`, so the callback sees exactly what
 * the interop sink forwards.
 */
module CoreEngine {
  import opened Wrappers
  import opened NativeTypes
  import opened Interfaces
  import opened Registry
  import opened Lifecycle
  import opened CoreServiceLocator
  import opened LogLevels
  import opened CoreLogSink
  import opened CoreLog

  class EngineCore {
    var window: Option<Window>
    var graphicsDevice: Option<GraphicsDevice>
    var physicsWorld: Option<PhysicsWorld>
    /** Every factory and backend call this engine has made, oldest first. */
    ghost var calls: seq<Event>
    /** The outcome the constructor logged. */
    ghost var report: Report
    /** The lines the constructor passed to spdlog, oldest first. */
    ghost var log: seq<LogLine>

    /** A graphics device is only ever built on a window, a physics world only after both. */
    ghost predicate Valid()
      reads this
    {
      && (graphicsDevice.Some? ==> window.Some?)
      && (physicsWorld.Some? ==> graphicsDevice.Some?)
    }

    /** The engine's backends, calls and report as one value. */
    ghost function Snapshot(): Construction
      reads this
    {
      Construction(window, graphicsDevice, physicsWorld, calls, report)
    }

    /**
     * `EngineCore::EngineCore()`: reads the three factories from the locator and
     * builds the backends with early returns, exactly as `Construct` describes.
     */
    constructor (locator: ServiceLocator, backends: Backends)
      ensures Valid()
      ensures Snapshot() == Construct(locator.State(), backends)
      ensures log == ConstructorLog(report)
    {
      window, graphicsDevice, physicsWorld := None, None, None;
      calls, report, log := [], Initialized, [];
      new;
      var windowFactory := locator.GetWindowFactory();
      var graphicsFactory := locator.GetGraphicsDeviceFactory();
      var physicsFactory := locator.GetPhysicsWorldFactory();

      if windowFactory.None? {
        log := log + [WindowFactoryMissingLine];
        report := FactoryNotSet(WindowSubsystem);
        return;
      }
      if graphicsFactory.None? {
        log := log + [GraphicsFactoryMissingLine];
        report := FactoryNotSet(GraphicsDeviceSubsystem);
        return;
      }
      if physicsFactory.None? {
        log := log + [PhysicsFactoryMissingLine];
        report := FactoryNotSet(PhysicsWorldSubsystem);
        return;
      }

      CreateBackends(locator.State(), backends);
    }

    /**
     * The creation stages of `EngineCore::EngineCore()`, once all three
     * factories are known to be installed: window, then graphics device on
     * that window, then physics world, returning at the first failure.
     */
    method CreateBackends(s: Slots, backends: Backends)
      requires s.Complete()
      requires window.None? && graphicsDevice.None? && physicsWorld.None? && calls == [] && log == []
      modifies this
      ensures Valid()
      ensures Snapshot() == Construct(s, backends)
      ensures log == ConstructorLog(report)
    {
      var windowFactory, graphicsFactory, physicsFactory := s.window, s.graphicsDevice, s.physicsWorld;
      var defaultWindowOptions := DefaultWindowOptions;
      window := backends.createWindow(windowFactory.value, defaultWindowOptions);
      calls := calls + [CreateWindowCall(windowFactory.value, defaultWindowOptions)];
      if window.None? {
        log := log + [WindowFailedLine];
        report := CreationFailed(WindowSubsystem);
        return;
      }
      log := log + [WindowCreatedLine];

      var defaultVulkanOptions := DefaultGraphicsOptions;
      graphicsDevice := backends.createGraphicsDevice(graphicsFactory.value, window.value, defaultVulkanOptions);
      calls := calls + [CreateGraphicsDeviceCall(graphicsFactory.value, window.value, defaultVulkanOptions)];
      if graphicsDevice.None? {
        log := log + [GraphicsFailedLine];
        report := CreationFailed(GraphicsDeviceSubsystem);
        return;
      }
      log := log + [GraphicsCreatedLine];

      var defaultPhysicsOptions := DefaultPhysicsOptions;
      physicsWorld := backends.createPhysicsWorld(physicsFactory.value, defaultPhysicsOptions);
      calls := calls + [CreatePhysicsWorldCall(physicsFactory.value, defaultPhysicsOptions)];
      if physicsWorld.None? {
        log := log + [PhysicsFailedLine];
        report := CreationFailed(PhysicsWorldSubsystem);
        return;
      }
      log := log + [PhysicsCreatedLine, InitializedLine];
      report := Initialized;
    }

    /** Forwards `deltaTime`, unchanged, to the physics world's `Step` if there is one. */
    method Update(deltaTime: Float32)
      modifies this`calls
      ensures calls == old(calls) + UpdateCalls(physicsWorld, deltaTime)
    {
      if physicsWorld.Some? {
        calls := calls + [StepCall(physicsWorld.value, deltaTime)];
      }
    }

    /** A guarded no-op: no backend is called and nothing changes. */
    method Render()
      ensures unchanged(this)
    {
      if window.Some? && graphicsDevice.Some? {
      }
    }
  }

  /** The piece_core library's process-wide state and its `extern "C"` entry points. */
  class CoreLibrary {
    /** `ServiceLocator::Get()`'s function-static instance: one object for the whole process. */
    const locator: ServiceLocator
    /** `Engine_Initialize`'s function-static `loggerInitialized`. */
    var loggerInitialized: bool
    /** Whether `g_logger`, which holds the interop sink, is spdlog's default logger. */
    var interopSink: bool
    /** `s_log_callback`. */
    var logCallback: Option<LogCallback>
    /** Runs of `InitializeLogger` and invocations of the callback, oldest first. */
    ghost var events: seq<LibraryEvent>
    /** Engines returned by `Engine_Initialize` and not yet passed to `Engine_Destroy`. */
    ghost var live: set<EngineCore>

    /**
     * `InitializeLogger` has run, and installed the interop sink, exactly once
     * if the logger flag is set and never otherwise.
     */
    ghost predicate Valid()
      reads this
    {
      && SetUps(events) == (if loggerInitialized then 1 else 0)
      && interopSink == loggerInitialized
    }

    /** Process start: every static is zero-initialised and the locator's slots are empty. */
    constructor ()
      ensures Valid() && fresh(locator)
      ensures locator.State() == Empty
      ensures !loggerInitialized && !interopSink && logCallback == None && events == [] && live == {}
    {
      locator := new ServiceLocator();
      loggerInitialized, interopSink, logCallback := false, false, None;
      events, live := [], {};
    }

    /**
     * One spdlog call of the library: once the interop sink is installed,
     * `InteropSink::sink_it_` hands it to `PieceCore_Log` at the sink's level;
     * before that it only reaches spdlog's own console logger.
     */
    method Log(line: LogLine)
      modifies this`events
      ensures events == old(events) + Delivered(interopSink, logCallback, [line])
      ensures SetUps(events) == SetUps(old(events))
    {
      if interopSink {
        PieceCore_Log(SinkLevel(line.spdLevel) as int32, line.text);
      }
    }

    /**
     * `InitializeLogger`: makes `g_logger`, with the console, rotating-file
     * and interop sinks, spdlog's default, and logs its first line through it.
     */
    method InitializeLogger()
      requires !interopSink && SetUps(events) == 0
      modifies this`interopSink, this`events
      ensures interopSink
      ensures events == old(events) + [LoggerInitialized] + Delivered(true, logCallback, [SpdlogInitializedLine])
      ensures SetUps(events) == 1
    {
      SetUpsAppend(events, [LoggerInitialized]);
      events := events + [LoggerInitialized];
      interopSink := true;
      Log(SpdlogInitializedLine);
    }

    /** Rejects a null factory; installs a non-null one. The options argument is ignored. */
    method PieceCore_SetGraphicsDeviceFactory(factory: Option<GraphicsDeviceFactory>, options: Option<GraphicsOptions>)
      requires Valid()
      modifies locator, this`events
      ensures Valid()
      ensures locator.State() == Register(old(locator.State()), Registration.SetGraphicsDeviceFactory(factory))
      ensures events == old(events) + Delivered(interopSink, logCallback, [
        if factory.None? then LogLine(SpdlogErr, "Invalid IGraphicsDeviceFactory pointer received.")
        else LogLine(SpdlogInfo, "PieceCore_SetGraphicsDeviceFactory called.")])
    {
      if factory.None? {
        Log(LogLine(SpdlogErr, "Invalid IGraphicsDeviceFactory pointer received."));
        return;
      }
      locator.SetGraphicsDeviceFactory(factory);
      Log(LogLine(SpdlogInfo, "PieceCore_SetGraphicsDeviceFactory called."));
    }

    method PieceCore_SetWindowFactory(factory: Option<WindowFactory>, options: Option<WindowOptions>)
      requires Valid()
      modifies locator, this`events
      ensures Valid()
      ensures locator.State() == Register(old(locator.State()), Registration.SetWindowFactory(factory))
      ensures events == old(events) + Delivered(interopSink, logCallback, [
        if factory.None? then LogLine(SpdlogErr, "Invalid IWindowFactory pointer received.")
        else LogLine(SpdlogInfo, "PieceCore_SetWindowFactory called.")])
    {
      if factory.None? {
        Log(LogLine(SpdlogErr, "Invalid IWindowFactory pointer received."));
        return;
      }
      locator.SetWindowFactory(factory);
      Log(LogLine(SpdlogInfo, "PieceCore_SetWindowFactory called."));
    }

    method PieceCore_SetPhysicsWorldFactory(factory: Option<PhysicsWorldFactory>, options: Option<PhysicsOptions>)
      requires Valid()
      modifies locator, this`events
      ensures Valid()
      ensures locator.State() == Register(old(locator.State()), Registration.SetPhysicsWorldFactory(factory))
      ensures events == old(events) + Delivered(interopSink, logCallback, [
        if factory.None? then LogLine(SpdlogErr, "Invalid IPhysicsWorldFactory pointer received.")
        else LogLine(SpdlogInfo, "PieceCore_SetPhysicsWorldFactory called.")])
    {
      if factory.None? {
        Log(LogLine(SpdlogErr, "Invalid IPhysicsWorldFactory pointer received."));
        return;
      }
      locator.SetPhysicsWorldFactory(factory);
      Log(LogLine(SpdlogInfo, "PieceCore_SetPhysicsWorldFactory called."));
    }

    /**
     * The start of `Engine_Initialize`: `InitializeLogger` on the first call
     * only, then the line announcing the attempt.
     */
    method BeginInitialize() returns (firstCall: bool)
      requires Valid()
      modifies this`loggerInitialized, this`interopSink, this`events
      ensures Valid() && loggerInitialized && interopSink
      ensures firstCall == !old(loggerInitialized)
      ensures events == old(events) + (if firstCall then [LoggerInitialized] else [])
        + Delivered(true, logCallback, (if firstCall then [SpdlogInitializedLine] else []) + [InitializeCalledLine])
    {
      firstCall := !loggerInitialized;
      if firstCall {
        InitializeLogger();
        loggerInitialized := true;
        Log(InitializeCalledLine);
        DeliveredAppend(true, logCallback, [SpdlogInitializedLine], [InitializeCalledLine]);
      } else {
        Log(InitializeCalledLine);
        assert [] + [InitializeCalledLine] == [InitializeCalledLine];
      }
    }

    /**
     * Initialises the logger on the first call only, logs the attempt, then
     * constructs an engine from whatever the locator holds; the constructor's
     * own lines follow. The handle is never null, even when the engine is only
     * partially initialised.
     */
    method Engine_Initialize(backends: Backends) returns (core: EngineCore?)
      requires Valid()
      modifies this
      ensures Valid()
      ensures loggerInitialized && logCallback == old(logCallback)
      ensures core != null && fresh(core) && core.Valid()
      ensures core.Snapshot() == Construct(locator.State(), backends)
      ensures core.log == ConstructorLog(core.report)
      ensures events == old(events)
        + (if old(loggerInitialized) then [] else [LoggerInitialized])
        + Delivered(true, logCallback, (if old(loggerInitialized) then [] else [SpdlogInitializedLine]) + [InitializeCalledLine])
        + Delivered(true, logCallback, core.log)
      ensures live == old(live) + {core}
    {
      var firstCall := BeginInitialize();
      core := new EngineCore(locator, backends);
      // The constructor's spdlog calls, forwarded by the interop sink.
      ghost var constructed := Delivered(true, logCallback, core.log);
      SetUpsAppend(events, constructed);
      events := events + constructed;
      live := live + {core};
    }

    /** Logs the call, then releases a live engine (whose destructor logs too); a null handle is only logged. */
    method Engine_Destroy(core: EngineCore?)
      requires Valid()
      requires core != null ==> core in live
      modifies this`live, this`events
      ensures Valid()
      ensures live == if core == null then old(live) else old(live) - {core}
      ensures events == old(events) + Delivered(interopSink, logCallback,
        [DestroyCalledLine, if core == null then NullDestroyLine else DestroyedLine])
    {
      Log(DestroyCalledLine);
      if core != null {
        Log(DestroyedLine);
        live := live - {core};
      } else {
        Log(NullDestroyLine);
      }
      DeliveredAppend(interopSink, logCallback, [DestroyCalledLine], [if core == null then NullDestroyLine else DestroyedLine]);
    }

    /** Forwards to `EngineCore::Update`; a null handle touches no engine. */
    method Engine_Update(core: EngineCore?, deltaTime: Float32)
      requires core != null ==> core in live
      modifies core
      ensures core != null ==>
        && core.Snapshot() == old(core.Snapshot()).(calls := old(core.calls) + UpdateCalls(core.physicsWorld, deltaTime))
        && core.log == old(core.log)
    {
      if core != null {
        core.Update(deltaTime);
      }
    }

    /** Forwards to `EngineCore::Render`; changes nothing either way. */
    method Engine_Render(core: EngineCore?)
      requires core != null ==> core in live
      ensures core != null ==> unchanged(core)
    {
      if core != null {
        core.Render();
      }
    }

    /** Installs the callback (null unregisters it), then logs the change through the new callback. */
    method PieceCore_RegisterLogCallback(callback: Option<LogCallback>)
      requires Valid()
      modifies this`logCallback, this`events
      ensures Valid()
      ensures logCallback == callback
      ensures events == old(events) + Delivered(interopSink, callback,
        [if callback.Some? then CallbackRegisteredLine else CallbackUnregisteredLine])
    {
      logCallback := callback;
      if logCallback.Some? {
        Log(CallbackRegisteredLine);
      } else {
        Log(CallbackUnregisteredLine);
      }
    }

    /** Forwards (level, message) unchanged, once, to the registered callback, if any. */
    method PieceCore_Log(level: int32, message: string)
      modifies this`events
      ensures events == old(events) + (if logCallback.Some? then [CallbackInvoked(logCallback.value, level, message)] else [])
      ensures SetUps(events) == SetUps(old(events))
    {
      if logCallback.Some? {
        SetUpsAppend(events, [CallbackInvoked(logCallback.value, level, message)]);
        events := events + [CallbackInvoked(logCallback.value, level, message)];
      }
    }
  }
}
