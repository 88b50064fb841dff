/**
 * The engine-core test scenarios, run against the model: mock factories are
 * oracles that return fixed mock backends, and the assertions of the tests
 * become postconditions over the engine's call history.
 */
module EngineCoreTests {
  import opened Wrappers
  import opened NativeTypes
  import opened Interfaces
  import opened Registry
  import opened Lifecycle
  import opened CoreLog
  import opened CoreEngine
  import IntermediateServiceLocator
  import IntermediateEngine

  /** Mock factories that always hand back the given mock backends. */
  function Mocks(window: Window, device: GraphicsDevice, world: PhysicsWorld): Backends {
    Backends(
      (f: WindowFactory, o: WindowOptions) => Some(window),
      (f: GraphicsDeviceFactory, w: Window, o: GraphicsOptions) => Some(device),
      (f: PhysicsWorldFactory, o: PhysicsOptions) => Some(world))
  }

  /**
   * InitializationCreatesBackends and UpdateAndRenderCallsBackendMethods:
   * with the three mock factories registered, construction calls each factory
   * exactly once, in order, and one Update(dt) followed by Render() adds
   * exactly one Step(dt) on the mock physics world and nothing else.
   */
  method UpdateAndRenderCallsBackendMethods(
    wf: WindowFactory, gf: GraphicsDeviceFactory, pf: PhysicsWorldFactory,
    window: Window, device: GraphicsDevice, world: PhysicsWorld, dt: Float32)
    returns (ghost calls: seq<Event>, ghost report: Report)
    ensures report == Initialized
    ensures calls == [
      CreateWindowCall(wf, DefaultWindowOptions),
      CreateGraphicsDeviceCall(gf, window, DefaultGraphicsOptions),
      CreatePhysicsWorldCall(pf, DefaultPhysicsOptions),
      StepCall(world, dt)]
  {
    var library := new CoreLibrary();
    library.PieceCore_SetWindowFactory(Some(wf), None);
    library.PieceCore_SetGraphicsDeviceFactory(Some(gf), None);
    library.PieceCore_SetPhysicsWorldFactory(Some(pf), None);
    var core := library.Engine_Initialize(Mocks(window, device, world));
    library.Engine_Update(core, dt);
    library.Engine_Render(core);
    calls, report := core.calls, core.report;
  }

  /**
   * With no factory registered the engine is inert: construction calls no
   * factory, and any Update or Render through the C ABI calls no backend.
   */
  method NoFactoriesMeansNoBackendCalls(backends: Backends, dt: Float32)
    returns (ghost calls: seq<Event>, ghost report: Report)
    ensures report == FactoryNotSet(WindowSubsystem)
    ensures calls == []
  {
    var library := new CoreLibrary();
    var core := library.Engine_Initialize(backends);
    library.Engine_Update(core, dt);
    library.Engine_Render(core);
    library.Engine_Update(core, dt);
    calls, report := core.calls, core.report;
  }

  /**
   * A graphics-device failure keeps the window, never reaches the physics
   * factory, and leaves Update with no physics world to step.
   */
  method GraphicsFailureKeepsWindow(
    wf: WindowFactory, gf: GraphicsDeviceFactory, pf: PhysicsWorldFactory,
    window: Window, world: PhysicsWorld, dt: Float32)
    returns (ghost calls: seq<Event>, ghost kept: Option<Window>)
    ensures kept == Some(window)
    ensures calls == [CreateWindowCall(wf, DefaultWindowOptions), CreateGraphicsDeviceCall(gf, window, DefaultGraphicsOptions)]
  {
    var failing := Backends(
      (f: WindowFactory, o: WindowOptions) => Some(window),
      (f: GraphicsDeviceFactory, w: Window, o: GraphicsOptions) => None,
      (f: PhysicsWorldFactory, o: PhysicsOptions) => Some(world));
    var library := new CoreLibrary();
    library.PieceCore_SetWindowFactory(Some(wf), None);
    library.PieceCore_SetGraphicsDeviceFactory(Some(gf), None);
    library.PieceCore_SetPhysicsWorldFactory(Some(pf), None);
    var core := library.Engine_Initialize(failing);
    library.Engine_Update(core, dt);
    calls, kept := core.calls, core.window;
  }

  /**
   * The managed host's start-up order, registering the callback and then
   * initialising: registration is logged before the interop sink exists and
   * never reaches the callback; from the logger's own first line on, every
   * line does, at Piece level Info (2) or Error (4).
   */
  method CallbackRegisteredBeforeInitialize(cb: LogCallback, backends: Backends)
    returns (ghost events: seq<LibraryEvent>)
    ensures events == [
      LoggerInitialized,
      CallbackInvoked(cb, 2, "spdlog initialized."),
      CallbackInvoked(cb, 2, "Engine_Initialize called. Attempting to create EngineCore..."),
      CallbackInvoked(cb, 4, "IWindowFactory not set in ServiceLocator. Engine cannot initialize.")]
  {
    var library := new CoreLibrary();
    library.PieceCore_RegisterLogCallback(Some(cb));
    var core := library.Engine_Initialize(backends);
    events := library.events;
  }

  /** Registering once the logger is initialised reports the registration through the new callback at once. */
  method CallbackRegisteredAfterInitialize(cb: LogCallback, backends: Backends)
    returns (ghost events: seq<LibraryEvent>)
    ensures events == [LoggerInitialized, CallbackInvoked(cb, 2, "C# LogCallback registered.")]
  {
    var library := new CoreLibrary();
    var core := library.Engine_Initialize(backends);
    library.PieceCore_RegisterLogCallback(Some(cb));
    events := library.events;
  }

  /** The two copies of `EngineCore` build the same engine from the same registry contents. */
  method CopiesAgree(
    coreLocator: CoreServiceLocator.ServiceLocator,
    intermediateLocator: IntermediateServiceLocator.ServiceLocator,
    backends: Backends)
    returns (ghost a: Construction, ghost b: Construction)
    requires coreLocator.State() == intermediateLocator.State()
    ensures a == b == Construct(coreLocator.State(), backends)
  {
    var fromCore := new CoreEngine.EngineCore(coreLocator, backends);
    var fromIntermediate := new IntermediateEngine.EngineCore(intermediateLocator, backends);
    a, b := fromCore.Snapshot(), fromIntermediate.Snapshot();
  }
}
