/**
 * The engine lifecycle controller's construction protocol as a value: which
 * factories are called, with what, in which order, which backends the engine
 * ends up owning, and which failure (if any) it reports. Both copies of
 * `EngineCore` (piece_core and piece_intermediate) are proved to follow it.
 */
module Lifecycle {
  import opened Wrappers
  import opened NativeTypes
  import opened Interfaces
  import opened Registry

  /** The options `EngineCore` hands to each factory. */
  const DefaultWindowOptions: WindowOptions := WindowOptions(800, 600, 0, "Piece Engine Window")
  const DefaultGraphicsOptions: GraphicsOptions := GraphicsOptions(0, 2)
  const DefaultPhysicsOptions: PhysicsOptions := PhysicsOptions(OneSixtieth, 4)

  datatype Subsystem = WindowSubsystem | GraphicsDeviceSubsystem | PhysicsWorldSubsystem

  /** The last line the constructor logs: success, a missing factory, or a failed creation. */
  datatype Report =
    | Initialized
    | FactoryNotSet(missing: Subsystem)
    | CreationFailed(failed: Subsystem)

  /** The backends an engine owns after construction, the calls it made, and its report. */
  datatype Construction = Construction(
    window: Option<Window>,
    graphicsDevice: Option<GraphicsDevice>,
    physicsWorld: Option<PhysicsWorld>,
    calls: seq<Event>,
    report: Report)

  /**
   * `EngineCore::EngineCore()` against the registry contents `s` and the
   * factory behaviour `b`: check all three factories first, then create the
   * window, the graphics device (with that window) and the physics world,
   * stopping at the first failure and keeping what was built.
   */
  function Construct(s: Slots, b: Backends): (c: Construction)
    ensures c.graphicsDevice.Some? ==> c.window.Some?
    ensures c.physicsWorld.Some? ==> c.graphicsDevice.Some?
    ensures c.calls == [] <==> !s.Complete()
    ensures |c.calls| <= 3
    ensures c.report == Initialized <==> c.physicsWorld.Some?
  {
    if s.window.None? then Construction(None, None, None, [], FactoryNotSet(WindowSubsystem))
    else if s.graphicsDevice.None? then Construction(None, None, None, [], FactoryNotSet(GraphicsDeviceSubsystem))
    else if s.physicsWorld.None? then Construction(None, None, None, [], FactoryNotSet(PhysicsWorldSubsystem))
    else
      var windowCall := CreateWindowCall(s.window.value, DefaultWindowOptions);
      var window := b.createWindow(s.window.value, DefaultWindowOptions);
      if window.None? then Construction(None, None, None, [windowCall], CreationFailed(WindowSubsystem))
      else
        var graphicsCall := CreateGraphicsDeviceCall(s.graphicsDevice.value, window.value, DefaultGraphicsOptions);
        var device := b.createGraphicsDevice(s.graphicsDevice.value, window.value, DefaultGraphicsOptions);
        if device.None? then Construction(window, None, None, [windowCall, graphicsCall], CreationFailed(GraphicsDeviceSubsystem))
        else
          var physicsCall := CreatePhysicsWorldCall(s.physicsWorld.value, DefaultPhysicsOptions);
          var world := b.createPhysicsWorld(s.physicsWorld.value, DefaultPhysicsOptions);
          if world.None? then Construction(window, device, None, [windowCall, graphicsCall, physicsCall], CreationFailed(PhysicsWorldSubsystem))
          else Construction(window, device, world, [windowCall, graphicsCall, physicsCall], Initialized)
  }

  /**
   * Missing factories: all three presence checks precede the first creation, so
   * if any factory is absent no factory is called, no backend exists, and the
   * first absent one (in the order window, graphics device, physics world) is
   * the one reported.
   */
  lemma MissingFactoryCreatesNothing(s: Slots, b: Backends)
    requires !s.Complete()
    ensures var c := Construct(s, b);
      && c.calls == []
      && c.window.None? && c.graphicsDevice.None? && c.physicsWorld.None?
      && c.report == FactoryNotSet(
           if s.window.None? then WindowSubsystem
           else if s.graphicsDevice.None? then GraphicsDeviceSubsystem
           else PhysicsWorldSubsystem)
  {
  }

  /**
   * Fixed creation order: with every factory installed, the i-th call made is
   * the i-th of CreateWindow(defaults), CreateGraphicsDevice(the window just
   * created, defaults), CreatePhysicsWorld(defaults), so each factory is
   * called at most once; every backend the engine owns is exactly what its
   * factory returned.
   */
  lemma CreationOrder(s: Slots, b: Backends)
    requires s.Complete()
    ensures var c := Construct(s, b);
      && 1 <= |c.calls| <= 3
      && c.calls[0] == CreateWindowCall(s.window.value, DefaultWindowOptions)
      && c.window == b.createWindow(s.window.value, DefaultWindowOptions)
      && (|c.calls| >= 2 ==>
            && c.window.Some?
            && c.calls[1] == CreateGraphicsDeviceCall(s.graphicsDevice.value, c.window.value, DefaultGraphicsOptions)
            && c.graphicsDevice == b.createGraphicsDevice(s.graphicsDevice.value, c.window.value, DefaultGraphicsOptions))
      && (|c.calls| == 3 ==>
            && c.graphicsDevice.Some?
            && c.calls[2] == CreatePhysicsWorldCall(s.physicsWorld.value, DefaultPhysicsOptions)
            && c.physicsWorld == b.createPhysicsWorld(s.physicsWorld.value, DefaultPhysicsOptions))
  {
  }

  /**
   * A failed stage stops every later stage and keeps the earlier backends: a
   * window failure calls neither of the other factories; a graphics failure
   * keeps the window and never calls the physics factory.
   */
  lemma FailureStopsLaterStages(s: Slots, b: Backends)
    requires s.Complete()
    ensures var c := Construct(s, b);
      && (c.window.None? <==> |c.calls| == 1)
      && (c.window.None? ==> c.report == CreationFailed(WindowSubsystem))
      && (c.window.Some? && c.graphicsDevice.None? <==> |c.calls| == 2)
      && (c.window.Some? && c.graphicsDevice.None? ==> c.report == CreationFailed(GraphicsDeviceSubsystem))
      && (c.graphicsDevice.Some? && c.physicsWorld.None? ==> c.report == CreationFailed(PhysicsWorldSubsystem))
  {
  }

  /** With every factory installed and every factory succeeding, the engine is ready. */
  lemma AllSucceedMeansReady(s: Slots, b: Backends)
    requires s.Complete()
    requires b.createWindow(s.window.value, DefaultWindowOptions).Some?
    requires var w := b.createWindow(s.window.value, DefaultWindowOptions).value;
      b.createGraphicsDevice(s.graphicsDevice.value, w, DefaultGraphicsOptions).Some?
    requires b.createPhysicsWorld(s.physicsWorld.value, DefaultPhysicsOptions).Some?
    ensures var c := Construct(s, b);
      c.report == Initialized && c.window.Some? && c.graphicsDevice.Some? && c.physicsWorld.Some?
  {
  }

  /** The calls `EngineCore::Update(deltaTime)` makes: one `Step(deltaTime)` iff a physics world exists. */
  function UpdateCalls(world: Option<PhysicsWorld>, deltaTime: Float32): seq<Event> {
    if world.Some? then [StepCall(world.value, deltaTime)] else []
  }
}
