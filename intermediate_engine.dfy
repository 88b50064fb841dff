/**
 * piece_intermediate's engine: its own `EngineCore` (the same staged
 * construction, Update and Render as piece_core's) and its C ABI, which
 * keeps no logger flag and no log callback.
 */
module IntermediateEngine {
  import opened Wrappers
  import opened NativeTypes
  import opened Interfaces
  import opened Registry
  import opened Lifecycle
  import opened IntermediateServiceLocator

  class EngineCore {
    var window: Option<Window>
    var graphicsDevice: Option<GraphicsDevice>
    var physicsWorld: Option<PhysicsWorld>
    /** Every factory and backend call this engine has made, oldest first. */
    ghost var calls: seq<Event>
    /** The outcome the constructor wrote to the console. */
    ghost var report: Report

    ghost predicate Valid()
      reads this
    {
      && (graphicsDevice.Some? ==> window.Some?)
      && (physicsWorld.Some? ==> graphicsDevice.Some?)
    }

    ghost function Snapshot(): Construction
      reads this
    {
      Construction(window, graphicsDevice, physicsWorld, calls, report)
    }

    /** `Piece::Intermediate::EngineCore::EngineCore()`: the same protocol, `Construct`. */
    constructor (locator: ServiceLocator, backends: Backends)
      ensures Valid()
      ensures Snapshot() == Construct(locator.State(), backends)
    {
      window, graphicsDevice, physicsWorld := None, None, None;
      calls, report := [], Initialized;
      new;
      var windowFactory := locator.GetWindowFactory();
      var graphicsFactory := locator.GetGraphicsDeviceFactory();
      var physicsFactory := locator.GetPhysicsWorldFactory();

      if windowFactory.None? {
        report := FactoryNotSet(WindowSubsystem);
        return;
      }
      if graphicsFactory.None? {
        report := FactoryNotSet(GraphicsDeviceSubsystem);
        return;
      }
      if physicsFactory.None? {
        report := FactoryNotSet(PhysicsWorldSubsystem);
        return;
      }

      var defaultWindowOptions := DefaultWindowOptions;
      window := backends.createWindow(windowFactory.value, defaultWindowOptions);
      calls := calls + [CreateWindowCall(windowFactory.value, defaultWindowOptions)];
      if window.None? {
        report := CreationFailed(WindowSubsystem);
        return;
      }

      var defaultVulkanOptions := DefaultGraphicsOptions;
      graphicsDevice := backends.createGraphicsDevice(graphicsFactory.value, window.value, defaultVulkanOptions);
      calls := calls + [CreateGraphicsDeviceCall(graphicsFactory.value, window.value, defaultVulkanOptions)];
      if graphicsDevice.None? {
        report := CreationFailed(GraphicsDeviceSubsystem);
        return;
      }

      var defaultPhysicsOptions := DefaultPhysicsOptions;
      physicsWorld := backends.createPhysicsWorld(physicsFactory.value, defaultPhysicsOptions);
      calls := calls + [CreatePhysicsWorldCall(physicsFactory.value, defaultPhysicsOptions)];
      if physicsWorld.None? {
        report := CreationFailed(PhysicsWorldSubsystem);
        return;
      }
      report := Initialized;
    }

    method Update(deltaTime: Float32)
      modifies this`calls
      ensures calls == old(calls) + UpdateCalls(physicsWorld, deltaTime)
    {
      if physicsWorld.Some? {
        calls := calls + [StepCall(physicsWorld.value, deltaTime)];
      }
    }

    method Render()
      ensures unchanged(this)
    {
      if window.Some? && graphicsDevice.Some? {
      }
    }
  }

  /** The piece_intermediate library's process-wide state and its `extern "C"` entry points. */
  class IntermediateLibrary {
    /** `ServiceLocator::Get()`'s function-static instance. */
    const locator: ServiceLocator
    /** Engines returned by `Engine_Initialize` and not yet passed to `Engine_Destroy`. */
    ghost var live: set<EngineCore>

    constructor ()
      ensures fresh(locator) && locator.State() == Empty && live == {}
    {
      locator := new ServiceLocator();
      live := {};
    }

    method PieceIntermediate_SetGraphicsDeviceFactory(factory: Option<GraphicsDeviceFactory>, options: Option<GraphicsOptions>)
      modifies locator
      ensures locator.State() == Register(old(locator.State()), Registration.SetGraphicsDeviceFactory(factory))
    {
      if factory.None? {
        return;
      }
      locator.SetGraphicsDeviceFactory(factory);
    }

    method PieceIntermediate_SetWindowFactory(factory: Option<WindowFactory>, options: Option<WindowOptions>)
      modifies locator
      ensures locator.State() == Register(old(locator.State()), Registration.SetWindowFactory(factory))
    {
      if factory.None? {
        return;
      }
      locator.SetWindowFactory(factory);
    }

    method PieceIntermediate_SetPhysicsWorldFactory(factory: Option<PhysicsWorldFactory>, options: Option<PhysicsOptions>)
      modifies locator
      ensures locator.State() == Register(old(locator.State()), Registration.SetPhysicsWorldFactory(factory))
    {
      if factory.None? {
        return;
      }
      locator.SetPhysicsWorldFactory(factory);
    }

    /** Constructs an engine from whatever the locator holds; the handle is never null. */
    method Engine_Initialize(backends: Backends) returns (core: EngineCore?)
      modifies this`live
      ensures core != null && fresh(core) && core.Valid()
      ensures core.Snapshot() == Construct(locator.State(), backends)
      ensures live == old(live) + {core}
    {
      core := new EngineCore(locator, backends);
      live := live + {core};
    }

    method Engine_Destroy(core: EngineCore?)
      requires core != null ==> core in live
      modifies this`live
      ensures live == if core == null then old(live) else old(live) - {core}
    {
      if core != null {
        live := live - {core};
      }
    }

    method Engine_Update(core: EngineCore?, deltaTime: Float32)
      requires core != null ==> core in live
      modifies core
      ensures core != null ==>
        core.Snapshot() == old(core.Snapshot()).(calls := old(core.calls) + UpdateCalls(core.physicsWorld, deltaTime))
    {
      if core != null {
        core.Update(deltaTime);
      }
    }

    method Engine_Render(core: EngineCore?)
      requires core != null ==> core in live
      ensures core != null ==> unchanged(core)
    {
      if core != null {
        core.Render();
      }
    }
  }
}
