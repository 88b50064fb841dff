/**
 * The abstract factory and backend types (IWindowFactory, IGraphicsDeviceFactory,
 * IPhysicsWorldFactory, IWindow, IGraphicsDevice, IPhysicsWorld) as abstract
 * identities, the behaviour of the factories the host installs as an oracle,
 * and the calls the engine makes on them as trace events.
 */
module Interfaces {
  import opened Wrappers
  import opened NativeTypes

  /** Identity of an installed IWindowFactory. */
  datatype WindowFactory = WindowFactory(id: nat)
  /** Identity of an installed IGraphicsDeviceFactory. */
  datatype GraphicsDeviceFactory = GraphicsDeviceFactory(id: nat)
  /** Identity of an installed IPhysicsWorldFactory. */
  datatype PhysicsWorldFactory = PhysicsWorldFactory(id: nat)

  /** Identity of a backend an engine owns. */
  datatype Window = Window(id: nat)
  datatype GraphicsDevice = GraphicsDevice(id: nat)
  datatype PhysicsWorld = PhysicsWorld(id: nat)

  /**
   * What each factory's `Create*` returns for given arguments: a backend, or
   * None for the empty `unique_ptr` that signals failure. The factories are
   * code the engine cannot see, so they are parameters of the model.
   */
  datatype Backends = Backends(
    createWindow: (WindowFactory, WindowOptions) -> Option<Window>,
    createGraphicsDevice: (GraphicsDeviceFactory, Window, GraphicsOptions) -> Option<GraphicsDevice>,
    createPhysicsWorld: (PhysicsWorldFactory, PhysicsOptions) -> Option<PhysicsWorld>)

  /** A call the engine makes on a factory or a backend. */
  datatype Event =
    | CreateWindowCall(windowFactory: WindowFactory, windowOptions: WindowOptions)
    | CreateGraphicsDeviceCall(graphicsFactory: GraphicsDeviceFactory, window: Window, graphicsOptions: GraphicsOptions)
    | CreatePhysicsWorldCall(physicsFactory: PhysicsWorldFactory, physicsOptions: PhysicsOptions)
    | StepCall(world: PhysicsWorld, deltaTime: Float32)
}
