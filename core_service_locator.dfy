/** piece_core's `ServiceLocator`: three owned factory slots, overwritten in place by the setters. */
module CoreServiceLocator {
  import opened Wrappers
  import opened Interfaces
  import opened Registry

  class ServiceLocator {
    var graphicsDeviceFactory: Option<GraphicsDeviceFactory>
    var windowFactory: Option<WindowFactory>
    var physicsWorldFactory: Option<PhysicsWorldFactory>

    /** The slots as a value. */
    function State(): Slots
      reads this
    {
      Slots(windowFactory, graphicsDeviceFactory, physicsWorldFactory)
    }

    /** The private default constructor: every slot starts empty. */
    constructor ()
      ensures State() == Empty
    {
      graphicsDeviceFactory, windowFactory, physicsWorldFactory := None, None, None;
    }

    method SetGraphicsDeviceFactory(factory: Option<GraphicsDeviceFactory>)
      modifies this
      ensures State() == Apply(old(State()), Registration.SetGraphicsDeviceFactory(factory))
    {
      graphicsDeviceFactory := factory;
    }

    method SetWindowFactory(factory: Option<WindowFactory>)
      modifies this
      ensures State() == Apply(old(State()), Registration.SetWindowFactory(factory))
    {
      windowFactory := factory;
    }

    method SetPhysicsWorldFactory(factory: Option<PhysicsWorldFactory>)
      modifies this
      ensures State() == Apply(old(State()), Registration.SetPhysicsWorldFactory(factory))
    {
      physicsWorldFactory := factory;
    }

    /** A `const` getter: hands out the occupant without transferring it or changing any slot. */
    method GetGraphicsDeviceFactory() returns (factory: Option<GraphicsDeviceFactory>)
      ensures factory == State().graphicsDevice
    {
      factory := graphicsDeviceFactory;
    }

    method GetWindowFactory() returns (factory: Option<WindowFactory>)
      ensures factory == State().window
    {
      factory := windowFactory;
    }

    method GetPhysicsWorldFactory() returns (factory: Option<PhysicsWorldFactory>)
      ensures factory == State().physicsWorld
    {
      factory := physicsWorldFactory;
    }
  }
}
