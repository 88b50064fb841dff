/** piece_intermediate's `ServiceLocator`: the same three slots, replaced by move-assignment. */
module IntermediateServiceLocator {
  import opened Wrappers
  import opened Interfaces
  import opened Registry

  class ServiceLocator {
    var graphicsDeviceFactory: Option<GraphicsDeviceFactory>
    var windowFactory: Option<WindowFactory>
    var physicsWorldFactory: Option<PhysicsWorldFactory>

    /** The slots as a value. */
    function State(): Slots
      reads this
    {
      Slots(windowFactory, graphicsDeviceFactory, physicsWorldFactory)
    }

    /** The private default constructor: every slot starts empty. */
    constructor ()
      ensures State() == Empty
    {
      graphicsDeviceFactory, windowFactory, physicsWorldFactory := None, None, None;
    }

    method SetGraphicsDeviceFactory(factory: Option<GraphicsDeviceFactory>)
      modifies this
      ensures State() == Apply(old(State()), Registration.SetGraphicsDeviceFactory(factory))
    {
      graphicsDeviceFactory := factory;
    }

    method SetWindowFactory(factory: Option<WindowFactory>)
      modifies this
      ensures State() == Apply(old(State()), Registration.SetWindowFactory(factory))
    {
      windowFactory := factory;
    }

    method SetPhysicsWorldFactory(factory: Option<PhysicsWorldFactory>)
      modifies this
      ensures State() == Apply(old(State()), Registration.SetPhysicsWorldFactory(factory))
    {
      physicsWorldFactory := factory;
    }

    /** A `const` getter: hands out the occupant without changing any slot. */
    method GetGraphicsDeviceFactory() returns (factory: Option<GraphicsDeviceFactory>)
      ensures factory == State().graphicsDevice
    {
      factory := graphicsDeviceFactory;
    }

    method GetWindowFactory() returns (factory: Option<WindowFactory>)
      ensures factory == State().window
    {
      factory := windowFactory;
    }

    method GetPhysicsWorldFactory() returns (factory: Option<PhysicsWorldFactory>)
      ensures factory == State().physicsWorld
    {
      factory := physicsWorldFactory;
    }
  }

  /**
   * The locator test's scenario: whatever the slots held, setting null into
   * each of them leaves every getter returning null.
   */
  method SetNullIntoEverySlot(locator: ServiceLocator)
    modifies locator
    ensures locator.State() == Empty
  {
    locator.SetGraphicsDeviceFactory(None);
    locator.SetWindowFactory(None);
    locator.SetPhysicsWorldFactory(None);
    var g := locator.GetGraphicsDeviceFactory();
    var w := locator.GetWindowFactory();
    var p := locator.GetPhysicsWorldFactory();
    assert g == None && w == None && p == None;
  }
}
