/**
 * The service registry as a value: three independent, optional factory slots,
 * the effect of the locator's setters, and the effect of the C ABI setters,
 * which refuse null where the locator's own setters accept it.
 */
module Registry {
  import opened Wrappers
  import opened Interfaces

  /** The occupants of the window, graphics-device and physics-world slots. */
  datatype Slots = Slots(
    window: Option<WindowFactory>,
    graphicsDevice: Option<GraphicsDeviceFactory>,
    physicsWorld: Option<PhysicsWorldFactory>)
  {
    /** All three factories are installed. */
    predicate Complete() {
      window.Some? && graphicsDevice.Some? && physicsWorld.Some?
    }
  }

  /** A default-constructed locator: every `unique_ptr` slot is empty. */
  const Empty: Slots := Slots(None, None, None)

  /** One call of a `Set*Factory` setter, with the (possibly null) factory it moves in. */
  datatype Registration =
    | SetWindowFactory(windowFactory: Option<WindowFactory>)
    | SetGraphicsDeviceFactory(graphicsFactory: Option<GraphicsDeviceFactory>)
    | SetPhysicsWorldFactory(physicsFactory: Option<PhysicsWorldFactory>)
  {
    /** The factory pointer handed over is null. */
    predicate IsNull() {
      match this
      case SetWindowFactory(f) => f.None?
      case SetGraphicsDeviceFactory(f) => f.None?
      case SetPhysicsWorldFactory(f) => f.None?
    }
  }

  /**
   * `ServiceLocator::Set*Factory`: the move-assignment replaces the named slot's
   * occupant (a null factory empties it) and leaves the other two slots alone.
   */
  function Apply(s: Slots, op: Registration): (r: Slots)
    ensures r.window == (if op.SetWindowFactory? then op.windowFactory else s.window)
    ensures r.graphicsDevice == (if op.SetGraphicsDeviceFactory? then op.graphicsFactory else s.graphicsDevice)
    ensures r.physicsWorld == (if op.SetPhysicsWorldFactory? then op.physicsFactory else s.physicsWorld)
  {
    match op
    case SetWindowFactory(f) => s.(window := f)
    case SetGraphicsDeviceFactory(f) => s.(graphicsDevice := f)
    case SetPhysicsWorldFactory(f) => s.(physicsWorld := f)
  }

  /** The slots after a sequence of setter calls, performed first to last. */
  function ApplyAll(s: Slots, ops: seq<Registration>): Slots
    decreases |ops|
  {
    if ops == [] then s else ApplyAll(Apply(s, ops[0]), ops[1..])
  }

  /** The factory moved in by the last `SetWindowFactory` in ops, or `dflt` if there is none. */
  function LastWindow(ops: seq<Registration>, dflt: Option<WindowFactory>): Option<WindowFactory>
    decreases |ops|
  {
    if ops == [] then dflt
    else if ops[|ops| - 1].SetWindowFactory? then ops[|ops| - 1].windowFactory
    else LastWindow(ops[..|ops| - 1], dflt)
  }

  function LastGraphicsDevice(ops: seq<Registration>, dflt: Option<GraphicsDeviceFactory>): Option<GraphicsDeviceFactory>
    decreases |ops|
  {
    if ops == [] then dflt
    else if ops[|ops| - 1].SetGraphicsDeviceFactory? then ops[|ops| - 1].graphicsFactory
    else LastGraphicsDevice(ops[..|ops| - 1], dflt)
  }

  function LastPhysicsWorld(ops: seq<Registration>, dflt: Option<PhysicsWorldFactory>): Option<PhysicsWorldFactory>
    decreases |ops|
  {
    if ops == [] then dflt
    else if ops[|ops| - 1].SetPhysicsWorldFactory? then ops[|ops| - 1].physicsFactory
    else LastPhysicsWorld(ops[..|ops| - 1], dflt)
  }

  lemma {:induction false} ApplyAllSnoc(s: Slots, ops: seq<Registration>, op: Registration)
    ensures ApplyAll(s, ops + [op]) == Apply(ApplyAll(s, ops), op)
    decreases |ops|
  {
    if ops == [] {
      assert ops + [op] == [op];
    } else {
      assert (ops + [op])[1..] == ops[1..] + [op];
      ApplyAllSnoc(Apply(s, ops[0]), ops[1..], op);
    }
  }

  /**
   * Last write wins, slot by slot: after any sequence of setter calls each
   * getter returns what the last setter for that slot moved in (null
   * included), and the earlier occupants are unreachable; a slot no setter
   * named keeps its old occupant.
   */
  lemma {:induction false} LastWriteWins(s: Slots, ops: seq<Registration>)
    ensures ApplyAll(s, ops).window == LastWindow(ops, s.window)
    ensures ApplyAll(s, ops).graphicsDevice == LastGraphicsDevice(ops, s.graphicsDevice)
    ensures ApplyAll(s, ops).physicsWorld == LastPhysicsWorld(ops, s.physicsWorld)
    decreases |ops|
  {
    if ops != [] {
      var init, last := ops[..|ops| - 1], ops[|ops| - 1];
      assert ops == init + [last];
      ApplyAllSnoc(s, init, last);
      LastWriteWins(s, init);
    }
  }

  /**
   * `PieceCore_Set*Factory` / `PieceIntermediate_Set*Factory`: a null factory
   * pointer is rejected and leaves the registry as it was; a non-null one is
   * installed with the locator's setter.
   */
  function Register(s: Slots, op: Registration): Slots {
    if op.IsNull() then s else Apply(s, op)
  }

  /** The slots after a sequence of C ABI setter calls, performed first to last. */
  function RegisterAll(s: Slots, ops: seq<Registration>): Slots
    decreases |ops|
  {
    if ops == [] then s else RegisterAll(Register(s, ops[0]), ops[1..])
  }

  /** The locator-level calls that a sequence of C ABI calls amounts to: the non-null ones. */
  function NonNull(ops: seq<Registration>): (r: seq<Registration>)
    ensures forall i :: 0 <= i < |r| ==> !r[i].IsNull()
    ensures |r| <= |ops|
    decreases |ops|
  {
    if ops == [] then []
    else if ops[0].IsNull() then NonNull(ops[1..])
    else [ops[0]] + NonNull(ops[1..])
  }

  /** Going through the C ABI is the locator's setters with the null calls dropped. */
  lemma {:induction false} RegisterAllIsApplyAllOfNonNull(s: Slots, ops: seq<Registration>)
    ensures RegisterAll(s, ops) == ApplyAll(s, NonNull(ops))
    decreases |ops|
  {
    if ops != [] {
      RegisterAllIsApplyAllOfNonNull(Register(s, ops[0]), ops[1..]);
      if !ops[0].IsNull() {
        var rest := NonNull(ops[1..]);
        assert NonNull(ops) == [ops[0]] + rest;
        assert ([ops[0]] + rest)[1..] == rest;
      }
    }
  }

  /**
   * Because the C ABI rejects null, a slot that holds a factory can be
   * replaced through it but never emptied again.
   */
  lemma {:induction false} RegisteredSlotsStayFilled(s: Slots, ops: seq<Registration>)
    ensures s.window.Some? ==> RegisterAll(s, ops).window.Some?
    ensures s.graphicsDevice.Some? ==> RegisterAll(s, ops).graphicsDevice.Some?
    ensures s.physicsWorld.Some? ==> RegisterAll(s, ops).physicsWorld.Some?
    decreases |ops|
  {
    if ops != [] {
      RegisteredSlotsStayFilled(Register(s, ops[0]), ops[1..]);
    }
  }
}
