/**
 * The plain records exchanged across the native boundary (NativeWindowOptions,
 * NativeVulkanOptions, NativePhysicsOptions) and the fixed-width integer and
 * floating-point types their fields use.
 */
module NativeTypes {

  /** C++ `int` on the supported platforms. */
  newtype int32 = x: int | -0x8000_0000 <= x < 0x8000_0000

  /** C++ `uint32_t`. */
  newtype uint32 = x: int | 0 <= x < 0x1_0000_0000

  /**
   * A C++ `float`, kept opaque: the engine core only passes such values on,
   * so the model keeps the IEEE-754 bit pattern and does no arithmetic on it.
   */
  datatype Float32 = Float32(bits: bv32)

  /** `1.0f / 60.0f`, the default fixed physics step, rounded to nearest (0x3C888889). */
  const OneSixtieth: Float32 := Float32(0x3C88_8889)

  /** NativeWindowOptions: initial size, flags and a borrowed title string. */
  datatype WindowOptions = WindowOptions(
    initialWindowWidth: int32,
    initialWindowHeight: int32,
    windowFlags: uint32,
    windowTitle: string)

  /** NativeVulkanOptions: validation layers on/off (as an integer) and frames in flight. */
  datatype GraphicsOptions = GraphicsOptions(
    enableValidationLayers: uint32,
    maxFramesInFlight: int32)

  /** NativePhysicsOptions: the fixed time step and the step budget per frame. */
  datatype PhysicsOptions = PhysicsOptions(
    fixedDeltaTime: Float32,
    maxPhysicsSteps: uint32)
}
