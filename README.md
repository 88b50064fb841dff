# Piece engine core: factory injection and engine lifecycle, in Dafny

Piece is a platform-abstraction layer for a game engine that a managed (.NET) host drives
through a C ABI. Almost every backend (GLFW windowing, OpenGL rendering, Box2D physics) is a
stub; the logic that exists is the wiring between them, and that is what this project models
and proves things about:

- the **service locator** (two near-identical copies, `piece_core` and `piece_intermediate`):
  three independent owned slots for a window factory, a graphics-device factory and a
  physics-world factory, overwritten by the setters and read by `const` getters;
- the **engine lifecycle controller** `EngineCore` (two copies): the constructor checks that all
  three factories are installed before creating anything, then builds the window, the graphics
  device (on that window) and the physics world in that order, stopping at the first failure and
  keeping what it built; `Update` forwards `deltaTime` to the physics world's `Step` if there is
  one; `Render` is a guarded no-op;
- the **C ABI** around it: `PieceCore_Set*Factory` / `PieceIntermediate_Set*Factory` reject null
  (unlike the locator's own setters), `Engine_*` treat a null handle as a no-op, logger
  initialisation runs once, and a one-slot log callback receives `PieceCore_Log` calls;
- the **managed wrapper** `Piece.Core.Engine` (a native handle and a disposed flag, with the
  guard rules of `Initialize`, `Update`, `Render`, `Dispose`);
- the **log-level pipeline** spdlog level → `Piece::LogLevel` → `int` → interop `LogLevel` →
  Serilog `LogEventLevel`;
- the **GLFW window factory**'s option selection.

## How the model is built

- `wrappers.dfy`, `native_types.dfy`, `interfaces.dfy`: `Option`/`Outcome`; the option records
  of `native_interop_types.h` with `int32`/`uint32` newtypes; a C++ `float` is an opaque
  `Float32(bits: bv32)` that is only passed on (the physics default `1.0f / 60.0f` is its bit
  pattern `0x3C888889`). Factories and backends are abstract identities. What the installed
  factories return is code the engine cannot see, so it is a parameter: the `Backends` record of
  three total functions, where `None` is the empty `unique_ptr` of a failed creation. Every call
  the engine makes on a factory or backend is recorded in a ghost history `seq<Event>`.
- `registry.dfy` (module `Registry`): the three slots as a value, the effect of one setter
  (`Apply`) and of one C ABI setter (`Register`), and lemmas over whole sequences of setter calls.
- `lifecycle.dfy` (module `Lifecycle`): `Construct`, the construction protocol as a function of
  the registry contents and the factory oracle, with the lemmas about order, short-circuiting and
  presence. Both copies of `EngineCore` are proved to build exactly `Construct(...)`, so the two
  copies agree by construction (`EngineCoreTests.CopiesAgree`).
- `core_service_locator.dfy`, `core_engine.dfy`, `intermediate_service_locator.dfy`,
  `intermediate_engine.dfy`: the imperative classes. `ServiceLocator::Get()`'s function-static
  instance is the `const locator` field of a library object (`CoreLibrary`,
  `IntermediateLibrary`) that also holds the other statics, so every `Get()` is the same object;
  the `EngineCore` constructor receives that locator as a parameter. Handles returned by
  `Engine_Initialize` and not yet destroyed form the ghost set `live`; passing any other non-null
  pointer is undefined behaviour in C++ and is excluded by a precondition.
- `core_log.dfy` (module `CoreLog`): piece_core's log traffic. Every spdlog call of the library
  is a `LogLine` (spdlog level and message). `Delivered` says which callback invocations a run
  of lines produces. Before `InitializeLogger` has made the logger holding the interop sink
  spdlog's default, a line goes only to spdlog's own console logger. After that it goes through
  `InteropSink::sink_it_` to `PieceCore_Log`, which invokes the callback if one is registered.
  The library's ghost history `events` records the one run of `InitializeLogger` and every
  callback invocation, whether it comes from the library's own lines or from the host calling
  `PieceCore_Log` directly.
- `log_levels.dfy`, `core_log_sink.dfy`, `intermediate_log_sink.dfy`, `managed_logging.dfy`: the
  level translations as pure functions. The spdlog level is the raw integer of
  `spdlog::level::level_enum` (trace = 0 … critical = 5, off = 6), so the `default:` branch is
  reachable.
- `managed_engine.dfy`: `Step`, the effect of one public call on the wrapper's two fields and
  the native calls it makes; `Run` over sequences of calls; the `Engine` class whose methods are
  proved to do exactly `Step`. What `NativeCalls.Engine_Initialize()` returns is a parameter.
- `glfw_window_factory.dfy`: the factory class; `GlfwWindow::Init` is an oracle `init`.
- `engine_core_tests.dfy`: the engine-core test scenarios (mock factories as oracles) as
  methods whose postconditions are the tests' expectations.

Three behaviours of the code worth stating:
- `Render` calls no backend at all; it begins and ends no frame.
- `Engine_Initialize`'s null return is unreachable, because `new` throws instead of returning
  null, so the handle is never null.
- `~EngineCore` releases the backends in reverse declaration order: the physics world, then the
  graphics device, then the window. The device therefore always goes before the window it was
  built on. Destruction itself is not modelled.

Two consequences of the code as written are proved rather than assumed away:
`InitializeAfterDisposeIsNeverDestroyed` shows that `Initialize` never consults the disposed
flag, so after `Dispose` it acquires a second native engine that the wrapper can no longer
destroy (`Dispose` is then a no-op and `Update` throws); `GlfwBackend.FlagsAreIgnored` shows that
the window flags never reach `GlfwWindow::Init`.

## Model

| member | source | states |
|---|---|---|
| `Registry.Apply` | src/cpp/piece_core/core/service_locator.h:44-63 | a setter replaces exactly its own slot's occupant (a null factory empties it) and leaves the other two slots unchanged |
| `Registry.LastWriteWins` | src/cpp/piece_core/core/service_locator.h:44-88 | after any sequence of setter calls each getter returns what the last setter for that slot moved in (null included), so every earlier occupant is unreachable; a slot no setter named keeps its occupant |
| `Registry.RegisterAllIsApplyAllOfNonNull` | src/cpp/piece_core/engine_core.cpp:119-154 | a sequence of C ABI setter calls has exactly the effect of the locator setters with the null calls removed |
| `Registry.RegisteredSlotsStayFilled` | src/cpp/piece_intermediate/engine_core.cpp:102-142 | because the C ABI setters reject null, a slot that holds a factory can be replaced through them but never emptied |
| `CoreServiceLocator.ServiceLocator.constructor` | src/cpp/piece_core/core/service_locator.h:94-101 | a new locator has all three slots empty, so every getter returns null |
| `CoreServiceLocator.ServiceLocator.SetGraphicsDeviceFactory` | src/cpp/piece_core/core/service_locator.h:44-47 | the graphics slot becomes the argument (null included), the window and physics slots are unchanged |
| `CoreServiceLocator.ServiceLocator.SetWindowFactory` | src/cpp/piece_core/core/service_locator.h:52-55 | the window slot becomes the argument, the other slots are unchanged |
| `CoreServiceLocator.ServiceLocator.SetPhysicsWorldFactory` | src/cpp/piece_core/core/service_locator.h:60-63 | the physics slot becomes the argument, the other slots are unchanged |
| `CoreServiceLocator.ServiceLocator.GetGraphicsDeviceFactory` | src/cpp/piece_core/core/service_locator.h:69-72 | returns the graphics slot's occupant and changes nothing (no modifies clause) |
| `CoreServiceLocator.ServiceLocator.GetWindowFactory` | src/cpp/piece_core/core/service_locator.h:77-80 | returns the window slot's occupant and changes nothing |
| `CoreServiceLocator.ServiceLocator.GetPhysicsWorldFactory` | src/cpp/piece_core/core/service_locator.h:85-88 | returns the physics slot's occupant and changes nothing |
| `IntermediateServiceLocator.ServiceLocator.constructor` | src/cpp/piece_intermediate/core/service_locator.h:45-49 | a new locator has all three slots empty |
| `IntermediateServiceLocator.ServiceLocator.SetGraphicsDeviceFactory` | src/cpp/piece_intermediate/core/service_locator.h:23-25 | the graphics slot becomes the argument, the other slots are unchanged |
| `IntermediateServiceLocator.ServiceLocator.SetWindowFactory` | src/cpp/piece_intermediate/core/service_locator.h:26-28 | the window slot becomes the argument, the other slots are unchanged |
| `IntermediateServiceLocator.ServiceLocator.SetPhysicsWorldFactory` | src/cpp/piece_intermediate/core/service_locator.h:29-31 | the physics slot becomes the argument, the other slots are unchanged |
| `IntermediateServiceLocator.ServiceLocator.GetGraphicsDeviceFactory` | src/cpp/piece_intermediate/core/service_locator.h:34-36 | returns the graphics slot's occupant and changes nothing |
| `IntermediateServiceLocator.ServiceLocator.GetWindowFactory` | src/cpp/piece_intermediate/core/service_locator.h:37-39 | returns the window slot's occupant and changes nothing |
| `IntermediateServiceLocator.ServiceLocator.GetPhysicsWorldFactory` | src/cpp/piece_intermediate/core/service_locator.h:40-42 | returns the physics slot's occupant and changes nothing |
| `IntermediateServiceLocator.SetNullIntoEverySlot` | tests/cpp/piece_intermediate/core/test_service_locator.cpp:17-31 | whatever the slots held, setting null into each makes every getter return null |
| `Lifecycle.Construct` | src/cpp/piece_core/engine_core.cpp:35-86 | after construction physics present ⇒ graphics present ⇒ window present; no factory is called iff some factory is missing; at most three calls; the engine reports success iff it owns a physics world |
| `Lifecycle.MissingFactoryCreatesNothing` | src/cpp/piece_core/engine_core.cpp:41-57 | with any factory absent no `Create*` call is made, all three backends stay absent, and the first missing factory (window, graphics, physics) is the one reported |
| `Lifecycle.CreationOrder` | src/cpp/piece_core/engine_core.cpp:59-84 | the calls are `CreateWindow({800, 600, 0, "Piece Engine Window"})`, then `CreateGraphicsDevice(the window just created, {0, 2})`, then `CreatePhysicsWorld({1/60, 4})`, each factory at most once, and each owned backend is exactly what its factory returned |
| `Lifecycle.FailureStopsLaterStages` | src/cpp/piece_core/engine_core.cpp:59-84 | a window failure calls no other factory; a graphics failure keeps the window and never calls the physics factory; each failure is reported for its own stage |
| `Lifecycle.AllSucceedMeansReady` | src/cpp/piece_core/engine_core.cpp:59-86 | with every factory installed and succeeding the engine owns all three backends and reports success |
| `CoreEngine.EngineCore.constructor` | src/cpp/piece_core/engine_core.cpp:35-86 | the staged constructor with early returns builds exactly `Construct(locator contents, factories)`, keeps the presence invariant, and logs exactly `ConstructorLog` of its outcome |
| `CoreEngine.EngineCore.CreateBackends` | src/cpp/piece_core/engine_core.cpp:59-86 | with all three factories installed, the creation stages build exactly `Construct` and log `ConstructorLog` of the outcome |
| `CoreEngine.EngineCore.Update` | src/cpp/piece_core/engine_core.cpp:93-99 | one `Step(deltaTime)`, with `deltaTime` unchanged, is appended to the history iff a physics world exists; otherwise no backend is touched |
| `CoreEngine.EngineCore.Render` | src/cpp/piece_core/engine_core.cpp:101-106 | calls no backend and changes nothing |
| `CoreEngine.CoreLibrary.constructor` | src/cpp/piece_core/core/service_locator.h:31-35 | process start: one locator instance (a `const` field, so every `Get()` returns the same object) with empty slots, logger not initialised, interop sink not installed, no callback, no events, no live engine |
| `CoreEngine.CoreLibrary.Log` | src/cpp/piece_core/spdlog_interop_sink.h:61-72 | one spdlog call of the library reaches `PieceCore_Log`, at the sink's level and with its message, exactly when the interop sink is installed; the set-up count is unchanged |
| `CoreEngine.CoreLibrary.InitializeLogger` | src/cpp/piece_core/engine_core.cpp:21-33 | installs the interop sink, records the one set-up, and its own "spdlog initialized." info line already goes through the sink |
| `CoreEngine.CoreLibrary.BeginInitialize` | src/cpp/piece_core/engine_core.cpp:158-164 | `InitializeLogger` runs iff the flag was clear; afterwards the flag is set and the sink installed; the attempt line is delivered after the logger's first line |
| `CoreEngine.CoreLibrary.PieceCore_SetGraphicsDeviceFactory` | src/cpp/piece_core/engine_core.cpp:119-130 | a null factory leaves the registry unchanged and logs an error; a non-null one replaces the graphics slot only and logs an info line; the options argument is ignored |
| `CoreEngine.CoreLibrary.PieceCore_SetWindowFactory` | src/cpp/piece_core/engine_core.cpp:132-141 | null is rejected with an error line; a non-null factory replaces the window slot only and logs an info line |
| `CoreEngine.CoreLibrary.PieceCore_SetPhysicsWorldFactory` | src/cpp/piece_core/engine_core.cpp:143-154 | null is rejected with an error line; a non-null factory replaces the physics slot only and logs an info line |
| `CoreEngine.CoreLibrary.Engine_Initialize` | src/cpp/piece_core/engine_core.cpp:156-172 | `InitializeLogger` runs on the first call only (at most once ever); a fresh, never-null engine built as `Construct` describes is returned even when initialisation is partial; the callback receives the logger's first line (first call only), the attempt line, then the constructor's lines |
| `CoreEngine.CoreLibrary.Engine_Destroy` | src/cpp/piece_core/engine_core.cpp:174-185 | a null handle changes nothing but the log, where it adds a warning; a live handle stops being live, and the destructor's line follows the call's own |
| `CoreEngine.CoreLibrary.Engine_Update` | src/cpp/piece_core/engine_core.cpp:187-193 | a null handle touches no engine; otherwise the engine's history gains exactly what `EngineCore::Update` adds and nothing else of it changes |
| `CoreEngine.CoreLibrary.Engine_Render` | src/cpp/piece_core/engine_core.cpp:195-201 | changes no engine, null handle or not |
| `CoreEngine.CoreLibrary.PieceCore_RegisterLogCallback` | src/cpp/piece_core/engine_core.cpp:203-216 | the callback slot becomes the argument (null unregisters); once the sink is installed, a new callback is invoked at once with the info line announcing it, and unregistering reaches no one |
| `CoreEngine.CoreLibrary.PieceCore_Log` | src/cpp/piece_core/engine_core.cpp:218-224 | (level, message) is forwarded unchanged exactly once iff a callback is registered |
| `CoreLog.Delivered` | src/cpp/piece_core/spdlog_interop_sink.h:61-72 | a run of lines produces no invocation while the sink is not installed or no callback is registered, and otherwise exactly one invocation per line; it never records a logger set-up |
| `CoreLog.DeliveredElements` | src/cpp/piece_core/spdlog_interop_sink.h:67-71 | the i-th invocation carries the i-th line's message and the level `spdlog_level_to_piece_log_level` gives it |
| `CoreLog.DeliveredAppend` | src/cpp/piece_core/spdlog_interop_sink.h:61-72 | lines logged one run after another are delivered in that order |
| `CoreLog.SetUpsAppend` | src/cpp/piece_core/engine_core.cpp:158-163 | the count of logger set-ups in a history is additive, which is what keeps it at most one |
| `CoreLog.ConstructorLog` | src/cpp/piece_core/engine_core.cpp:41-85 | the constructor always logs at least one line; every line but the last is info; the last is an error exactly when the engine is not fully initialised |
| `CoreLog.ConstructorLogMatchesBackends` | src/cpp/piece_core/engine_core.cpp:59-85 | the constructor logs one line per backend the engine ends up owning plus its final line, and that final line is an error exactly when there is no physics world |
| `IntermediateEngine.EngineCore.constructor` | src/cpp/piece_intermediate/engine_core.cpp:14-68 | the intermediate constructor builds exactly the same `Construct(...)` as piece_core's |
| `IntermediateEngine.EngineCore.Update` | src/cpp/piece_intermediate/engine_core.cpp:74-80 | one `Step(deltaTime)` iff a physics world exists |
| `IntermediateEngine.EngineCore.Render` | src/cpp/piece_intermediate/engine_core.cpp:82-87 | calls no backend and changes nothing |
| `IntermediateEngine.IntermediateLibrary.constructor` | src/cpp/piece_intermediate/core/service_locator.h:13-16 | one locator instance for the process, with empty slots |
| `IntermediateEngine.IntermediateLibrary.PieceIntermediate_SetGraphicsDeviceFactory` | src/cpp/piece_intermediate/engine_core.cpp:102-116 | null is rejected leaving the registry unchanged; a non-null factory is installed in the graphics slot |
| `IntermediateEngine.IntermediateLibrary.PieceIntermediate_SetWindowFactory` | src/cpp/piece_intermediate/engine_core.cpp:118-129 | null is rejected; a non-null factory is installed in the window slot |
| `IntermediateEngine.IntermediateLibrary.PieceIntermediate_SetPhysicsWorldFactory` | src/cpp/piece_intermediate/engine_core.cpp:131-142 | null is rejected; a non-null factory is installed in the physics slot |
| `IntermediateEngine.IntermediateLibrary.Engine_Initialize` | src/cpp/piece_intermediate/engine_core.cpp:144-152 | returns a fresh, never-null engine built as `Construct` describes |
| `IntermediateEngine.IntermediateLibrary.Engine_Destroy` | src/cpp/piece_intermediate/engine_core.cpp:154-161 | a null handle changes nothing; a live handle stops being live |
| `IntermediateEngine.IntermediateLibrary.Engine_Update` | src/cpp/piece_intermediate/engine_core.cpp:163-167 | a null handle touches no engine; otherwise exactly `EngineCore::Update`'s effect |
| `IntermediateEngine.IntermediateLibrary.Engine_Render` | src/cpp/piece_intermediate/engine_core.cpp:169-173 | changes no engine |
| `LogLevels.PieceLogLevel.Code` | src/cpp/piece_core/logging_api.h:14-40 | the integer value of every `Piece::LogLevel` lies in 0..5 |
| `LogLevels.CodeInjective` | src/cpp/piece_core/logging_api.h:14-40 | distinct enumerators have distinct codes |
| `CoreLogSink.SpdlogLevelToPieceLogLevel` | src/cpp/piece_core/spdlog_interop_sink.h:23-43 | trace, debug, info, warn, err, critical become the Piece level of the same rank (Trace … Fatal); `off` and every unlisted value become Trace, so the function is total |
| `CoreLogSink.SinkLevel` | src/cpp/piece_core/spdlog_interop_sink.h:69 | the int passed to `PieceCore_Log` is always in 0..5, equals the spdlog level for the six severities and is 0 otherwise |
| `CoreLogSink.PreservesSeverityOrder` | src/cpp/piece_core/spdlog_interop_sink.h:25-38 | the translation keeps severity order on the six real levels |
| `CoreLogSink.InjectiveOnSeverities` | src/cpp/piece_core/spdlog_interop_sink.h:25-38 | distinct real levels map to distinct Piece levels |
| `CoreLogSink.OffCollidesWithTrace` | src/cpp/piece_core/spdlog_interop_sink.h:39-41 | `off` maps to Trace, the same as trace |
| `IntermediateLogSink.SpdlogLevelToPieceLogLevel` | src/cpp/piece_intermediate/spdlog_interop_sink.h:13-33 | agrees with piece_core's translation on every input |
| `IntermediateLogSink.SinkLevel` | src/cpp/piece_intermediate/spdlog_interop_sink.h:51 | the int passed to `PieceIntermediate_Log` is in 0..5 and equals piece_core's |
| `ManagedLogging.MapLogLevel` | src/csharp/Piece.Core.Interop/NativeCalls.cs:39-51 | codes 0..5 become Verbose, Debug, Information, Warning, Error, Fatal (the Serilog level of the same rank); every other int becomes Information; total over int |
| `ManagedLogging.MapPreservesSeverityOrder` | src/csharp/Piece.Core.Interop/NativeCalls.cs:41-48 | `MapLogLevel` keeps severity order on 0..5 |
| `ManagedLogging.EndToEnd` | src/csharp/Piece.Core.Interop/NativeCalls.cs:39-51 | through the whole chain every spdlog severity arrives as the same-named Serilog level, and `off` or an unlisted value arrives as Verbose |
| `ManagedEngine.Step` | src/csharp/Piece.Core/Engine.cs:20-91 | `Initialize` makes no native call while a handle is held, otherwise registers the callback then initialises and throws `InvalidOperationException` (handle 0) iff the native side returned 0, never reading the disposed flag; `Update`/`Render` throw `ObjectDisposedException` once disposed and otherwise make exactly one native call iff a handle is held, passing `deltaTime` unchanged; `Dispose` destroys a held handle, zeroes it and sets disposed, and a repeated `Dispose` does nothing |
| `ManagedEngine.DestroyAtMostOnce` | src/csharp/Piece.Core/Engine.cs:65-77 | over any sequence of public calls `Engine_Destroy` is called at most once, and never once the wrapper is disposed |
| `ManagedEngine.DestroyOnlyHeldHandles` | src/csharp/Piece.Core/Engine.cs:69-73 | `Engine_Destroy` is only ever called with a non-zero handle |
| `ManagedEngine.DisposedOnlyReinitializes` | src/csharp/Piece.Core/Engine.cs:20-63 | after `Dispose` the wrapper stays disposed and the only native calls still possible are those of `Initialize` |
| `ManagedEngine.InitializeAfterDisposeIsNeverDestroyed` | src/csharp/Piece.Core/Engine.cs:20-45 | `Initialize` after `Dispose` acquires a second native engine that is never destroyed, and `Update` then throws |
| `ManagedEngine.Engine.constructor` | src/csharp/Piece.Core/Engine.cs:14-18 | a new wrapper holds no native handle and is not disposed |
| `ManagedEngine.Engine.Initialize` | src/csharp/Piece.Core/Engine.cs:20-45 | new fields, native calls and exception are exactly those of `Step` for `Initialize` |
| `ManagedEngine.Engine.Update` | src/csharp/Piece.Core/Engine.cs:47-54 | the native calls and exception are exactly those of `Step` for `Update`; the fields do not change |
| `ManagedEngine.Engine.Render` | src/csharp/Piece.Core/Engine.cs:56-63 | the native calls and exception are exactly those of `Step` for `Render`; the fields do not change |
| `ManagedEngine.Engine.Dispose` | src/csharp/Piece.Core/Engine.cs:65-83 | new fields and native calls are exactly those of `Step` for `Dispose` |
| `ManagedEngine.Engine.ThrowIfDisposed` | src/csharp/Piece.Core/Engine.cs:85-91 | throws `ObjectDisposedException` exactly when disposed |
| `GlfwBackend.GlfwWindowFactory.constructor` | src/cpp/wal/glfw_backend/glfw_window_factory.cpp:10-23 | a given options record is copied into `options_`; null yields 800 x 600, flags 0, "Default Piece Engine Window" |
| `GlfwBackend.GlfwWindowFactory.CreateWindow` | src/cpp/wal/glfw_backend/glfw_window_factory.cpp:25-37 | `Init` receives exactly the width, height and title of the argument options when given and of the stored ones otherwise; the result is null exactly when `Init` fails and otherwise a window initialised with those arguments; `options_` is not modified |
| `GlfwBackend.FlagsAreIgnored` | src/cpp/wal/glfw_backend/glfw_window_factory.cpp:30-31 | options differing only in their flags produce the same `Init` call |
| `EngineCoreTests.UpdateAndRenderCallsBackendMethods` | tests/cpp/piece_core/core/test_engine_core.cpp:102-136 | with mock factories registered, construction calls each factory once in order and `Update(dt)` then `Render()` adds exactly one `Step(dt)` and nothing else |
| `EngineCoreTests.NoFactoriesMeansNoBackendCalls` | src/cpp/piece_core/engine_core.cpp:35-106 | with no factory registered, construction and any `Update`/`Render` call no factory or backend |
| `EngineCoreTests.GraphicsFailureKeepsWindow` | src/cpp/piece_core/engine_core.cpp:59-75 | a failing graphics factory keeps the window, never reaches the physics factory, and leaves `Update` with nothing to step |
| `EngineCoreTests.CallbackRegisteredBeforeInitialize` | src/csharp/Piece.Core/Engine.cs:28-37 | in the managed host's order (register, then initialise) the registration line never reaches the callback; the callback receives "spdlog initialized.", the attempt line and the constructor's error, at levels 2, 2 and 4 |
| `EngineCoreTests.CallbackRegisteredAfterInitialize` | src/cpp/piece_core/engine_core.cpp:205-211 | registering after the logger is initialised invokes the new callback at once with "C# LogCallback registered." at level 2 |
| `EngineCoreTests.CopiesAgree` | src/cpp/piece_intermediate/engine_core.cpp:14-68 | from the same registry contents and factories the two `EngineCore` copies build the same engine |

## Left out

- Log formatting and the other sinks: `sink_it_` hands the callback the line as spdlog's formatter
  renders it, with timestamp, logger name and level, and a trailing `'\0'`. The model hands on the
  message text alone. The console and rotating-file sinks, the logger level and flush settings,
  and spdlog's own default logger before `InitializeLogger` are I/O and are not modelled.
- The interleaving of log lines with factory and backend calls: the two are separate histories,
  `CoreLibrary.events` and `EngineCore.calls`, each in its own order.
- piece_intermediate writes its log lines to `std::cout`/`std::cerr` and never to a callback:
  console I/O, not modelled.
- Thread safety of the function-static singletons and of `loggerInitialized` / `s_log_callback`:
  the model is single-threaded.
- Destruction: `delete`, destructors and the release of a replaced factory are not modelled,
  nor is the reverse-declaration order in which `~EngineCore` releases its backends (physics
  world, graphics device, window); `Engine_Destroy`'s log lines, the destructor's included, are.
  Ownership appears only as unreachability (a replaced occupant can no longer be returned) and
  as the ghost set of live engine handles.
- The factory oracles are functions: a factory returns the same result for the same arguments,
  so the model cannot express that two engines never share a backend.
- Floating point: `deltaTime` and `1.0f / 60.0f` are opaque bit patterns; no arithmetic.
- The backend interfaces' other methods (`Init`, `BeginFrame`, `PollEvents`, …) and the
  `KeyCode` table: the engine core never calls them.
- `GlfwWindow::Init` and the GLFW, OpenGL and Box2D backends: external code; `Init`'s result is
  the `init` oracle.
- piece_intermediate's sink calls `PieceIntermediate_Log`, but no source file declares or
  defines it (piece_intermediate's `native_exports.h` included), and the intermediate engine
  never installs that sink; it is not part of this model.
- The managed side's P/Invoke declarations, `ProcessCppLog`, the Serilog writes,
  `GCHandle.Alloc` of the delegate, `GC.SuppressFinalize`, the hosting and DI extensions, and the
  mismatch between the managed entry-point names (`SetWindowFactory`, …) and the exported
  `PieceCore_Set*Factory`: linkage and I/O, not behaviour.
- The `if (!core)` branch of both `Engine_Initialize` functions: `new` throws rather than
  returning null, so the branch is dead and the model's handle is never null.
