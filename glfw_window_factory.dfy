/**
 * The GLFW backend's `GlfwWindowFactory`: it keeps a copy of the options it
 * was built with (or defaults) and, per `CreateWindow`, initialises a fresh
 * `GlfwWindow` with the options given or the stored ones. Whether GLFW manages
 * to open a window is outside the model: `init` says what `GlfwWindow::Init`
 * returns for the arguments it receives.
 */
module GlfwBackend {
  import opened Wrappers
  import opened NativeTypes

  /** The arguments `GlfwWindow::Init(width, height, title)` receives. */
  datatype InitArgs = InitArgs(width: int32, height: int32, title: string)

  /** A `GlfwWindow` whose `Init` succeeded, with the arguments it was initialised with. */
  datatype GlfwWindow = GlfwWindow(initArgs: InitArgs)

  /** The fields `NativeWindowOptions` contributes to `Init`; the flags are not among them. */
  function InitArgsOf(options: WindowOptions): InitArgs {
    InitArgs(options.initialWindowWidth, options.initialWindowHeight, options.windowTitle)
  }

  class GlfwWindowFactory {
    /** `options_`. */
    var options: WindowOptions

    /** Copies the given options; a null pointer yields 800 x 600, no flags, the default title. */
    constructor (options: Option<WindowOptions>)
      ensures options.Some? ==> this.options == options.value
      ensures options.None? ==> this.options == WindowOptions(800, 600, 0, "Default Piece Engine Window")
    {
      if options.Some? {
        this.options := options.value;
      } else {
        this.options := WindowOptions(800, 600, 0, "Default Piece Engine Window");
      }
    }

    /**
     * Initialises a window with the argument options when they are given and
     * with the stored ones otherwise, and returns it, or null if `Init` fails.
     * It reads `options_` and changes nothing.
     */
    method CreateWindow(options: Option<WindowOptions>, init: InitArgs -> bool) returns (window: Option<GlfwWindow>)
      ensures var args := InitArgsOf(if options.Some? then options.value else this.options);
        && (window.Some? <==> init(args))
        && (window.Some? ==> window.value.initArgs == args)
    {
      var actualOptions := if options.Some? then options.value else this.options;
      var args := InitArgs(actualOptions.initialWindowWidth, actualOptions.initialWindowHeight, actualOptions.windowTitle);
      if !init(args) {
        return None;
      }
      return Some(GlfwWindow(args));
    }
  }

  /**
   * The window flags never reach `Init`: two option records that differ only
   * in their flags lead to the same `Init` call and the same result.
   */
  lemma FlagsAreIgnored(a: WindowOptions, b: WindowOptions)
    requires a.(windowFlags := 0) == b.(windowFlags := 0)
    ensures InitArgsOf(a) == InitArgsOf(b)
  {
  }
}
