/**
 * The launch configuration: a builder whose setters each replace one field,
 * and `run`, which refuses to start without an init callback and otherwise
 * builds the initial context and runtime with every resource absent.
 */
module Builder {
  import opened Wrappers
  import opened Types
  import opened Engine
  import opened Runtime

  const DefaultTitle: string := "Gamma Game"
  const DefaultSize: LogicalSize := LogicalSize(800.0, 600.0)

  datatype GammaBuilder<!S> = GammaBuilder(
    drawFn: Option<TickFn<S>>,
    updateFn: Option<TickFn<S>>,
    initFn: Option<InitFn<S>>,
    title: Option<string>,
    logicalSize: Option<LogicalSize>,
    resizable: bool,
    vsync: bool,
    fullscreen: bool)
  {
    function WithTitle(title: string): (b: GammaBuilder<S>)
      ensures b.title == Some(title) && b.(title := this.title) == this
    {
      this.(title := Some(title))
    }

    /** The size is given in whole logical units and stored exactly. */
    function WithSize(width: u16, height: u16): (b: GammaBuilder<S>)
      ensures b.logicalSize == Some(LogicalSize(width as real, height as real))
      ensures b.(logicalSize := this.logicalSize) == this
    {
      this.(logicalSize := Some(LogicalSize(width as real, height as real)))
    }

    function WithResizable(isResizable: bool): (b: GammaBuilder<S>)
      ensures b.resizable == isResizable && b.(resizable := this.resizable) == this
    {
      this.(resizable := isResizable)
    }

    function WithVsync(useVsync: bool): (b: GammaBuilder<S>)
      ensures b.vsync == useVsync && b.(vsync := this.vsync) == this
    {
      this.(vsync := useVsync)
    }

    function WithFullscreen(fullscreen: bool): (b: GammaBuilder<S>)
      ensures b.fullscreen == fullscreen && b.(fullscreen := this.fullscreen) == this
    {
      this.(fullscreen := fullscreen)
    }

    function OnInit(init: InitFn<S>): (b: GammaBuilder<S>)
      ensures b.initFn == Some(init) && b.(initFn := this.initFn) == this
    {
      this.(initFn := Some(init))
    }

    function OnDraw(draw: TickFn<S>): (b: GammaBuilder<S>)
      ensures b.drawFn == Some(draw) && b.(drawFn := this.drawFn) == this
    {
      this.(drawFn := Some(draw))
    }

    function OnUpdate(update: TickFn<S>): (b: GammaBuilder<S>)
      ensures b.updateFn == Some(update) && b.(updateFn := this.updateFn) == this
    {
      this.(updateFn := Some(update))
    }
  }

  /** No callbacks, no title, no size; resizable and vsync on, windowed. */
  function Default<S>(): (b: GammaBuilder<S>)
    ensures b.drawFn.None? && b.updateFn.None? && b.initFn.None?
    ensures b.title.None? && b.logicalSize.None?
    ensures b.resizable && b.vsync && !b.fullscreen
  {
    GammaBuilder(None, None, None, None, None, true, true, false)
  }

  /** For each setter, a second call replaces the first. */
  lemma LastWriteWins<S>(b: GammaBuilder<S>, t1: string, t2: string, w1: u16, h1: u16, w2: u16, h2: u16, x: bool, y: bool)
    ensures b.WithTitle(t1).WithTitle(t2) == b.WithTitle(t2)
    ensures b.WithSize(w1, h1).WithSize(w2, h2) == b.WithSize(w2, h2)
    ensures b.WithResizable(x).WithResizable(y) == b.WithResizable(y)
    ensures b.WithVsync(x).WithVsync(y) == b.WithVsync(y)
    ensures b.WithFullscreen(x).WithFullscreen(y) == b.WithFullscreen(y)
  {
  }

  /** The callback put in place of a missing draw or update callback: keeps the state, draws nothing. */
  function NoOp<S>(): TickFn<S> {
    (view, s) => Effects(s, [])
  }

  /** The no-op callback returns the state it was given and makes no render call. */
  lemma NoOpKeepsState<S>(view: Snapshot, s: S)
    ensures NoOp<S>()(view, s) == Effects(s, [])
    ensures |NoOp<S>()(view, s).calls| == 0
  {
  }

  function TitleOrDefault(title: Option<string>): (t: string)
    ensures title.Some? ==> t == title.value
    ensures title.None? ==> t == DefaultTitle
  {
    if title.Some? then title.value else DefaultTitle
  }

  function SizeOrDefault(size: Option<LogicalSize>): (s: LogicalSize)
    ensures size.Some? ==> s == size.value
    ensures size.None? ==> s == LogicalSize(800.0, 600.0)
  {
    if size.Some? then size.value else DefaultSize
  }

  function CallbackOrNoOp<S>(f: Option<TickFn<S>>): (g: TickFn<S>)
    ensures f.Some? ==> g == f.value
    ensures f.None? ==> g == NoOp()
  {
    if f.Some? then f.value else NoOp()
  }

  /** How `run` ends before the event loop takes over. */
  datatype Launch<S> =
    | ProcessExit(code: int)        // no init callback: the process exits
    | EventLoopPanicked             // "Error occurred starting the event loop"
    | Running(runtime: GammaRuntime<S>)

  /**
   * `run`, up to handing the runtime to the event loop. Without an init
   * callback the process exits with -1 before anything is built. Otherwise
   * the context takes the configuration, with defaults for a missing title,
   * size and callbacks, and the runtime starts with every resource, the
   * frame and the user state absent. `clock` is the time read just before
   * the runtime is built.
   */
  method Run<S>(b: GammaBuilder<S>, eventLoopStarts: bool, clock: nat) returns (launch: Launch<S>)
    ensures b.initFn.None? <==> launch == ProcessExit(-1)
    ensures b.initFn.Some? && !eventLoopStarts ==> launch == EventLoopPanicked
    ensures b.initFn.Some? && eventLoopStarts ==>
      launch.Running? && fresh(launch.runtime) && fresh(launch.runtime.context) &&
      var g := launch.runtime.context;
      launch.runtime.Valid() && launch.runtime.state.None? &&
      g.Handles() == NoResources && g.currentFrame.None? &&
      g.initFn == b.initFn &&
      g.drawFn == CallbackOrNoOp(b.drawFn) && g.updateFn == CallbackOrNoOp(b.updateFn) &&
      g.title == TitleOrDefault(b.title) && g.logicalSize == SizeOrDefault(b.logicalSize) &&
      g.resizable == b.resizable && g.vsync == b.vsync && g.fullscreen == b.fullscreen &&
      g.lastFrameTime == clock && g.Keys() == Input.NoKeys
  {
    if b.initFn.None? {
      return ProcessExit(-1);
    }
    var gamma := new Gamma(CallbackOrNoOp(b.drawFn), CallbackOrNoOp(b.updateFn), b.initFn,
                           TitleOrDefault(b.title), SizeOrDefault(b.logicalSize),
                           b.resizable, b.vsync, b.fullscreen, clock);
    if !eventLoopStarts {
      return EventLoopPanicked;
    }
    gamma.lastFrameTime := clock;
    var runtime := new GammaRuntime(gamma);
    return Running(runtime);
  }
}
