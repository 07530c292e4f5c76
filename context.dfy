/**
 * `initialize_rendering`: creates the window and the GPU objects in a fixed
 * order, every fallible step first, then stores all eight resources at once.
 */
module Context {
  import opened Wrappers
  import opened Types
  import opened Engine

  /** The present mode follows the vsync flag. */
  function PresentModeFor(vsync: bool): (mode: PresentMode)
    ensures mode == AutoVsync <==> vsync
    ensures mode == AutoNoVsync <==> !vsync
  {
    if vsync then AutoVsync else AutoNoVsync
  }

  /**
   * The window is asked for with the configured title, logical size and
   * resizable flag, and is borderless fullscreen exactly when configured so.
   */
  function WindowAttributesFor(title: string, size: LogicalSize, resizable: bool, fullscreen: bool): (a: WindowAttributes)
    ensures a.title == title && a.innerSize == size && a.resizable == resizable
    ensures a.fullscreen == Some(Borderless) <==> fullscreen
    ensures a.fullscreen == None <==> !fullscreen
  {
    var a := WindowAttributes(title, size, resizable, None);
    if fullscreen then a.(fullscreen := Some(Borderless)) else a
  }

  /**
   * The surface is configured at the window's inner size in pixels, in the
   * sRGB BGRA format, with the present mode the vsync flag selects.
   */
  function SurfaceConfigFor(size: PhysicalSize, vsync: bool): (c: SurfaceConfiguration)
    ensures c.format == Bgra8UnormSrgb && c.viewFormats == [Bgra8UnormSrgb]
    ensures c.width == size.width && c.height == size.height
    ensures c.presentMode == AutoVsync <==> vsync
    ensures c.maximumFrameLatency == 2
  {
    SurfaceConfiguration(Bgra8UnormSrgb, [Bgra8UnormSrgb], 2, size.width, size.height, PresentModeFor(vsync))
  }

  /** What the platform hands back for a new window: an identity and its inner size in pixels. */
  datatype WindowGrant = WindowGrant(id: nat, innerSize: PhysicalSize)

  /**
   * The outcomes of the foreign calls `initialize_rendering` makes, in its
   * order: window creation, surface creation, adapter request, device
   * request. `None` is a failure, on which the source unwraps and panics.
   */
  datatype Platform = Platform(
    window: Option<WindowGrant>,
    instance: nat,
    surface: Option<nat>,
    adapter: Option<nat>,
    deviceAndQueue: Option<(nat, nat)>)

  datatype InitStep = CreateWindow | CreateSurface | RequestAdapter | RequestDevice

  datatype InitOutcome = Initialized | Failed(step: InitStep)

  /** The first step, in the source's order, whose foreign call failed. */
  function FirstFailure(p: Platform): Option<InitStep> {
    if p.window.None? then Some(CreateWindow)
    else if p.surface.None? then Some(CreateSurface)
    else if p.adapter.None? then Some(RequestAdapter)
    else if p.deviceAndQueue.None? then Some(RequestDevice)
    else None
  }

  /**
   * On a failure, the process panics at that step and no resource has been
   * stored; otherwise all eight resources are stored together: the window
   * built from the configuration, a surface bound to it, the surface
   * configuration at the window's inner size, and one pipeline for the
   * device and the configured format.
   */
  method InitializeRendering<S>(gamma: Gamma<S>, platform: Platform) returns (outcome: InitOutcome)
    modifies gamma`window, gamma`instance, gamma`surface, gamma`device, gamma`queue,
             gamma`adapter, gamma`surfaceConfig, gamma`texturePipeline
    ensures outcome.Failed? <==> FirstFailure(platform).Some?
    ensures outcome.Failed? ==> outcome.step == FirstFailure(platform).value && gamma.Handles() == old(gamma.Handles())
    ensures outcome.Initialized? ==>
      var w := platform.window.value;
      var (d, q) := platform.deviceAndQueue.value;
      var config := SurfaceConfigFor(w.innerSize, gamma.vsync);
      gamma.Handles().AllPresent() &&
      gamma.window == Some(Window(w.id, WindowAttributesFor(gamma.title, gamma.logicalSize, gamma.resizable, gamma.fullscreen), w.innerSize)) &&
      gamma.instance == Some(Instance(platform.instance)) &&
      gamma.surface == Some(Surface(platform.surface.value, w.id)) &&
      gamma.adapter == Some(Adapter(platform.adapter.value)) &&
      gamma.device == Some(Device(d)) && gamma.queue == Some(Queue(q)) &&
      gamma.surfaceConfig == Some(config) &&
      gamma.texturePipeline == Some(TexturePipeline(Device(d), config.format))
  {
    var attributes := WindowAttributesFor(gamma.title, gamma.logicalSize, gamma.resizable, gamma.fullscreen);
    if platform.window.None? {
      return Failed(CreateWindow);
    }
    var window := Window(platform.window.value.id, attributes, platform.window.value.innerSize);
    var size := window.innerSize;

    var instance := Instance(platform.instance);
    if platform.surface.None? {
      return Failed(CreateSurface);
    }
    var surface := Surface(platform.surface.value, window.id);

    if platform.adapter.None? {
      return Failed(RequestAdapter);
    }
    var adapter := Adapter(platform.adapter.value);

    if platform.deviceAndQueue.None? {
      return Failed(RequestDevice);
    }
    var device := Device(platform.deviceAndQueue.value.0);
    var queue := Queue(platform.deviceAndQueue.value.1);

    var config := SurfaceConfigFor(size, gamma.vsync);
    var texturePipeline := TexturePipeline(device, config.format);

    gamma.window := Some(window);
    gamma.instance := Some(instance);
    gamma.surface := Some(surface);
    gamma.device := Some(device);
    gamma.queue := Some(queue);
    gamma.adapter := Some(adapter);
    gamma.surfaceConfig := Some(config);
    gamma.texturePipeline := Some(texturePipeline);
    return Initialized;
  }
}
