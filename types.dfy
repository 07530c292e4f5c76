/**
 * Fixed-width integers, key codes and the opaque handles that the windowing
 * and GPU libraries hand to the runtime. Handles carry only what the runtime
 * itself reads back from them (a window's attributes and inner size, the
 * device a pipeline was built for); everything else is an identity.
 */
module Types {
  import opened Wrappers

  newtype u8 = x: int | 0 <= x < 0x100
  newtype u16 = x: int | 0 <= x < 0x1_0000
  newtype u32 = x: int | 0 <= x < 0x1_0000_0000

  /** A physical key code; only Escape is singled out by the runtime. */
  datatype KeyCode = Escape | Other(code: nat)

  /** A key event names a key code, or a key the platform could not identify. */
  datatype PhysicalKey = Code(code: KeyCode) | Unidentified

  /** Window size in logical units (the source keeps these as f64). */
  datatype LogicalSize = LogicalSize(width: real, height: real)

  /** Window size in physical pixels. */
  datatype PhysicalSize = PhysicalSize(width: u32, height: u32)

  datatype Fullscreen = Borderless

  /** What the runtime asks the windowing system for. */
  datatype WindowAttributes = WindowAttributes(
    title: string,
    innerSize: LogicalSize,
    resizable: bool,
    fullscreen: Option<Fullscreen>)

  /** A created window: the attributes it was created with and its inner size in pixels. */
  datatype Window = Window(id: nat, attributes: WindowAttributes, innerSize: PhysicalSize)

  datatype Instance = Instance(id: nat)
  /** A surface is bound to the window it was created from. */
  datatype Surface = Surface(id: nat, window: nat)
  datatype Adapter = Adapter(id: nat)
  datatype Device = Device(id: nat)
  datatype Queue = Queue(id: nat)

  datatype TextureFormat = Bgra8UnormSrgb | Rgba8UnormSrgb
  datatype PresentMode = AutoVsync | AutoNoVsync

  datatype SurfaceConfiguration = SurfaceConfiguration(
    format: TextureFormat,
    viewFormats: seq<TextureFormat>,
    maximumFrameLatency: nat,
    width: u32,
    height: u32,
    presentMode: PresentMode)

  /** The cached textured-quad pipeline, built for one device and one target format. */
  datatype TexturePipeline = TexturePipeline(device: Device, format: TextureFormat)

  /** A swap-chain image handed out by the surface for one frame. */
  datatype SurfaceTexture = SurfaceTexture(id: nat)
}
