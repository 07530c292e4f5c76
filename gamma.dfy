/**
 * The engine context handed to every lifecycle callback: configuration,
 * callbacks, the window and GPU resources, the current frame, timing and
 * keyboard state. Its render primitives and queries are methods and
 * functions of the class.
 */
module Engine {
  import opened Wrappers
  import opened Types
  import opened Frames
  import Input
  import opened Render

  /** What a callback can observe of the engine: keyboard state and the last tick's delta. */
  datatype Snapshot = Snapshot(keys: Input.Keys, delta: nat)

  /** What a callback produces: the new user state and the render calls it made, in order. */
  datatype Effects<S> = Effects(state: S, calls: seq<Call>)

  type InitFn<S> = Snapshot -> Effects<S>
  type TickFn<!S> = (Snapshot, S) -> Effects<S>

  /** The eight optional window and GPU resources. */
  datatype Resources = Resources(
    window: Option<Window>,
    instance: Option<Instance>,
    surface: Option<Surface>,
    surfaceConfig: Option<SurfaceConfiguration>,
    device: Option<Device>,
    queue: Option<Queue>,
    adapter: Option<Adapter>,
    texturePipeline: Option<TexturePipeline>)
  {
    predicate AllPresent() {
      window.Some? && instance.Some? && surface.Some? && surfaceConfig.Some? &&
      device.Some? && queue.Some? && adapter.Some? && texturePipeline.Some?
    }

    predicate AllAbsent() {
      window.None? && instance.None? && surface.None? && surfaceConfig.None? &&
      device.None? && queue.None? && adapter.None? && texturePipeline.None?
    }
  }

  const NoResources: Resources := Resources(None, None, None, None, None, None, None, None)

  class Gamma<S> {
    // Timing
    var lastFrameTime: nat
    var delta: nat

    // The frame being composed this tick
    var currentFrame: Option<Frame>

    // Lifecycle callbacks
    var drawFn: TickFn<S>
    var updateFn: TickFn<S>
    var initFn: Option<InitFn<S>>

    // Configuration
    var title: string
    var logicalSize: LogicalSize
    var resizable: bool
    var vsync: bool
    var fullscreen: bool
    var closeOnEscape: bool

    // Rendering resources
    var window: Option<Window>
    var instance: Option<Instance>
    var surface: Option<Surface>
    var surfaceConfig: Option<SurfaceConfiguration>
    var device: Option<Device>
    var queue: Option<Queue>
    var adapter: Option<Adapter>
    var texturePipeline: Option<TexturePipeline>

    // Keyboard state
    var pressedKeys: set<KeyCode>
    var justPressedKeys: set<KeyCode>
    var justReleasedKeys: set<KeyCode>

    // What the queue and the surface have been handed, in order
    ghost var submitted: seq<Pass>
    ghost var presented: seq<SurfaceTexture>

    /** A context with no resources, no frame, no keys held and no delta yet. */
    constructor (drawFn: TickFn<S>, updateFn: TickFn<S>, initFn: Option<InitFn<S>>, title: string,
                 logicalSize: LogicalSize, resizable: bool, vsync: bool, fullscreen: bool, now: nat)
      ensures this.drawFn == drawFn && this.updateFn == updateFn && this.initFn == initFn
      ensures this.title == title && this.logicalSize == logicalSize
      ensures this.resizable == resizable && this.vsync == vsync && this.fullscreen == fullscreen
      ensures !closeOnEscape
      ensures lastFrameTime == now && delta == 0
      ensures Handles() == NoResources && currentFrame.None?
      ensures Keys() == Input.NoKeys
      ensures submitted == [] && presented == []
      ensures Valid()
    {
      this.drawFn, this.updateFn, this.initFn := drawFn, updateFn, initFn;
      this.title, this.logicalSize := title, logicalSize;
      this.resizable, this.vsync, this.fullscreen := resizable, vsync, fullscreen;
      closeOnEscape := false;
      lastFrameTime, delta := now, 0;
      currentFrame := None;
      window, instance, surface, surfaceConfig := None, None, None, None;
      device, queue, adapter, texturePipeline := None, None, None, None;
      pressedKeys, justPressedKeys, justReleasedKeys := {}, {}, {};
      submitted, presented := [], [];
    }

    function Handles(): Resources
      reads this
    {
      Resources(window, instance, surface, surfaceConfig, device, queue, adapter, texturePipeline)
    }

    /** No partial initialisation: the resources are all present or all absent. */
    ghost predicate Valid()
      reads this
    {
      Handles().AllPresent() || Handles().AllAbsent()
    }

    function Keys(): Input.Keys
      reads this
    {
      Input.Keys(pressedKeys, justPressedKeys, justReleasedKeys)
    }

    function Observe(): Snapshot
      reads this
    {
      Snapshot(Keys(), delta)
    }

    /** What a render primitive reads from the context. */
    function GpuState(): Gpu
      reads this
    {
      Gpu(surface.Some? && device.Some? && queue.Some?,
          if window.Some? then window.value.innerSize else PhysicalSize(0, 0),
          if surfaceConfig.Some? then surfaceConfig.value.format else Bgra8UnormSrgb)
    }

    ghost function RenderState(): Target
      reads this
    {
      Target(currentFrame, submitted)
    }

    /** `is_key_pressed`: a read-only membership query on the held keys. */
    function IsKeyPressed(key: KeyCode): (held: bool)
      reads this
      ensures held <==> key in Keys().pressed
    {
      key in pressedKeys
    }

    /**
     * `load_texture_from_bytes`: the device is checked first, then the queue,
     * both before the decoder is consulted; a decoded image becomes a texture
     * of the image's own dimensions on this context's device.
     */
    function LoadTextureFromBytes(bytes: seq<u8>, decode: seq<u8> -> Result<Image, string>): (r: Result<Texture, string>)
      reads this
      ensures device.None? ==> r == Err("Device not initialized")
      ensures device.Some? && queue.None? ==> r == Err("Queue not initialized")
      ensures device.Some? && queue.Some? && decode(bytes).Err? ==>
        r == Err("Failed to decode image: " + decode(bytes).error)
      ensures r.Ok? <==> device.Some? && queue.Some? && decode(bytes).Ok?
      ensures r.Ok? ==>
        r.value.device == device.value && r.value.image == decode(bytes).value &&
        r.value.width == decode(bytes).value.width && r.value.height == decode(bytes).value.height
    {
      if device.None? then Err("Device not initialized")
      else if queue.None? then Err("Queue not initialized")
      else
        match decode(bytes)
        case Err(e) => Err("Failed to decode image: " + e)
        case Ok(img) => Ok(Texture(device.value, img, img.width, img.height))
    }

    /**
     * `clear_screen`. `acquired` is what the surface would hand out if asked
     * for an image (None when acquisition fails); it is consulted only when
     * there is no current frame.
     */
    method ClearScreen(r: u8, g: u8, b: u8, acquired: Option<SurfaceTexture>)
      modifies this`currentFrame, this`submitted
      ensures RenderState() == Clear(old(RenderState()), GpuState(), Rgb(r, g, b), acquired)
    {
      if !(surface.Some? && device.Some? && queue.Some?) {
        return;
      }
      if currentFrame.None? {
        if acquired.None? {
          return;
        }
        currentFrame := Some(NewFrame(acquired.value));
      }
      var frame := currentFrame.value;
      if !frame.cleared {
        submitted := submitted + [ClearPass(frame.view, Rgb(r, g, b))];
        currentFrame := Some(frame.(cleared := true));
      }
    }

    /**
     * `draw_texture_scaled`. The window and surface configuration it reads
     * are present whenever surface, device and queue are, by `Valid`.
     */
    method DrawTextureScaled(texture: Texture, x: real, y: real, width: real, height: real, acquired: Option<SurfaceTexture>)
      requires Valid()
      modifies this`currentFrame, this`submitted
      ensures RenderState() == DrawScaled(old(RenderState()), GpuState(), texture, Rect(x, y, width, height), acquired)
    {
      if !(surface.Some? && device.Some? && queue.Some?) {
        return;
      }
      if currentFrame.None? {
        if acquired.None? {
          return;
        }
        currentFrame := Some(NewFrame(acquired.value));
      }
      var frame := currentFrame.value;
      assert window.Some? && surfaceConfig.Some?;
      var viewport := window.value.innerSize;
      var format := surfaceConfig.value.format;
      submitted := submitted + [TexturePass(frame.view, texture, Rect(x, y, width, height), viewport, format, QuadIndices())];
    }

    /** `draw_texture`: draws at the texture's own width and height. */
    method DrawTexture(texture: Texture, x: real, y: real, acquired: Option<SurfaceTexture>)
      requires Valid()
      modifies this`currentFrame, this`submitted
      ensures RenderState() == DrawScaled(old(RenderState()), GpuState(), texture, NaturalRect(texture, x, y), acquired)
    {
      DrawTextureScaled(texture, x, y, texture.width as real, texture.height as real, acquired);
    }

    /**
     * Carries out the render calls a callback made, in order; call i asks the
     * surface, if it needs to, for `surface(offset + i)`.
     */
    method Perform(calls: seq<Call>, surface: nat -> Option<SurfaceTexture>, offset: nat)
      requires Valid()
      modifies this`currentFrame, this`submitted
      ensures RenderState() == RunCalls(old(RenderState()), GpuState(), calls, surface, offset)
    {
      var i := 0;
      while i < |calls|
        invariant 0 <= i <= |calls|
        invariant RenderState() == RunCalls(old(RenderState()), GpuState(), calls[..i], surface, offset)
      {
        assert calls[..i + 1][..i] == calls[..i];
        var c := calls[i];
        match c {
          case ClearScreen(r, g, b) => ClearScreen(r, g, b, surface(offset + i));
          case DrawTexture(texture, x, y) => DrawTexture(texture, x, y, surface(offset + i));
          case DrawTextureScaled(texture, x, y, w, h) => DrawTextureScaled(texture, x, y, w, h, surface(offset + i));
        }
        i := i + 1;
      }
      assert calls[..i] == calls;
    }
  }
}
