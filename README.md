# Gamma frame and lifecycle model

A Dafny model of the frame and lifecycle coordination layer of the Gamma game
runtime (Rust, winit + wgpu). It covers:

- the runtime's reaction to the windowing system's signals (`resumed`, close
  request, redraw request, keyboard input) and `shutdown`;
- the lazily acquired frame, cleared at most once, drawn into by any number of
  draw calls and presented once at the end of a tick;
- GPU-context initialisation, with every fallible step before the eight
  resources are stored together;
- the launch builder and the all-absent initial state built by `run`;
- the held / just-pressed / just-released key sets and `is_key_pressed`.

Layout, one module per source file or component:

| file | module | source |
|---|---|---|
| `wrappers.dfy` | `Wrappers` | `Option`, `Result` |
| `types.dfy` | `Types` | fixed-width integers, key codes, window and GPU handles as opaque tokens |
| `input.dfy` | `Input` | key-edge detection (`src/engine/runtime.rs`) as functions on a `Keys` value, with lemmas over event sequences |
| `frame.dfy` | `Frames` | `src/rendering/frame.rs` |
| `render.dfy` | `Render` | the effect of `clear_screen` and `draw_texture(_scaled)` on the frame and the log of submitted passes, with the one-frame-per-tick lemmas |
| `gamma.dfy` | `Engine` | the `Gamma` context as a class: `is_key_pressed`, `load_texture_from_bytes`, `clear_screen`, `draw_texture(_scaled)` |
| `context.dfy` | `Context` | `src/rendering/context.rs` |
| `runtime.dfy` | `Runtime` | `GammaRuntime` as a class: `shutdown` and the event handlers |
| `builder.dfy` | `Builder` | `src/builder.rs` |

How the outside world enters the model:

- Window, instance, surface, adapter, device, queue, surface textures: opaque
  tokens. The results of the foreign calls in `initialize_rendering` are a
  `Platform` value; a `None` there is the failure on which the source panics.
- Surface-image acquisition: the caller passes what the surface would hand
  out (`Option<SurfaceTexture>`). Inside a tick this is an oracle
  `surface: nat -> Option<SurfaceTexture>` indexed by the position of the
  render call within the tick.
- The clock: plain `nat` readings. The redraw handler reads the clock twice,
  as `runtime.rs:56-57` does: the first reading gives `delta`, the second
  becomes `last_frame_time`.
- User callbacks: total functions. `init` maps a `Snapshot` (keys and delta)
  to `Effects` (new user state plus the render calls it made, in order).
  `update` and `draw` map a snapshot and the user state to `Effects`. The
  runtime carries out the calls through the context's own methods.
- Submitted command buffers and presented images: ghost logs `submitted` and
  `presented` on the context. They make "one clear pass", "N draw passes in
  call order" and "one present per tick" statable.
- Panics (`unwrap`, `expect`): a `Panicked` outcome of the handler.

In these places the model follows the code as written:

- `shutdown` leaves `current_frame` and the key sets as they are
  (`runtime.rs:19-31`).
- An Escape that shuts down is still recorded as pressed (`runtime.rs:85-100`).
- The edge sets are emptied before the frame is presented, not after
  (`runtime.rs:71-76`). Nothing observes the difference, so both happen in one
  step of the model.
- A failure to create the event loop panics (`builder.rs:119`); it is not
  returned as an error.
- `draw_texture_scaled` does not use the cached `texture_pipeline`; it builds
  its own pipeline per call (`texture.rs:181-275`). The model treats a draw as
  one opaque pass and does not model either pipeline use.
- `builder.rs` builds its `Gamma` without `close_on_escape`, the key
  sets or `delta`. The model starts them as `false`, empty and `0`. The
  setter that would turn `close_on_escape` on is not part of this model; the
  handlers are proved for either value of the flag.

The specification functions below have no contract of their own. Their
meaning is stated by the lemmas and method contracts in the table that
follows:

- `Render.Clear` models `clear_screen` (`src/rendering/clear.rs:5-58`).
- `Render.DrawScaled` models `draw_texture_scaled`
  (`src/rendering/texture.rs:103-306`).
- `Render.AcquireFrame` models the lazy frame creation the two share
  (`src/rendering/clear.rs:14-24`, `src/rendering/texture.rs:113-122`).
- `Render.RunCalls` models the render calls of one user callback, in order
  (`src/engine/runtime.rs:65-68`).
- `Input.Press` and `Input.Release` model the key handler's set updates
  (`src/engine/runtime.rs:92-95` and `96-99`).
- `Input.EndTick` models the edge reset at the end of a redraw
  (`src/engine/runtime.rs:71-72`).
- `Context.FirstFailure` models the order of the `unwrap`s in `initialize_rendering`
  (`src/rendering/context.rs:20-36`).

## Model

| member | source | states |
|---|---|---|
| `Input.HeldIffLastEventWasPress` | src/engine/runtime.rs:92-100 | after any sequence of key events, a key is held iff the latest event for it was a press, or, with no event for it, iff it was held before |
| `Input.EdgesAreTransitions` | src/engine/runtime.rs:92-100 | a key enters just-pressed iff some event pressed it while not held, and just-released iff some event released it while held (or it was already there) |
| `Input.EdgesOnlyFromCurrentTick` | src/engine/runtime.rs:71-100 | after the tick-end reset, a key is reported just pressed / just released only if an event of the new tick made that transition |
| `Input.RedundantEventsChangeNothing` | src/engine/runtime.rs:92-100 | a press of a held key and a release of a key not held change nothing |
| `Input.EdgesAreIdempotent` | src/engine/runtime.rs:92-100 | pressing (releasing) a key twice has the effect of doing it once |
| `Input.EdgeOnlyOnTransition` | src/engine/runtime.rs:92-100 | after a press the key is held, after a release it is not; a new edge is recorded exactly when the held state changes |
| `Input.EndTickKeepsHeld` | src/engine/runtime.rs:71-72 | the tick-end reset empties both edge sets and keeps the held keys |
| `Frames.NewFrame` | src/rendering/frame.rs:10-20 | a new frame is total over an acquired image, keeps the image, holds a view derived from it, and starts uncleared |
| `Render.QuadIndices` | src/rendering/texture.rs:165 | six indices, all below the four vertices, every vertex used, two triangles of distinct vertices meeting on the diagonal 1-2 |
| `Render.ClearScreenCases` | src/rendering/clear.rs:5-58 | no surface/device/queue: no change; no frame and failed acquisition: no change; success creates the frame; an uncleared frame gets exactly one clear pass and becomes cleared; a cleared frame is left alone whatever the colour |
| `Render.ClearIsIdempotent` | src/rendering/clear.rs:14-58 | once a clear has a frame to work on, a second clear with any colour changes nothing; the frame keeps the first colour |
| `Render.DrawTextureCases` | src/rendering/texture.rs:103-306 | no surface/device/queue, or no frame and failed acquisition: no change; otherwise the frame is reused or created, exactly one loading pass targeting it is appended, and the frame, cleared flag included, is not touched |
| `Render.DrawTextureIsNaturalSize` | src/rendering/texture.rs:90-92 | `draw_texture` is `draw_texture_scaled` at the texture's width and height |
| `Render.DrawsInCallOrder` | src/rendering/texture.rs:288-306 | N draws onto a frame append exactly N passes, the i-th from the i-th call, and leave the frame and its cleared flag unchanged |
| `Render.DrawsOntoNewFrame` | src/rendering/texture.rs:113-306 | in a tick that starts without a frame, with surface, device and queue present and the first acquisition successful, N draws create the frame over that image and append exactly N passes targeting it, the i-th from the i-th call, leaving the frame uncleared |
| `Render.FrameIsKept` | src/rendering/texture.rs:113-122 | once a frame exists, later calls in the tick reuse it: same image, same view |
| `Render.AtMostOneClearPerTick` | src/rendering/clear.rs:14-58 | from no frame, all passes of a run of calls target one frame and at most one is a clear; without a frame nothing was submitted |
| `Render.FrameIffSomeAcquisition` | src/rendering/clear.rs:14-24 | from no frame, a run of calls ends with a frame iff surface, device and queue are present and some call's acquisition succeeded |
| `Engine.Gamma.IsKeyPressed` | src/engine/input.rs:6-8 | a read-only query: true iff the key is in the held set |
| `Engine.Gamma.LoadTextureFromBytes` | src/rendering/texture.rs:25-87 | "Device not initialized" first, then "Queue not initialized", both before decoding; a decode error is reported with its message; success gives a texture on this device with the image's width and height |
| `Engine.Gamma.ClearScreen` | src/rendering/clear.rs:4-60 | changes only the frame and the submission log, exactly as `Render.Clear` describes |
| `Engine.Gamma.DrawTextureScaled` | src/rendering/texture.rs:95-307 | changes only the frame and the submission log, exactly as `Render.DrawScaled` describes; the window read at line 127 is present by the all-or-nothing invariant |
| `Engine.Gamma.DrawTexture` | src/rendering/texture.rs:90-92 | draws at the texture's own size |
| `Engine.Gamma.Perform` | src/engine/runtime.rs:65-68 | the render calls a callback makes are carried out in order, with effect `Render.RunCalls` |
| `Engine.Gamma.constructor` | src/builder.rs:95-117 | the context starts with all eight resources absent, no frame, no keys, zero delta and the given configuration |
| `Context.PresentModeFor` | src/rendering/context.rs:38-42 | `AutoVsync` iff vsync, `AutoNoVsync` iff not |
| `Context.WindowAttributesFor` | src/rendering/context.rs:9-19 | title, logical size and resizable come from the configuration; borderless fullscreen iff configured |
| `Context.SurfaceConfigFor` | src/rendering/context.rs:44-53 | the surface is configured at the window's inner size, in `Bgra8UnormSrgb`, with the vsync-selected present mode and frame latency 2 |
| `Context.InitializeRendering` | src/rendering/context.rs:8-66 | the first failing foreign call (window, surface, adapter, device, in that order) panics with no resource stored; otherwise all eight are stored together, the pipeline built once for the device and configured format |
| `Runtime.Elapsed` | src/engine/runtime.rs:56 | the delta is the clock difference, never negative |
| `Runtime.Presents` | src/engine/runtime.rs:74-76 | one present when a frame exists, none otherwise |
| `Runtime.TickComposesOneFrame` | src/engine/runtime.rs:65-76 | a tick starting without a frame presents exactly one frame iff some acquisition of the tick succeeded; all its passes target that frame; at most one is a clear; no frame means no submission |
| `Runtime.GammaRuntime.Shutdown` | src/engine/runtime.rs:19-31 | all eight resources and the user state become absent and exit is requested; frame and keys untouched |
| `Runtime.GammaRuntime.OnResumed` | src/engine/runtime.rs:35-48 | with a window present: no change; otherwise initialise (or panic with nothing stored), panic on a missing init callback, else run init once on the context and store its state, then request a redraw |
| `Runtime.GammaRuntime.OnCloseRequested` | src/engine/runtime.rs:52-54 | a close request is a shutdown |
| `Runtime.GammaRuntime.OnRedrawRequested` | src/engine/runtime.rs:55-82 | delta then timing reference; update then draw on the same snapshot, draw on update's state; edges emptied, held keys kept; the frame presented once and dropped; panics without a user state |
| `Runtime.GammaRuntime.UpdateThenDraw` | src/engine/runtime.rs:59-68 | update runs to completion before draw, which sees update's state; their render calls run in that order |
| `Runtime.GammaRuntime.EndTick` | src/engine/runtime.rs:71-76 | edges emptied, then the frame taken, presented once and dropped |
| `Runtime.GammaRuntime.OnKeyboardInput` | src/engine/runtime.rs:83-101 | unidentified keys are ignored; Escape with close-on-escape shuts down and is still recorded; press/release follow `Input.Press`/`Input.Release`; afterwards `is_key_pressed` is true after a press and false after a release |
| `Runtime.GammaRuntime.constructor` | src/builder.rs:124-127 | the runtime starts with no user state |
| `Builder.Default` | src/builder.rs:28-43 | no callbacks, title or size; resizable and vsync on; windowed |
| `Builder.GammaBuilder.WithTitle` | src/builder.rs:47-50 | sets the title and nothing else |
| `Builder.GammaBuilder.WithSize` | src/builder.rs:52-55 | sets the logical size, exactly the given whole units, and nothing else |
| `Builder.GammaBuilder.WithResizable` | src/builder.rs:57-60 | sets the resizable flag and nothing else |
| `Builder.GammaBuilder.WithVsync` | src/builder.rs:62-65 | sets the vsync flag and nothing else |
| `Builder.GammaBuilder.WithFullscreen` | src/builder.rs:67-70 | sets the fullscreen flag and nothing else |
| `Builder.GammaBuilder.OnInit` | src/builder.rs:72-75 | sets the init callback and nothing else |
| `Builder.GammaBuilder.OnDraw` | src/builder.rs:77-80 | sets the draw callback and nothing else |
| `Builder.GammaBuilder.OnUpdate` | src/builder.rs:82-85 | sets the update callback and nothing else |
| `Builder.LastWriteWins` | src/builder.rs:47-70 | a second call of a setter replaces the first |
| `Builder.NoOpKeepsState` | src/builder.rs:98-99 | the stand-in callback keeps the state and makes no render call |
| `Builder.CallbackOrNoOp` | src/builder.rs:98-99 | a missing draw or update callback becomes the no-op callback |
| `Builder.TitleOrDefault` | src/builder.rs:101 | a missing title becomes "Gamma Game" |
| `Builder.SizeOrDefault` | src/builder.rs:102-105 | a missing size becomes 800 x 600 |
| `Builder.Run` | src/builder.rs:87-127 | no init callback: exit with -1 before anything is built; event-loop failure panics; otherwise a fresh runtime with every resource, the frame and the user state absent, and the configuration with its defaults |

## Left out

- The winit event loop: `run_app`, the delivery of `request_redraw`, and the
  events the runtime ignores (`_ => ()`). Handlers return the requests they
  make (`RequestRedraw`, `Exit`) instead.
- wgpu calls: command encoders, render-pass descriptors, `queue.submit`,
  `surface.configure` and `present()`. Each submission is one entry of the
  ghost `submitted` log; each present is one entry of `presented`.
- Floating point: the pixel-to-NDC conversion and vertex positions
  (`texture.rs:128-163`) and the u8-to-[0,1] colour conversion
  (`clear.rs:41-45`). A pass records the pixel rectangle, the viewport size
  and the 8-bit colour.
- The window's live inner size. The model fixes it when the window is created
  (`Types.Window.innerSize`), and every texture pass records that size.
  `texture.rs:127` asks the window for its current size on each draw. The
  window is resizable by default (`builder.rs:39`) and the runtime ignores
  resize events (`runtime.rs:103`). After a resize, the source's passes
  record the new size, while the model's passes keep the size from creation.
  In both, the surface configuration keeps the creation size
  (`context.rs:49-50`).
- Engine.Gamma.DrawTexture: widths and heights are exact reals. The source's
  `u32 as f32` cast rounds above 2^24 and is not modelled.
- The per-call shader, bind-group and pipeline construction and the vertex and
  index buffers of `draw_texture_scaled` (`texture.rs:168-275`). The index
  list itself is modelled.
- Image decoding, `load_texture` from a file path, the texture upload and the
  sampler. The decoder is a function parameter.
- Audio (`src/audio/sound.rs`).
- `delta_time` (`src/engine/time.rs`) as a separate getter. The delta is part
  of the `Snapshot` a callback receives.
- Callbacks' use of `load_texture_from_bytes`: a callback is a function of a
  snapshot, so it cannot feed a loaded texture back into its own state.
- Engine.Gamma.DrawTextureScaled: requires the all-or-nothing invariant
  (`Valid`). A state that breaks it would panic at the window unwrap
  (`texture.rs:127`), and the model does not represent that state.
- What happens after a panic. The model returns `Panicked` and makes no
  further claim about the state.
- Logging (`eprintln!`) on a failed acquisition and before the exit.
- The order in which Rust drops the released resources.
