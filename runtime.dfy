/**
 * The runtime's reaction to the signals of the windowing system: resume,
 * close request, redraw request and keyboard input.
 */
module Runtime {
  import opened Wrappers
  import opened Types
  import opened Frames
  import Input
  import opened Render
  import opened Engine
  import opened Context

  /** What a handler asks of the event loop. */
  datatype LoopRequest = RequestRedraw | Exit

  datatype PanicReason =
    | InitFailed(step: InitStep)  // a foreign call of `initialize_rendering` failed
    | MissingInit                 // `init_fn` unwrapped while absent
    | MissingState                // "state not found when expected"

  /** A handler returns normally with its loop requests, or panics. */
  datatype Handled = Continue(requests: seq<LoopRequest>) | Panicked(reason: PanicReason)

  /** Duration between two readings of the monotonic clock; an earlier `now` saturates to zero. */
  function Elapsed(earlier: nat, now: nat): (d: nat)
    ensures earlier <= now ==> earlier + d == now
    ensures now < earlier ==> d == 0
  {
    if earlier <= now then now - earlier else 0
  }

  /** The images handed back to the surface when a frame is taken: one per frame, none without one. */
  function Presents(frame: Option<Frame>): (images: seq<SurfaceTexture>)
    ensures |images| <= 1
    ensures |images| == 1 <==> frame.Some?
    ensures frame.Some? ==> images == [frame.value.texture]
  {
    if frame.Some? then [frame.value.texture] else []
  }

  /**
   * One tick's render work, `update`'s calls then `draw`'s, starting without
   * a frame: the tick has one frame to present exactly when surface, device
   * and queue are present and some call's acquisition succeeded; every pass
   * of the tick targets that frame and at most one of them is a clear; a
   * tick without a frame submits nothing.
   */
  lemma TickComposesOneFrame(t: Target, gpu: Gpu, updateCalls: seq<Call>, drawCalls: seq<Call>,
                             surface: nat -> Option<SurfaceTexture>)
    requires t.frame.None?
    ensures
      var afterUpdate := RunCalls(t, gpu, updateCalls, surface, 0);
      var afterDraw := RunCalls(afterUpdate, gpu, drawCalls, surface, |updateCalls|);
      (|Presents(afterDraw.frame)| == 1 <==>
        gpu.ready && exists j :: 0 <= j < |updateCalls| + |drawCalls| && surface(j).Some?) &&
      |t.passes| <= |afterDraw.passes| &&
      ClearCount(afterDraw.passes[|t.passes|..]) <= 1 &&
      (afterDraw.frame.Some? ==>
        forall i :: |t.passes| <= i < |afterDraw.passes| ==> afterDraw.passes[i].target == afterDraw.frame.value.view) &&
      (afterDraw.frame.None? ==> afterDraw.passes == t.passes)
  {
    var afterUpdate := RunCalls(t, gpu, updateCalls, surface, 0);
    var afterDraw := RunCalls(afterUpdate, gpu, drawCalls, surface, |updateCalls|);
    RunKeepsFrameDiscipline(t, |t.passes|, gpu, updateCalls, surface, 0);
    RunKeepsFrameDiscipline(afterUpdate, |t.passes|, gpu, drawCalls, surface, |updateCalls|);
    RunOnlyAppends(t, gpu, updateCalls, surface, 0);
    RunOnlyAppends(afterUpdate, gpu, drawCalls, surface, |updateCalls|);
    FrameIffSomeAcquisition(t, gpu, updateCalls, surface, 0);
    if afterUpdate.frame.Some? {
      FrameIsKept(afterUpdate, gpu, drawCalls, surface, |updateCalls|);
    } else {
      FrameIffSomeAcquisition(afterUpdate, gpu, drawCalls, surface, |updateCalls|);
    }
  }

  class GammaRuntime<S> {
    var context: Gamma<S>
    var state: Option<S>

    constructor (context: Gamma<S>)
      ensures this.context == context && state.None?
    {
      this.context := context;
      state := None;
    }

    /** Resources all present or all absent, and a user state exactly while they are present. */
    ghost predicate Valid()
      reads this, context
    {
      context.Valid() && (state.Some? <==> context.window.Some?)
    }

    /**
     * `shutdown`: drops the eight resources and the user state and asks the
     * loop to exit; the current frame and the keyboard state are left as they are.
     */
    method Shutdown() returns (requests: seq<LoopRequest>)
      modifies this`state, context`surface, context`device, context`queue, context`adapter,
               context`instance, context`surfaceConfig, context`window, context`texturePipeline
      ensures context.Handles() == NoResources && state.None?
      ensures requests == [Exit]
      ensures Valid()
    {
      context.surface := None;
      context.device := None;
      context.queue := None;
      context.adapter := None;
      context.instance := None;
      context.surfaceConfig := None;
      context.window := None;
      context.texturePipeline := None;
      state := None;
      requests := [Exit];
    }

    /**
     * `resumed`. With a window already present nothing happens, so a repeated
     * resume never re-initialises or re-runs `init`. Otherwise rendering is
     * initialised, then `init` runs once on the context, its render calls
     * are carried out, and its result becomes the user state.
     */
    method OnResumed(platform: Platform, surface: nat -> Option<SurfaceTexture>) returns (h: Handled)
      requires Valid()
      modifies this`state, context`window, context`instance, context`surface, context`device, context`queue,
               context`adapter, context`surfaceConfig, context`texturePipeline,
               context`currentFrame, context`submitted
      ensures old(context.window).Some? ==>
        h == Continue([]) && state == old(state) &&
        context.Handles() == old(context.Handles()) && context.RenderState() == old(context.RenderState())
      ensures old(context.window).None? && FirstFailure(platform).Some? ==>
        h == Panicked(InitFailed(FirstFailure(platform).value)) && state == old(state) &&
        context.Handles() == old(context.Handles()) && context.RenderState() == old(context.RenderState())
      ensures old(context.window).None? && FirstFailure(platform).None? && context.initFn.None? ==>
        h == Panicked(MissingInit) && state == old(state) &&
        context.Handles().AllPresent() && context.RenderState() == old(context.RenderState())
      ensures old(context.window).None? && FirstFailure(platform).None? && context.initFn.Some? ==>
        var effects := context.initFn.value(old(context.Observe()));
        context.Handles().AllPresent() &&
        state == Some(effects.state) &&
        context.RenderState() == RunCalls(old(context.RenderState()), context.GpuState(), effects.calls, surface, 0) &&
        h == Continue([RequestRedraw])
      ensures h.Continue? ==> Valid()
    {
      if context.window.Some? {
        return Continue([]);
      }
      var outcome := InitializeRendering(context, platform);
      if outcome.Failed? {
        return Panicked(InitFailed(outcome.step));
      }
      if context.initFn.None? {
        return Panicked(MissingInit);
      }
      var init := context.initFn.value;
      var effects := init(context.Observe());
      context.Perform(effects.calls, surface, 0);
      state := Some(effects.state);
      h := Continue(if context.window.Some? then [RequestRedraw] else []);
    }

    /** A close request shuts down. */
    method OnCloseRequested() returns (h: Handled)
      modifies this`state, context`surface, context`device, context`queue, context`adapter,
               context`instance, context`surfaceConfig, context`window, context`texturePipeline
      ensures context.Handles() == NoResources && state.None?
      ensures h == Continue([Exit])
      ensures Valid()
    {
      var requests := Shutdown();
      h := Continue(requests);
    }

    /**
     * A redraw request is one tick: the delta is taken from the first clock
     * reading and the second becomes the new reference; `update` and then
     * `draw` run on the same observation, `draw` on the state `update`
     * produced; the edge sets are emptied while held keys stay; the frame, if
     * one was created, is presented once and dropped; the next redraw is
     * requested while a window exists. Without a user state it panics after
     * the timing update.
     */
    method OnRedrawRequested(now: nat, later: nat, surface: nat -> Option<SurfaceTexture>) returns (h: Handled)
      requires Valid()
      modifies this`state, context`delta, context`lastFrameTime, context`currentFrame, context`submitted,
               context`presented, context`justPressedKeys, context`justReleasedKeys
      ensures context.delta == Elapsed(old(context.lastFrameTime), now) && context.lastFrameTime == later
      ensures context.pressedKeys == old(context.pressedKeys)
      ensures old(state).None? ==>
        h == Panicked(MissingState) && state.None? &&
        context.Keys() == old(context.Keys()) && context.RenderState() == old(context.RenderState()) &&
        context.presented == old(context.presented)
      ensures old(state).Some? ==>
        var view := Snapshot(old(context.Keys()), context.delta);
        var updated := context.updateFn(view, old(state).value);
        var drawn := context.drawFn(view, updated.state);
        var afterUpdate := RunCalls(old(context.RenderState()), context.GpuState(), updated.calls, surface, 0);
        var afterDraw := RunCalls(afterUpdate, context.GpuState(), drawn.calls, surface, |updated.calls|);
        state == Some(drawn.state) &&
        context.submitted == afterDraw.passes &&
        context.presented == old(context.presented) + Presents(afterDraw.frame) &&
        context.currentFrame.None? &&
        context.Keys() == Input.EndTick(old(context.Keys())) &&
        h == Continue([RequestRedraw])
      ensures Valid()
    {
      context.delta := Elapsed(context.lastFrameTime, now);
      context.lastFrameTime := later;

      if state.None? {
        return Panicked(MissingState);
      }
      UpdateThenDraw(surface);
      EndTick();

      h := Continue(if context.window.Some? then [RequestRedraw] else []);
    }

    /**
     * The callbacks of a tick: `update` and then `draw` see the same
     * observation of the context, `draw` the state `update` produced, and
     * their render calls are carried out in that order.
     */
    method UpdateThenDraw(surface: nat -> Option<SurfaceTexture>)
      requires Valid() && state.Some?
      modifies this`state, context`currentFrame, context`submitted
      ensures
        var view := context.Observe();
        var updated := context.updateFn(view, old(state).value);
        var drawn := context.drawFn(view, updated.state);
        var afterUpdate := RunCalls(old(context.RenderState()), context.GpuState(), updated.calls, surface, 0);
        state == Some(drawn.state) &&
        context.RenderState() == RunCalls(afterUpdate, context.GpuState(), drawn.calls, surface, |updated.calls|)
    {
      var userState := state.value;

      var updateFn := context.updateFn;
      var updated := updateFn(context.Observe(), userState);
      context.Perform(updated.calls, surface, 0);
      userState := updated.state;

      var drawFn := context.drawFn;
      var drawn := drawFn(context.Observe(), userState);
      context.Perform(drawn.calls, surface, |updated.calls|);
      userState := drawn.state;
      state := Some(userState);
    }

    /**
     * The end of a tick: the edge sets are emptied, then the frame, if any,
     * is taken, presented and dropped.
     */
    method EndTick()
      modifies context`currentFrame, context`presented, context`justPressedKeys, context`justReleasedKeys
      ensures context.Keys() == Input.EndTick(old(context.Keys()))
      ensures context.currentFrame.None?
      ensures context.presented == old(context.presented) + Presents(old(context.currentFrame))
    {
      context.justPressedKeys := {};
      context.justReleasedKeys := {};

      if context.currentFrame.Some? {
        var frame := context.currentFrame.value;
        context.currentFrame := None;
        context.presented := context.presented + [frame.texture];
      }
    }

    /**
     * Keyboard input. An identified key is recorded as a press or release
     * edge. A press of Escape with `closeOnEscape` set first shuts down, and
     * then is still recorded as held.
     */
    method OnKeyboardInput(key: PhysicalKey, pressed: bool) returns (h: Handled)
      requires Valid()
      modifies this`state, context`surface, context`device, context`queue, context`adapter,
               context`instance, context`surfaceConfig, context`window, context`texturePipeline,
               context`pressedKeys, context`justPressedKeys, context`justReleasedKeys
      ensures key.Unidentified? ==>
        h == Continue([]) && state == old(state) && context.Handles() == old(context.Handles()) &&
        context.Keys() == old(context.Keys())
      ensures key.Code? ==>
        var escape := pressed && key.code == Escape && context.closeOnEscape;
        (escape ==> context.Handles() == NoResources && state.None? && h == Continue([Exit])) &&
        (!escape ==> context.Handles() == old(context.Handles()) && state == old(state) && h == Continue([])) &&
        context.Keys() == (if pressed then Input.Press(old(context.Keys()), key.code)
                           else Input.Release(old(context.Keys()), key.code))
      ensures key.Code? && pressed ==> context.IsKeyPressed(key.code)
      ensures key.Code? && !pressed ==> !context.IsKeyPressed(key.code)
      ensures Valid()
    {
      h := Continue([]);
      if key.Unidentified? {
        return;
      }
      var keycode := key.code;
      if pressed && keycode == Escape && context.closeOnEscape {
        var requests := Shutdown();
        h := Continue(requests);
      }

      if pressed {
        if keycode !in context.pressedKeys {
          context.pressedKeys := context.pressedKeys + {keycode};
          context.justPressedKeys := context.justPressedKeys + {keycode};
        }
      } else {
        if keycode in context.pressedKeys {
          context.pressedKeys := context.pressedKeys - {keycode};
          context.justReleasedKeys := context.justReleasedKeys + {keycode};
        }
      }
    }
  }
}
