/**
 * The render primitives against the lazily acquired frame: `clear_screen`
 * and `draw_texture` / `draw_texture_scaled`. Their effect is stated on a
 * `Target`, the current frame together with the log of render passes
 * submitted to the queue; the engine's methods are proved to have exactly
 * these effects.
 */
module Render {
  import opened Wrappers
  import opened Types
  import opened Frames

  /** The clear colour as the caller gives it, 8 bits per channel. */
  datatype Rgb = Rgb(r: u8, g: u8, b: u8)

  /** Destination rectangle in window pixels, origin top-left. */
  datatype Rect = Rect(x: real, y: real, width: real, height: real)

  /** Decoded image data as the image decoder returns it. */
  datatype Image = Image(width: u32, height: u32, rgba: seq<u8>)

  /** A texture uploaded to a device. */
  datatype Texture = Texture(device: Device, image: Image, width: u32, height: u32)

  /**
   * A submitted command buffer holding one render pass: a clear of the
   * target view, or one textured quad that loads (keeps) what the target holds.
   */
  datatype Pass =
    | ClearPass(target: TextureView, color: Rgb)
    | TexturePass(target: TextureView, texture: Texture, rect: Rect, viewport: PhysicalSize,
                  format: TextureFormat, indices: seq<u16>)

  /**
   * What a render primitive reads from the engine: whether surface, device
   * and queue are all present, the window's inner size and the surface format.
   */
  datatype Gpu = Gpu(ready: bool, viewport: PhysicalSize, format: TextureFormat)

  /** The current frame, if any, and every pass submitted so far. */
  datatype Target = Target(frame: Option<Frame>, passes: seq<Pass>)

  /** A render primitive as a lifecycle callback invokes it. */
  datatype Call =
    | ClearScreen(r: u8, g: u8, b: u8)
    | DrawTexture(texture: Texture, x: real, y: real)
    | DrawTextureScaled(texture: Texture, x: real, y: real, width: real, height: real)

  /**
   * The two triangles of a quad over the vertices top-left (0), top-right (1),
   * bottom-left (2) and bottom-right (3): six indices, all below four, every
   * vertex used, each triangle over three distinct vertices, and the two
   * triangles meeting on the diagonal 1-2.
   */
  function QuadIndices(): (ix: seq<u16>)
    ensures |ix| == 6
    ensures forall i :: 0 <= i < |ix| ==> ix[i] < 4
    ensures forall v: u16 :: v < 4 ==> v in ix
    ensures ix[0] != ix[1] && ix[1] != ix[2] && ix[0] != ix[2]
    ensures ix[3] != ix[4] && ix[4] != ix[5] && ix[3] != ix[5]
    ensures {ix[0], ix[1], ix[2]} * {ix[3], ix[4], ix[5]} == {1, 2}
  {
    [0, 1, 2, 1, 3, 2]
  }

  /** The current frame, or a new one over the acquired image; none if acquisition failed. */
  function AcquireFrame(current: Option<Frame>, acquired: Option<SurfaceTexture>): Option<Frame> {
    if current.Some? then current
    else if acquired.Some? then Some(NewFrame(acquired.value))
    else None
  }

  /** `clear_screen`: guard, lazy frame, then a clear pass only while the frame is uncleared. */
  function Clear(t: Target, gpu: Gpu, color: Rgb, acquired: Option<SurfaceTexture>): Target {
    if !gpu.ready then t
    else
      match AcquireFrame(t.frame, acquired)
      case None => t
      case Some(f) =>
        if f.cleared then Target(Some(f), t.passes)
        else Target(Some(f.(cleared := true)), t.passes + [ClearPass(f.view, color)])
  }

  /** `draw_texture_scaled`: guard, lazy frame, then one loading pass; the cleared flag is not touched. */
  function DrawScaled(t: Target, gpu: Gpu, texture: Texture, rect: Rect, acquired: Option<SurfaceTexture>): Target {
    if !gpu.ready then t
    else
      match AcquireFrame(t.frame, acquired)
      case None => t
      case Some(f) =>
        Target(Some(f), t.passes + [TexturePass(f.view, texture, rect, gpu.viewport, gpu.format, QuadIndices())])
  }

  /** `draw_texture` draws at the texture's own size. */
  function NaturalRect(texture: Texture, x: real, y: real): Rect {
    Rect(x, y, texture.width as real, texture.height as real)
  }

  /** The destination rectangle of a draw call. */
  function DrawRect(c: Call): Rect
    requires !c.ClearScreen?
  {
    match c
    case DrawTexture(texture, x, y) => NaturalRect(texture, x, y)
    case DrawTextureScaled(_, x, y, width, height) => Rect(x, y, width, height)
  }

  function ApplyCall(t: Target, gpu: Gpu, c: Call, acquired: Option<SurfaceTexture>): Target {
    match c
    case ClearScreen(r, g, b) => Clear(t, gpu, Rgb(r, g, b), acquired)
    case _ => DrawScaled(t, gpu, c.texture, DrawRect(c), acquired)
  }

  /**
   * The calls of one callback in order; the call at position i (counted from
   * `offset` within the tick) would get `surface(offset + i)` if it asked the
   * surface for an image.
   */
  function RunCalls(t: Target, gpu: Gpu, calls: seq<Call>, surface: nat -> Option<SurfaceTexture>, offset: nat): Target
    decreases |calls|
  {
    if calls == [] then t
    else
      var n := |calls| - 1;
      ApplyCall(RunCalls(t, gpu, calls[..n], surface, offset), gpu, calls[n], surface(offset + n))
  }

  /** The number of clear passes in a log. */
  function ClearCount(passes: seq<Pass>): nat
    decreases |passes|
  {
    if passes == [] then 0
    else ClearCount(passes[..|passes| - 1]) + (if passes[|passes| - 1].ClearPass? then 1 else 0)
  }

  /**
   * Since position `from` of the log, every pass targets the one current
   * frame, and it holds one clear pass when the frame is cleared and none
   * otherwise; with no frame, nothing was submitted since `from`.
   */
  ghost predicate FrameDiscipline(t: Target, from: nat) {
    from <= |t.passes| &&
    match t.frame
    case None => |t.passes| == from
    case Some(f) =>
      (forall i :: from <= i < |t.passes| ==> t.passes[i].target == f.view) &&
      ClearCount(t.passes[from..]) == (if f.cleared then 1 else 0)
  }

  /** The pass a draw call submits onto a frame's view. */
  function DrawPass(view: TextureView, gpu: Gpu, c: Call): Pass
    requires !c.ClearScreen?
  {
    TexturePass(view, c.texture, DrawRect(c), gpu.viewport, gpu.format, QuadIndices())
  }

  // ---------------------------------------------------------------- clear_screen

  /**
   * The cases of `clear_screen`: without surface, device and queue nothing
   * happens; with no frame a failed acquisition changes nothing and a
   * successful one creates the frame; an uncleared frame gets exactly one
   * clear pass and becomes cleared; a cleared frame is left alone whatever
   * the colour.
   */
  lemma ClearScreenCases(t: Target, gpu: Gpu, color: Rgb, acquired: Option<SurfaceTexture>)
    ensures !gpu.ready ==> Clear(t, gpu, color, acquired) == t
    ensures gpu.ready && t.frame.None? && acquired.None? ==> Clear(t, gpu, color, acquired) == t
    ensures gpu.ready && t.frame.None? && acquired.Some? ==>
      var f := NewFrame(acquired.value);
      Clear(t, gpu, color, acquired) == Target(Some(f.(cleared := true)), t.passes + [ClearPass(f.view, color)])
    ensures gpu.ready && t.frame.Some? && !t.frame.value.cleared ==>
      Clear(t, gpu, color, acquired) ==
        Target(Some(t.frame.value.(cleared := true)), t.passes + [ClearPass(t.frame.value.view, color)])
    ensures t.frame.Some? && t.frame.value.cleared ==> Clear(t, gpu, color, acquired) == t
  {
  }

  /**
   * Clearing is idempotent within a frame: once a call has a frame to work
   * on (or the engine is not ready), a second call, with any colour and any
   * acquisition outcome, changes nothing; the frame keeps the first colour.
   */
  lemma ClearIsIdempotent(t: Target, gpu: Gpu, c1: Rgb, c2: Rgb, a1: Option<SurfaceTexture>, a2: Option<SurfaceTexture>)
    requires !gpu.ready || Clear(t, gpu, c1, a1).frame.Some?
    ensures Clear(Clear(t, gpu, c1, a1), gpu, c2, a2) == Clear(t, gpu, c1, a1)
  {
  }

  // ---------------------------------------------------------------- draw_texture

  /**
   * The cases of `draw_texture_scaled`: without surface, device and queue, or
   * with no frame and a failed acquisition, nothing happens; otherwise the
   * frame is reused or created and exactly one pass, targeting it, is
   * appended; the frame itself, its cleared flag included, is left as found.
   */
  lemma DrawTextureCases(t: Target, gpu: Gpu, texture: Texture, rect: Rect, acquired: Option<SurfaceTexture>)
    ensures !gpu.ready || (t.frame.None? && acquired.None?) ==> DrawScaled(t, gpu, texture, rect, acquired) == t
    ensures gpu.ready && t.frame.Some? ==>
      DrawScaled(t, gpu, texture, rect, acquired) ==
        Target(t.frame, t.passes + [TexturePass(t.frame.value.view, texture, rect, gpu.viewport, gpu.format, QuadIndices())])
    ensures gpu.ready && t.frame.None? && acquired.Some? ==>
      var f := NewFrame(acquired.value);
      DrawScaled(t, gpu, texture, rect, acquired) ==
        Target(Some(f), t.passes + [TexturePass(f.view, texture, rect, gpu.viewport, gpu.format, QuadIndices())])
  {
  }

  /** `draw_texture` is `draw_texture_scaled` at the texture's width and height. */
  lemma DrawTextureIsNaturalSize(t: Target, gpu: Gpu, texture: Texture, x: real, y: real, a: Option<SurfaceTexture>)
    ensures ApplyCall(t, gpu, DrawTexture(texture, x, y), a) ==
      DrawScaled(t, gpu, texture, Rect(x, y, texture.width as real, texture.height as real), a)
  {
  }

  /**
   * Draws onto an existing frame compose in call order: N draw calls append
   * exactly N passes, the i-th for the i-th call, and leave the frame, and
   * so whether it was cleared, unchanged.
   */
  lemma {:induction false} DrawsInCallOrder(t: Target, gpu: Gpu, draws: seq<Call>, surface: nat -> Option<SurfaceTexture>, offset: nat)
    requires gpu.ready && t.frame.Some?
    requires forall i :: 0 <= i < |draws| ==> !draws[i].ClearScreen?
    ensures RunCalls(t, gpu, draws, surface, offset) ==
      Target(t.frame, t.passes + seq(|draws|, i requires 0 <= i < |draws| => DrawPass(t.frame.value.view, gpu, draws[i])))
    decreases |draws|
  {
    if draws != [] {
      var n := |draws| - 1;
      DrawsInCallOrder(t, gpu, draws[..n], surface, offset);
      var f := t.frame.value;
      var all := seq(|draws|, i requires 0 <= i < |draws| => DrawPass(f.view, gpu, draws[i]));
      var init := seq(n, i requires 0 <= i < n => DrawPass(f.view, gpu, draws[..n][i]));
      assert all == init + [DrawPass(f.view, gpu, draws[n])];
    }
  }

  /** Running `a` and then `b` is running `a + b`, with `b`'s positions counted after `a`'s. */
  lemma {:induction false} RunCallsAppend(t: Target, gpu: Gpu, a: seq<Call>, b: seq<Call>, surface: nat -> Option<SurfaceTexture>, offset: nat)
    ensures RunCalls(t, gpu, a + b, surface, offset) ==
      RunCalls(RunCalls(t, gpu, a, surface, offset), gpu, b, surface, offset + |a|)
    decreases |b|
  {
    if b == [] {
      assert a + b == a;
    } else {
      var n := |b| - 1;
      RunCallsAppend(t, gpu, a, b[..n], surface, offset);
      assert (a + b)[..|a + b| - 1] == a + b[..n];
    }
  }

  /**
   * Draws in a tick that starts without a frame: with surface, device and
   * queue present and the first acquisition successful, N draw calls create
   * the frame over that image and append exactly N passes targeting it, the
   * i-th for the i-th call; the frame is left uncleared.
   */
  lemma DrawsOntoNewFrame(t: Target, gpu: Gpu, draws: seq<Call>, surface: nat -> Option<SurfaceTexture>, offset: nat)
    requires gpu.ready && t.frame.None? && draws != [] && surface(offset).Some?
    requires forall i :: 0 <= i < |draws| ==> !draws[i].ClearScreen?
    ensures var f := NewFrame(surface(offset).value);
      RunCalls(t, gpu, draws, surface, offset) ==
        Target(Some(f), t.passes + seq(|draws|, i requires 0 <= i < |draws| => DrawPass(f.view, gpu, draws[i])))
  {
    var f := NewFrame(surface(offset).value);
    var first := FirstDrawCreatesFrame(t, gpu, draws[0], surface, offset);
    var rest := draws[1..];
    assert draws == [draws[0]] + rest;
    RunCallsAppend(t, gpu, [draws[0]], rest, surface, offset);
    DrawsInCallOrder(first, gpu, rest, surface, offset + 1);
    var tail := seq(|rest|, i requires 0 <= i < |rest| => DrawPass(f.view, gpu, rest[i]));
    var all := seq(|draws|, i requires 0 <= i < |draws| => DrawPass(f.view, gpu, draws[i]));
    assert RunCalls(t, gpu, draws, surface, offset) == Target(Some(f), (t.passes + [DrawPass(f.view, gpu, draws[0])]) + tail);
    PrependDrawPass(f.view, gpu, draws, rest);
    assert all == [DrawPass(f.view, gpu, draws[0])] + tail;
    assert (t.passes + [DrawPass(f.view, gpu, draws[0])]) + tail == t.passes + all;
  }

  /** The first draw of a tick without a frame creates the frame over the acquired image. */
  lemma FirstDrawCreatesFrame(t: Target, gpu: Gpu, c: Call, surface: nat -> Option<SurfaceTexture>, offset: nat)
      returns (first: Target)
    requires gpu.ready && t.frame.None? && surface(offset).Some? && !c.ClearScreen?
    ensures first == RunCalls(t, gpu, [c], surface, offset)
    ensures var f := NewFrame(surface(offset).value);
      first == Target(Some(f), t.passes + [DrawPass(f.view, gpu, c)])
  {
    assert [c][..0] == [];
    first := ApplyCall(t, gpu, c, surface(offset));
  }

  /** The passes of a run of draws are the first draw's pass followed by the rest's. */
  lemma PrependDrawPass(view: TextureView, gpu: Gpu, draws: seq<Call>, rest: seq<Call>)
    requires draws != [] && rest == draws[1..]
    requires forall i :: 0 <= i < |draws| ==> !draws[i].ClearScreen?
    ensures seq(|draws|, i requires 0 <= i < |draws| => DrawPass(view, gpu, draws[i])) ==
      [DrawPass(view, gpu, draws[0])] + seq(|rest|, i requires 0 <= i < |rest| => DrawPass(view, gpu, rest[i]))
  {
  }

  // ---------------------------------------------------------------- one frame per tick

  /** A clear keeps the frame discipline. */
  lemma ClearKeepsFrameDiscipline(t: Target, from: nat, gpu: Gpu, color: Rgb, acquired: Option<SurfaceTexture>)
    requires FrameDiscipline(t, from)
    ensures FrameDiscipline(Clear(t, gpu, color, acquired), from)
  {
    var f := AcquireFrame(t.frame, acquired);
    if gpu.ready && f.Some? && !f.value.cleared {
      AppendOnePass(t.passes, from, ClearPass(f.value.view, color));
      if t.frame.None? {
        assert t.passes[from..] == [];
      }
    }
  }

  /** A draw keeps the frame discipline. */
  lemma DrawKeepsFrameDiscipline(t: Target, from: nat, gpu: Gpu, texture: Texture, rect: Rect, acquired: Option<SurfaceTexture>)
    requires FrameDiscipline(t, from)
    ensures FrameDiscipline(DrawScaled(t, gpu, texture, rect, acquired), from)
  {
    var f := AcquireFrame(t.frame, acquired);
    if gpu.ready && f.Some? {
      AppendOnePass(t.passes, from, TexturePass(f.value.view, texture, rect, gpu.viewport, gpu.format, QuadIndices()));
      if t.frame.None? {
        assert t.passes[from..] == [];
      }
    }
  }

  /** One call keeps the frame discipline, and never swaps an existing frame for another. */
  lemma CallKeepsFrameDiscipline(t: Target, from: nat, gpu: Gpu, c: Call, acquired: Option<SurfaceTexture>)
    requires FrameDiscipline(t, from)
    ensures FrameDiscipline(ApplyCall(t, gpu, c, acquired), from)
    ensures t.frame.Some? ==>
      var r := ApplyCall(t, gpu, c, acquired).frame;
      r.Some? && r.value.texture == t.frame.value.texture && r.value.view == t.frame.value.view &&
      (t.frame.value.cleared ==> r.value.cleared)
  {
    if c.ClearScreen? {
      ClearKeepsFrameDiscipline(t, from, gpu, Rgb(c.r, c.g, c.b), acquired);
    } else {
      DrawKeepsFrameDiscipline(t, from, gpu, c.texture, DrawRect(c), acquired);
    }
  }

  /** Appending one pass after position `from` adds one to the clear count exactly for a clear pass. */
  lemma AppendOnePass(passes: seq<Pass>, from: nat, p: Pass)
    requires from <= |passes|
    ensures (passes + [p])[from..] == passes[from..] + [p]
    ensures ClearCount((passes + [p])[from..]) == ClearCount(passes[from..]) + (if p.ClearPass? then 1 else 0)
  {
    assert (passes + [p])[from..] == passes[from..] + [p];
    assert (passes[from..] + [p])[..|passes[from..]|] == passes[from..];
  }

  /** A whole run of calls keeps the frame discipline. */
  lemma {:induction false} RunKeepsFrameDiscipline(t: Target, from: nat, gpu: Gpu, calls: seq<Call>, surface: nat -> Option<SurfaceTexture>, offset: nat)
    requires FrameDiscipline(t, from)
    ensures FrameDiscipline(RunCalls(t, gpu, calls, surface, offset), from)
    decreases |calls|
  {
    if calls != [] {
      var n := |calls| - 1;
      RunKeepsFrameDiscipline(t, from, gpu, calls[..n], surface, offset);
      CallKeepsFrameDiscipline(RunCalls(t, gpu, calls[..n], surface, offset), from, gpu, calls[n], surface(offset + n));
    }
  }

  /** Calls only ever append to the log of submitted passes. */
  lemma {:induction false} RunOnlyAppends(t: Target, gpu: Gpu, calls: seq<Call>, surface: nat -> Option<SurfaceTexture>, offset: nat)
    ensures t.passes <= RunCalls(t, gpu, calls, surface, offset).passes
    decreases |calls|
  {
    if calls != [] {
      RunOnlyAppends(t, gpu, calls[..|calls| - 1], surface, offset);
    }
  }

  /** Once a frame exists, a run of calls keeps it: same image, same view. */
  lemma {:induction false} FrameIsKept(t: Target, gpu: Gpu, calls: seq<Call>, surface: nat -> Option<SurfaceTexture>, offset: nat)
    requires t.frame.Some?
    ensures var r := RunCalls(t, gpu, calls, surface, offset);
      r.frame.Some? && r.frame.value.texture == t.frame.value.texture && r.frame.value.view == t.frame.value.view
    decreases |calls|
  {
    if calls != [] {
      var n := |calls| - 1;
      FrameIsKept(t, gpu, calls[..n], surface, offset);
      var mid := RunCalls(t, gpu, calls[..n], surface, offset);
      assert mid.frame.Some?;
      assert AcquireFrame(mid.frame, surface(offset + n)) == mid.frame;
    }
  }

  /**
   * A tick that starts without a frame submits every pass to one frame, and
   * at most one of them is a clear; if it ends without a frame it submitted
   * nothing at all.
   */
  lemma AtMostOneClearPerTick(t: Target, gpu: Gpu, calls: seq<Call>, surface: nat -> Option<SurfaceTexture>, offset: nat)
    requires t.frame.None?
    ensures var r := RunCalls(t, gpu, calls, surface, offset);
      |t.passes| <= |r.passes| &&
      ClearCount(r.passes[|t.passes|..]) <= 1 &&
      (r.frame.Some? ==> forall i :: |t.passes| <= i < |r.passes| ==> r.passes[i].target == r.frame.value.view) &&
      (r.frame.None? ==> r.passes == t.passes)
  {
    RunKeepsFrameDiscipline(t, |t.passes|, gpu, calls, surface, offset);
    RunOnlyAppends(t, gpu, calls, surface, offset);
  }

  /**
   * Starting without a frame, a run of calls ends with a frame exactly when
   * surface, device and queue are present and some call's acquisition
   * succeeded; so a tick with no calls creates no frame.
   */
  lemma {:induction false} FrameIffSomeAcquisition(t: Target, gpu: Gpu, calls: seq<Call>, surface: nat -> Option<SurfaceTexture>, offset: nat)
    requires t.frame.None?
    ensures RunCalls(t, gpu, calls, surface, offset).frame.Some? <==>
      gpu.ready && exists j :: offset <= j < offset + |calls| && surface(j).Some?
    decreases |calls|
  {
    if calls != [] {
      var n := |calls| - 1;
      FrameIffSomeAcquisition(t, gpu, calls[..n], surface, offset);
      CallKeepsFrameDiscipline(RunCalls(t, gpu, calls[..n], surface, offset), |t.passes|, gpu, calls[n], surface(offset + n)) by {
        RunKeepsFrameDiscipline(t, |t.passes|, gpu, calls[..n], surface, offset);
      }
    }
  }
}
