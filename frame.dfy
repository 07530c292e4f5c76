/** The frame being composed during one tick. */
module Frames {
  import opened Types

  /** A view of a swap-chain image; a view is derived from, and names, its texture. */
  datatype TextureView = TextureView(texture: SurfaceTexture)

  function CreateView(texture: SurfaceTexture): TextureView {
    TextureView(texture)
  }

  /** The acquired image, the view render passes target, and whether it has been cleared. */
  datatype Frame = Frame(texture: SurfaceTexture, view: TextureView, cleared: bool)

  /**
   * Wraps an already acquired image: total, keeps the image, derives its view,
   * and starts uncleared.
   */
  function NewFrame(texture: SurfaceTexture): (f: Frame)
    ensures f.texture == texture && f.view == CreateView(texture)
    ensures f.view.texture == f.texture
    ensures !f.cleared
  {
    Frame(texture, CreateView(texture), false)
  }
}
