/**
 * Image layout transitions of a 2D texture and the render contexts that
 * own textures and swapchain images.
 *
 * A transition records the barrier the engine submits and then stores the
 * new layout in the texture; a pair of layouts the engine does not know is
 * rejected with `std::invalid_argument` before anything changes.
 */
module TextureLayout {
  import opened VkTypes

  const UNSUPPORTED_TRANSITION: string := "unsupported layout transition!"

  datatype Access = TransferWrite | ShaderRead | HostWrite | HostRead

  datatype Stage = TopOfPipe | Transfer | FragmentShader | AllCommands

  /** The parts of `VkImageMemoryBarrier` and `vkCmdPipelineBarrier` that depend on the layouts. */
  datatype Barrier = Barrier(
    oldLayout: ImageLayout,
    newLayout: ImageLayout,
    srcAccess: set<Access>,
    dstAccess: set<Access>,
    srcStage: Stage,
    dstStage: Stage)

  /**
   * Renderers (VulkanRenderer.cpp, VRRTrenderer.cpp): two transitions with
   * matching stages. Context (Drivers/Vulkan/VulkanContext.cpp): three
   * transitions, all at ALL_COMMANDS.
   */
  datatype TransitionRules = RendererRules | ContextRules

  /** The barrier each rule set records for a pair of layouts, or none when it throws. */
  function BarrierFor(rules: TransitionRules, oldLayout: ImageLayout, newLayout: ImageLayout): Option<Barrier> {
    match rules
    case RendererRules =>
      if oldLayout == LayoutUndefined && newLayout == TransferDstOptimal then
        Some(Barrier(oldLayout, newLayout, {}, {TransferWrite}, TopOfPipe, Transfer))
      else if oldLayout == TransferDstOptimal && newLayout == ShaderReadOnlyOptimal then
        Some(Barrier(oldLayout, newLayout, {TransferWrite}, {ShaderRead}, Transfer, FragmentShader))
      else None
    case ContextRules =>
      if oldLayout == LayoutUndefined && newLayout == TransferDstOptimal then
        Some(Barrier(oldLayout, newLayout, {}, {TransferWrite}, AllCommands, AllCommands))
      else if oldLayout == TransferDstOptimal && newLayout == ShaderReadOnlyOptimal then
        Some(Barrier(oldLayout, newLayout, {TransferWrite}, {ShaderRead}, AllCommands, AllCommands))
      else if oldLayout == LayoutUndefined && newLayout == ShaderReadOnlyOptimal then
        Some(Barrier(oldLayout, newLayout, {}, {HostWrite, HostRead}, AllCommands, AllCommands))
      else None
  }

  /** The layout pairs each rule set accepts, listed independently of the barrier table. */
  predicate Accepted(rules: TransitionRules, oldLayout: ImageLayout, newLayout: ImageLayout) {
    (oldLayout, newLayout) in
      (match rules
       case RendererRules =>
         {(LayoutUndefined, TransferDstOptimal), (TransferDstOptimal, ShaderReadOnlyOptimal)}
       case ContextRules =>
         {(LayoutUndefined, TransferDstOptimal), (TransferDstOptimal, ShaderReadOnlyOptimal),
          (LayoutUndefined, ShaderReadOnlyOptimal)})
  }

  /** A barrier is recorded exactly for the accepted pairs, and it describes that very pair. */
  lemma BarrierExactlyForAcceptedPairs(rules: TransitionRules, oldLayout: ImageLayout, newLayout: ImageLayout)
    ensures BarrierFor(rules, oldLayout, newLayout).Some? <==> Accepted(rules, oldLayout, newLayout)
    ensures BarrierFor(rules, oldLayout, newLayout).Some? ==>
      BarrierFor(rules, oldLayout, newLayout).value.oldLayout == oldLayout
      && BarrierFor(rules, oldLayout, newLayout).value.newLayout == newLayout
  {
  }

  /**
   * No accepted transition targets UNDEFINED (which Vulkan forbids as a new
   * layout), and whatever the context's rules accept that the renderers'
   * also accept gets the same access masks.
   */
  lemma AcceptedTransitionsAreWellFormed(rules: TransitionRules, oldLayout: ImageLayout, newLayout: ImageLayout)
    ensures Accepted(rules, oldLayout, newLayout) ==> newLayout != LayoutUndefined && oldLayout != newLayout
    ensures Accepted(RendererRules, oldLayout, newLayout) ==> Accepted(ContextRules, oldLayout, newLayout)
    ensures Accepted(RendererRules, oldLayout, newLayout) ==>
      BarrierFor(RendererRules, oldLayout, newLayout).value.srcAccess == BarrierFor(ContextRules, oldLayout, newLayout).value.srcAccess
      && BarrierFor(RendererRules, oldLayout, newLayout).value.dstAccess == BarrierFor(ContextRules, oldLayout, newLayout).value.dstAccess
  {
    BarrierExactlyForAcceptedPairs(rules, oldLayout, newLayout);
    BarrierExactlyForAcceptedPairs(RendererRules, oldLayout, newLayout);
    BarrierExactlyForAcceptedPairs(ContextRules, oldLayout, newLayout);
  }

  /** The layout after a transition request: the new one if accepted, otherwise unchanged. */
  function After(rules: TransitionRules, layout: ImageLayout, newLayout: ImageLayout): ImageLayout {
    if BarrierFor(rules, layout, newLayout).Some? then newLayout else layout
  }

  /** The layout after a whole sequence of transition requests. */
  function AfterAll(rules: TransitionRules, layout: ImageLayout, requests: seq<ImageLayout>): ImageLayout
    decreases |requests|
  {
    if requests == [] then layout
    else AfterAll(rules, After(rules, layout, requests[0]), requests[1..])
  }

  /** The layouts a texture created UNDEFINED can be in under these rules. */
  predicate Reachable(layout: ImageLayout) {
    layout == LayoutUndefined || layout == TransferDstOptimal || layout == ShaderReadOnlyOptimal
  }

  /**
   * Whatever requests a texture receives, it stays in UNDEFINED,
   * TRANSFER_DST_OPTIMAL or SHADER_READ_ONLY_OPTIMAL; once it is
   * SHADER_READ_ONLY_OPTIMAL it stays there.
   */
  lemma {:induction false} RequestsStayWithinReachable(rules: TransitionRules, layout: ImageLayout, requests: seq<ImageLayout>)
    requires Reachable(layout)
    ensures Reachable(AfterAll(rules, layout, requests))
    ensures layout == ShaderReadOnlyOptimal ==> AfterAll(rules, layout, requests) == ShaderReadOnlyOptimal
    decreases |requests|
  {
    if requests != [] {
      BarrierExactlyForAcceptedPairs(rules, layout, requests[0]);
      RequestsStayWithinReachable(rules, After(rules, layout, requests[0]), requests[1..]);
    }
  }

  /** The engine's `VkTexture2D`: only its current layout takes part in the rules. */
  class Texture2D {
    var layout: ImageLayout

    /** `CreateTexture` / `CreateTexture2D`: the image is created with initial layout UNDEFINED. */
    constructor ()
      ensures layout == LayoutUndefined
    {
      layout := LayoutUndefined;
    }
  }

  /**
   * `TransitionTextureLayout`: records the barrier for the texture's current
   * layout and `newLayout` and stores the new layout, or throws and leaves
   * the texture as it was.
   */
  method TransitionTextureLayout(rules: TransitionRules, texture: Texture2D, newLayout: ImageLayout)
    returns (r: Result<Barrier>)
    modifies texture
    ensures r.Ok? <==> Accepted(rules, old(texture.layout), newLayout)
    ensures r.Ok? ==> Some(r.value) == BarrierFor(rules, old(texture.layout), newLayout) && texture.layout == newLayout
    ensures r.Fail? ==> r.error == InvalidArgument(UNSUPPORTED_TRANSITION) && texture.layout == old(texture.layout)
    ensures texture.layout == After(rules, old(texture.layout), newLayout)
  {
    BarrierExactlyForAcceptedPairs(rules, texture.layout, newLayout);
    var oldLayout := texture.layout;
    var srcStage, dstStage := AllCommands, AllCommands;
    var srcAccess: set<Access>, dstAccess: set<Access>;
    if oldLayout == LayoutUndefined && newLayout == TransferDstOptimal {
      srcAccess, dstAccess := {}, {TransferWrite};
      if rules == RendererRules {
        srcStage, dstStage := TopOfPipe, Transfer;
      }
    } else if oldLayout == TransferDstOptimal && newLayout == ShaderReadOnlyOptimal {
      srcAccess, dstAccess := {TransferWrite}, {ShaderRead};
      if rules == RendererRules {
        srcStage, dstStage := Transfer, FragmentShader;
      }
    } else if rules == ContextRules && oldLayout == LayoutUndefined && newLayout == ShaderReadOnlyOptimal {
      srcAccess, dstAccess := {}, {HostWrite, HostRead};
    } else {
      return Fail(InvalidArgument(UNSUPPORTED_TRANSITION));
    }
    texture.layout := newLayout;
    return Ok(Barrier(oldLayout, newLayout, srcAccess, dstAccess, srcStage, dstStage));
  }

  /**
   * VRRTrenderer.cpp `CreateTexture`: a new UNDEFINED texture is moved to
   * TRANSFER_DST_OPTIMAL for the upload and then to SHADER_READ_ONLY_OPTIMAL;
   * neither transition throws.
   */
  method CreateTexture() returns (texture: Texture2D, toTransfer: Result<Barrier>, toShader: Result<Barrier>)
    ensures fresh(texture)
    ensures toTransfer.Ok? && toShader.Ok?
    ensures texture.layout == ShaderReadOnlyOptimal
  {
    texture := new Texture2D();
    toTransfer := TransitionTextureLayout(RendererRules, texture, TransferDstOptimal);
    toShader := TransitionTextureLayout(RendererRules, texture, ShaderReadOnlyOptimal);
  }

  // ------------------------------------------------------- render contexts

  /** `VkRTTFrameContext`: the render-to-texture target and the size it was created for. */
  class RttFrameContext {
    var width: U32
    var height: U32
    var texture: Texture2D
    /** How many times the target was destroyed and created again. */
    var generation: nat

    /**
     * `CreateRTTRenderContext`: a new UNDEFINED texture, moved straight to
     * SHADER_READ_ONLY_OPTIMAL, and the size recorded.
     */
    constructor (w: U32, h: U32)
      ensures width == w && height == h && generation == 0
      ensures fresh(texture) && texture.layout == ShaderReadOnlyOptimal
    {
      var t := new Texture2D();
      var barrier := TransitionTextureLayout(ContextRules, t, ShaderReadOnlyOptimal);
      texture := t;
      width, height := w, h;
      generation := 0;
    }

    /**
     * `RecreateRTTRenderContext`: destroy and create again at the new size
     * when `CheckInvalidSize` (declared elsewhere; its answer is passed in as
     * `checkInvalidSizeResult`) returns true.
     */
    method Recreate(w: U32, h: U32, checkInvalidSizeResult: bool)
      modifies this
      ensures checkInvalidSizeResult ==> width == w && height == h && generation == old(generation) + 1
      ensures checkInvalidSizeResult ==> fresh(texture) && texture.layout == ShaderReadOnlyOptimal
      ensures !checkInvalidSizeResult ==> unchanged(this)
    {
      if checkInvalidSizeResult {
        var t := new Texture2D();
        var barrier := TransitionTextureLayout(ContextRules, t, ShaderReadOnlyOptimal);
        texture := t;
        width, height := w, h;
        generation := generation + 1;
      }
    }

    /**
     * `BeginRTTRender`: a size different from the recorded one asks for a
     * recreation; the render pass then begins at the recorded size.
     */
    method BeginRttRender(w: U32, h: U32, checkInvalidSizeResult: bool) returns (passWidth: U32, passHeight: U32)
      modifies this
      ensures passWidth == width && passHeight == height
      ensures (w != old(width) || h != old(height)) && checkInvalidSizeResult ==>
        passWidth == w && passHeight == h && generation == old(generation) + 1
      ensures (w == old(width) && h == old(height)) || !checkInvalidSizeResult ==> unchanged(this)
    {
      if w != width || h != height {
        Recreate(w, h, checkInvalidSizeResult);
      }
      passWidth, passHeight := width, height;
    }
  }

  /** `VkGraphicsFrameContext`: the swapchain image in use for the current frame. */
  class GraphicsFrameContext<Handle> {
    var index: U32
    var framebuffer: Handle
    var commandBuffer: Handle
    var image: Handle
    var imageView: Handle

    constructor (h: Handle)
      ensures index == 0
    {
      index := 0;
      framebuffer, commandBuffer, image, imageView := h, h, h, h;
    }

    /**
     * `BeginGraphicsRender`: the acquired image index selects one entry of
     * every per-image list (the index comes from `vkAcquireNextImageKHR` and
     * is within the swapchain's image count).
     */
    method Begin(acquired: U32, framebuffers: seq<Handle>, commandBuffers: seq<Handle>,
                 images: seq<Handle>, imageViews: seq<Handle>)
      requires acquired < |framebuffers| && acquired < |commandBuffers|
      requires acquired < |images| && acquired < |imageViews|
      modifies this
      ensures index == acquired
      ensures framebuffer == framebuffers[index] && commandBuffer == commandBuffers[index]
      ensures image == images[index] && imageView == imageViews[index]
    {
      index := acquired;
      framebuffer := framebuffers[index];
      commandBuffer := commandBuffers[index];
      image := images[acquired];
      imageView := imageViews[acquired];
    }
  }
}
