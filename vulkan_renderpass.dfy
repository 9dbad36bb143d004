/**
 * The `vulkan_renderpass` wrapper: the render area and clear values it was
 * created with, the fixed two-attachment, one-subpass description it hands to
 * vkCreateRenderPass, and the command-buffer state changes of begin and end.
 * The f32 parameters are stored and passed on unchanged, so they are `real`
 * here with no floating-point arithmetic.
 */
module VulkanRenderpass {
  import opened Defines
  import opened VulkanTypes
  import VulkanCommandBuffer

  datatype LoadOp = LoadOpLoad | LoadOpClear | LoadOpDontCare
  datatype StoreOp = StoreOpStore | StoreOpDontCare
  datatype ImageLayout = Undefined | ColorAttachmentOptimal | DepthStencilAttachmentOptimal | PresentSrcKhr

  /** VK_SAMPLE_COUNT_1_BIT. */
  const SampleCount1: nat := 1
  /** VK_SUBPASS_EXTERNAL. */
  const SubpassExternal: u32 := U32Max
  /** VK_PIPELINE_STAGE_COLOR_ATTACHMENT_OUTPUT_BIT. */
  const ColorAttachmentOutputStage: bv32 := 0x400
  /** VK_ACCESS_COLOR_ATTACHMENT_READ_BIT and VK_ACCESS_COLOR_ATTACHMENT_WRITE_BIT. */
  const ColorAttachmentReadAccess: bv32 := 0x80
  const ColorAttachmentWriteAccess: bv32 := 0x100

  datatype AttachmentDescription = AttachmentDescription(
    format: nat,
    samples: nat,
    loadOp: LoadOp,
    storeOp: StoreOp,
    stencilLoadOp: LoadOp,
    stencilStoreOp: StoreOp,
    initialLayout: ImageLayout,
    finalLayout: ImageLayout)

  datatype AttachmentReference = AttachmentReference(attachment: nat, layout: ImageLayout)

  /** A graphics subpass: its colour references and its optional depth reference. */
  datatype SubpassDescription = SubpassDescription(
    colorAttachments: seq<AttachmentReference>,
    depthStencilAttachment: Option<AttachmentReference>)

  datatype SubpassDependency = SubpassDependency(
    srcSubpass: u32,
    dstSubpass: u32,
    srcStageMask: bv32,
    srcAccessMask: bv32,
    dstStageMask: bv32,
    dstAccessMask: bv32)

  datatype RenderPassCreateInfo = RenderPassCreateInfo(
    attachments: seq<AttachmentDescription>,
    subpasses: seq<SubpassDescription>,
    dependencies: seq<SubpassDependency>)

  /** A subpass index a dependency may name: an existing subpass or VK_SUBPASS_EXTERNAL. */
  predicate SubpassIndexValid(info: RenderPassCreateInfo, index: u32)
  {
    index == SubpassExternal || index < |info.subpasses|
  }

  /**
   * A render-pass description Vulkan accepts as far as indices and layouts go:
   * every reference names an existing attachment, colour references use the
   * colour layout and the depth reference the depth layout, and every dependency
   * names existing subpasses (at most one side external).
   */
  predicate WellFormed(info: RenderPassCreateInfo)
  {
    (forall s :: 0 <= s < |info.subpasses| ==>
      (forall c :: 0 <= c < |info.subpasses[s].colorAttachments| ==>
        info.subpasses[s].colorAttachments[c].attachment < |info.attachments| &&
        info.subpasses[s].colorAttachments[c].layout == ColorAttachmentOptimal) &&
      (info.subpasses[s].depthStencilAttachment.Some? ==>
        info.subpasses[s].depthStencilAttachment.value.attachment < |info.attachments| &&
        info.subpasses[s].depthStencilAttachment.value.layout == DepthStencilAttachmentOptimal)) &&
    (forall d :: 0 <= d < |info.dependencies| ==>
      SubpassIndexValid(info, info.dependencies[d].srcSubpass) &&
      SubpassIndexValid(info, info.dependencies[d].dstSubpass) &&
      !(info.dependencies[d].srcSubpass == SubpassExternal && info.dependencies[d].dstSubpass == SubpassExternal))
  }

  /**
   * What VulkanRenderpassCreate passes to vkCreateRenderPass: a colour
   * attachment in the swapchain format, cleared and stored and handed over for
   * presentation; a depth attachment cleared and not kept; one subpass using
   * both; one dependency from outside into that subpass on colour output.
   */
  function Description(colorFormat: nat, depthFormat: nat): (info: RenderPassCreateInfo)
    ensures WellFormed(info)
    ensures |info.attachments| == 2 && |info.subpasses| == 1 && |info.dependencies| == 1
    ensures info.attachments[0].format == colorFormat && info.attachments[1].format == depthFormat
    ensures info.attachments[0].initialLayout == Undefined && info.attachments[0].finalLayout == PresentSrcKhr
    ensures info.attachments[1].initialLayout == Undefined && info.attachments[1].finalLayout == DepthStencilAttachmentOptimal
    ensures info.subpasses[0].colorAttachments == [AttachmentReference(0, ColorAttachmentOptimal)]
    ensures info.subpasses[0].depthStencilAttachment == Some(AttachmentReference(1, DepthStencilAttachmentOptimal))
    ensures info.dependencies[0].srcSubpass == SubpassExternal && info.dependencies[0].dstSubpass == 0
    ensures info.attachments[0].loadOp == LoadOpClear && info.attachments[0].storeOp == StoreOpStore
    ensures info.attachments[1].loadOp == LoadOpClear && info.attachments[1].storeOp == StoreOpDontCare
    ensures forall k :: 0 <= k < 2 ==>
      info.attachments[k].samples == SampleCount1 &&
      info.attachments[k].stencilLoadOp == LoadOpDontCare && info.attachments[k].stencilStoreOp == StoreOpDontCare
    ensures info.dependencies[0].srcStageMask == ColorAttachmentOutputStage && info.dependencies[0].srcAccessMask == 0
    ensures info.dependencies[0].dstStageMask == ColorAttachmentOutputStage
    ensures info.dependencies[0].dstAccessMask == ColorAttachmentReadAccess | ColorAttachmentWriteAccess
  {
    var color := AttachmentDescription(colorFormat, SampleCount1, LoadOpClear, StoreOpStore,
      LoadOpDontCare, StoreOpDontCare, Undefined, PresentSrcKhr);
    var depth := AttachmentDescription(depthFormat, SampleCount1, LoadOpClear, StoreOpDontCare,
      LoadOpDontCare, StoreOpDontCare, Undefined, DepthStencilAttachmentOptimal);
    var subpass := SubpassDescription(
      [AttachmentReference(0, ColorAttachmentOptimal)],
      Some(AttachmentReference(1, DepthStencilAttachmentOptimal)));
    var dependency := SubpassDependency(SubpassExternal, 0,
      ColorAttachmentOutputStage, 0,
      ColorAttachmentOutputStage, ColorAttachmentReadAccess | ColorAttachmentWriteAccess);
    RenderPassCreateInfo([color, depth], [subpass], [dependency])
  }

  /** The clear values VulkanRenderpassBegin passes: the colour for attachment 0, depth and stencil for attachment 1. */
  datatype ClearValue = ClearColor(r: real, g: real, b: real, a: real) | ClearDepthStencil(depth: real, stencil: u32)

  /** The VkRenderPassBeginInfo fields the model keeps. */
  datatype RenderPassBeginInfo = RenderPassBeginInfo(renderPass: nat, framebuffer: nat, clearValues: seq<ClearValue>)

  class Renderpass {
    var x: real
    var y: real
    var w: real
    var h: real
    var r: real
    var g: real
    var b: real
    var a: real
    var depth: real
    var stencil: u32
    var handle: nat

    /** A zeroed `vulkan_renderpass`. */
    constructor ()
      ensures handle == 0
    {
      x, y, w, h := 0.0, 0.0, 0.0, 0.0;
      r, g, b, a := 0.0, 0.0, 0.0, 0.0;
      depth, stencil, handle := 0.0, 0, 0;
    }

    /**
     * VulkanRenderpassCreate: stores the area and clear parameters as given and
     * creates the render pass described by `Description`. `driverHandle` is the
     * handle vkCreateRenderPass returns; `info` is what it was given.
     */
    method Create(colorFormat: nat, depthFormat: nat,
                  x: real, y: real, w: real, h: real,
                  r: real, g: real, b: real, a: real,
                  depth: real, stencil: u32, driverHandle: nat)
      returns (info: RenderPassCreateInfo)
      modifies this
      ensures this.x == x && this.y == y && this.w == w && this.h == h
      ensures this.r == r && this.g == g && this.b == b && this.a == a
      ensures this.depth == depth && this.stencil == stencil && handle == driverHandle
      ensures info == Description(colorFormat, depthFormat)
    {
      this.x, this.y, this.w, this.h := x, y, w, h;
      this.r, this.g, this.b, this.a := r, g, b, a;
      this.depth, this.stencil := depth, stencil;
      info := Description(colorFormat, depthFormat);
      handle := driverHandle;
    }

    /**
     * VulkanRenderpassBegin: records the begin command with the two clear
     * values and puts the command buffer IN_RENDER_PASS.
     */
    method Begin(commandBuffer: VulkanCommandBuffer.CommandBuffer, framebuffer: nat)
      returns (beginInfo: RenderPassBeginInfo)
      modifies commandBuffer`state
      ensures commandBuffer.state == VulkanCommandBuffer.Step(old(commandBuffer.state), VulkanCommandBuffer.RenderpassBeginOp)
      ensures commandBuffer.state == InRenderPass
      ensures beginInfo == RenderPassBeginInfo(handle, framebuffer, [ClearColor(r, g, b, a), ClearDepthStencil(depth, stencil)])
    {
      beginInfo := RenderPassBeginInfo(handle, framebuffer, [ClearColor(r, g, b, a), ClearDepthStencil(depth, stencil)]);
      commandBuffer.state := InRenderPass;
    }

    /** VulkanRenderpassEnd: back to RECORDING. */
    method End(commandBuffer: VulkanCommandBuffer.CommandBuffer)
      modifies commandBuffer`state
      ensures commandBuffer.state == VulkanCommandBuffer.Step(old(commandBuffer.state), VulkanCommandBuffer.RenderpassEndOp)
      ensures commandBuffer.state == Recording
    {
      commandBuffer.state := Recording;
    }
  }

  /**
   * VulkanRenderpassDestroy: nothing for a null render pass or a null handle;
   * otherwise the render pass is destroyed and its handle zeroed.
   */
  method Destroy(renderpass: Renderpass?) returns (destroyed: bool)
    modifies renderpass
    ensures destroyed <==> renderpass != null && old(renderpass.handle) != 0
    ensures renderpass != null ==> renderpass.handle == 0
    ensures renderpass != null ==> unchanged(renderpass`x, renderpass`y, renderpass`w, renderpass`h)
    ensures renderpass != null ==> unchanged(renderpass`r, renderpass`g, renderpass`b, renderpass`a)
    ensures renderpass != null ==> unchanged(renderpass`depth, renderpass`stencil)
  {
    destroyed := renderpass != null && renderpass.handle != 0;
    if destroyed {
      renderpass.handle := 0;
    }
  }

  /** Ending a render pass begun on a recording buffer returns it to RECORDING. */
  lemma BeginEndRestoresRecording()
    ensures VulkanCommandBuffer.Run(Recording, [VulkanCommandBuffer.RenderpassBeginOp, VulkanCommandBuffer.RenderpassEndOp]) == Recording
  {
  }
}
