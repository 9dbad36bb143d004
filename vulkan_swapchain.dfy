/**
 * Swapchain management: choosing the surface format, present mode, extent,
 * image count and sharing mode from the device's swapchain support; creating,
 * destroying and recreating the swapchain; and the result handling of image
 * acquisition and presentation, with the round-robin `currentFrame` advance.
 * What the driver returns (the requeried support, the swapchain handle, its
 * images, the created views) is gathered in a `SwapchainDriver` value.
 */
module VulkanSwapchain {
  import opened Defines
  import opened VulkanTypes

  datatype SharingMode = Exclusive | Concurrent

  /** The VkSwapchainCreateInfoKHR fields chosen by Create. */
  datatype SwapchainCreateInfo = SwapchainCreateInfo(
    minImageCount: u32,
    imageFormat: SurfaceFormat,
    imageExtent: Extent2D,
    sharingMode: SharingMode,
    queueFamilyIndices: seq<u32>,
    presentMode: nat)

  /** What the driver reports while a swapchain is created. */
  datatype SwapchainDriver = SwapchainDriver(
    requeried: SwapchainSupport,
    handle: nat,
    images: seq<nat>,
    views: seq<nat>)

  /** The preferred surface format: B8G8R8A8_UNORM in the sRGB non-linear colour space. */
  const PreferredFormat: SurfaceFormat := SurfaceFormat(FormatB8G8R8A8Unorm, ColorSpaceSrgbNonlinear)

  /** The format choice: the preferred format if offered, else the first one offered. */
  function SurfaceFormatChoice(formats: seq<SurfaceFormat>): (f: SurfaceFormat)
    requires |formats| >= 1
    ensures f in formats
  {
    if PreferredFormat in formats then PreferredFormat else formats[0]
  }

  /** The present-mode choice: MAILBOX if offered anywhere, otherwise FIFO (which every device must offer). */
  function PresentModeChoice(modes: seq<nat>): (m: nat)
    ensures m == PresentModeMailbox || m == PresentModeFifo
  {
    if PresentModeMailbox in modes then PresentModeMailbox else PresentModeFifo
  }

  /**
   * The extent: the surface's current extent unless its width is the special
   * value UINT32_MAX, in which case the requested size; each side then clamped
   * to the allowed range with TCLAMP.
   */
  function ChooseExtent(requested: Extent2D, caps: SurfaceCapabilities): (e: Extent2D)
  {
    var base := if caps.currentExtent.width != U32Max then caps.currentExtent else requested;
    Extent2D(
      TClamp(base.width, caps.minImageExtent.width, caps.maxImageExtent.width),
      TClamp(base.height, caps.minImageExtent.height, caps.maxImageExtent.height))
  }

  /**
   * The number of images asked for: one more than the minimum, in u32
   * arithmetic, capped at the maximum when the surface has one (0 meaning no maximum).
   */
  function ImageCount(caps: SurfaceCapabilities): (n: u32)
  {
    var wanted := Truncate(caps.minImageCount + 1, U32Limit);
    if caps.maxImageCount > 0 && wanted > caps.maxImageCount then caps.maxImageCount else wanted
  }

  /** maxFramesInFlight: one less than the image count, in u32 arithmetic. */
  function MaxFramesInFlight(imageCount: u32): (m: u32)
    ensures imageCount > 0 ==> m + 1 == imageCount
    ensures imageCount == 0 ==> m == U32Max
  {
    Truncate(imageCount - 1, U32Limit)
  }

  /** CONCURRENT over both families when graphics and present differ, else EXCLUSIVE with no family list. */
  function Sharing(graphicsIndex: u32, presentIndex: u32): (r: (SharingMode, seq<u32>))
    ensures r.0 == Concurrent <==> graphicsIndex != presentIndex
    ensures r.0 == Concurrent ==> r.1 == [graphicsIndex, presentIndex]
    ensures r.0 == Exclusive ==> r.1 == []
  {
    if graphicsIndex != presentIndex then (Concurrent, [graphicsIndex, presentIndex]) else (Exclusive, [])
  }

  /**
   * Every choice Create makes. Format and present mode come from the support
   * known before Create requeries it; extent and image count from the requeried one.
   */
  function Configure(before: SwapchainSupport, after: SwapchainSupport, width: u32, height: u32,
                     graphicsIndex: u32, presentIndex: u32): SwapchainCreateInfo
    requires |before.formats| >= 1
  {
    SwapchainCreateInfo(
      ImageCount(after.capabilities),
      SurfaceFormatChoice(before.formats),
      ChooseExtent(Extent2D(width, height), after.capabilities),
      Sharing(graphicsIndex, presentIndex).0,
      Sharing(graphicsIndex, presentIndex).1,
      PresentModeChoice(before.presentModes))
  }

  /** With a sane range the extent lies inside it, and a base extent already inside is kept. */
  lemma ExtentWithinLimits(requested: Extent2D, caps: SurfaceCapabilities)
    requires caps.minImageExtent.width <= caps.maxImageExtent.width
    requires caps.minImageExtent.height <= caps.maxImageExtent.height
    ensures caps.minImageExtent.width <= ChooseExtent(requested, caps).width <= caps.maxImageExtent.width
    ensures caps.minImageExtent.height <= ChooseExtent(requested, caps).height <= caps.maxImageExtent.height
    ensures (caps.currentExtent.width != U32Max &&
      caps.minImageExtent.width <= caps.currentExtent.width <= caps.maxImageExtent.width &&
      caps.minImageExtent.height <= caps.currentExtent.height <= caps.maxImageExtent.height) ==>
      ChooseExtent(requested, caps) == caps.currentExtent
    ensures (caps.currentExtent.width == U32Max &&
      caps.minImageExtent.width <= requested.width <= caps.maxImageExtent.width &&
      caps.minImageExtent.height <= requested.height <= caps.maxImageExtent.height) ==>
      ChooseExtent(requested, caps) == requested
  {
  }

  /**
   * Short of the u32 wrap at minImageCount == UINT32_MAX, the image count is
   * minImageCount + 1, or maxImageCount when that is smaller and not 0.
   */
  lemma ImageCountBounds(caps: SurfaceCapabilities)
    requires caps.minImageCount < U32Max
    ensures caps.maxImageCount == 0 ==> ImageCount(caps) == caps.minImageCount + 1
    ensures caps.maxImageCount > 0 ==> ImageCount(caps) <= caps.maxImageCount
    ensures caps.maxImageCount > caps.minImageCount ==> ImageCount(caps) == caps.minImageCount + 1
    ensures caps.maxImageCount > 0 && caps.maxImageCount <= caps.minImageCount ==> ImageCount(caps) == caps.maxImageCount
  {
  }

  /**
   * A surface allowing exactly one image (minImageCount = maxImageCount = 1)
   * gives maxFramesInFlight = 0, the divisor of Present's frame advance.
   */
  lemma SingleImageSurfaceHasNoFrameInFlight(caps: SurfaceCapabilities)
    requires caps.minImageCount == 1 && caps.maxImageCount == 1
    ensures MaxFramesInFlight(ImageCount(caps)) == 0
  {
  }

  /** The frame index after one Present: (c + 1) in u32 arithmetic, modulo maxFramesInFlight. */
  function Advance(c: u32, framesInFlight: u32): (r: u32)
    requires framesInFlight > 0
    ensures r < framesInFlight
  {
    Truncate(c + 1, U32Limit) % framesInFlight
  }

  /** The frame index after `k` presents that do not recreate the swapchain. */
  function AdvanceTimes(c: u32, framesInFlight: u32, k: nat): (r: u32)
    requires framesInFlight > 0
  {
    if k == 0 then c else Advance(AdvanceTimes(c, framesInFlight, k - 1), framesInFlight)
  }

  /** Starting at 0, after `k` presents without recreation the frame index is k mod maxFramesInFlight. */
  lemma {:induction false} PresentsCountModulo(framesInFlight: u32, k: nat)
    requires framesInFlight > 0
    ensures AdvanceTimes(0, framesInFlight, k) == k % framesInFlight
  {
    if k > 0 {
      PresentsCountModulo(framesInFlight, k - 1);
      var c := (k - 1) % framesInFlight;
      assert AdvanceTimes(0, framesInFlight, k) == Advance(c, framesInFlight);
      assert Truncate(c + 1, U32Limit) == c + 1;
      ModuloSuccessor(k - 1, framesInFlight);
    }
  }

  lemma ModuloSuccessor(n: nat, m: nat)
    requires m > 0
    ensures (n % m + 1) % m == (n + 1) % m
  {
    var q, r := n / m, n % m;
    if r + 1 == m {
      ModuloUnique(n + 1, m, q + 1, 0);
      ModuloUnique(r + 1, m, 1, 0);
    } else {
      ModuloUnique(n + 1, m, q, r + 1);
      ModuloUnique(r + 1, m, 0, r + 1);
    }
  }

  /** A quotient and remainder in range are the ones `/` and `%` compute. */
  lemma ModuloUnique(n: int, m: int, q: int, r: int)
    requires m > 0 && 0 <= r < m && n == q * m + r
    ensures n % m == r
  {
    var q', r' := n / m, n % m;
    assert (q - q') * m == r' - r;
    if q > q' {
      MultiplyAtLeast(q - q', m);
    } else if q < q' {
      MultiplyAtLeast(q' - q, m);
    }
  }

  lemma MultiplyAtLeast(a: int, m: int)
    requires a >= 1 && m > 0
    ensures a * m >= m
  {
  }

  /** The fields of a `vulkan_swapchain`; `bufferCapacity` is the size the image and view buffers were allocated with, None while they are null. */
  datatype SwapchainState = SwapchainState(
    imageFormat: SurfaceFormat,
    maxFramesInFlight: u32,
    handle: nat,
    images: seq<nat>,
    views: seq<nat>,
    bufferCapacity: Option<nat>)

  /** Create may run only while its image and view buffers, allocated on the first Create, can hold the new images. */
  predicate CanCreate(s: SwapchainState, support: SwapchainSupport, driver: SwapchainDriver)
  {
    |support.formats| >= 1 && |driver.views| == |driver.images| &&
    (s.bufferCapacity.Some? ==> |driver.images| <= s.bufferCapacity.value)
  }

  /** The swapchain fields after Create with `info` as its choices. */
  function AfterCreate(s: SwapchainState, info: SwapchainCreateInfo, driver: SwapchainDriver): (r: SwapchainState)
    ensures r.imageFormat == info.imageFormat && r.handle == driver.handle
    ensures r.maxFramesInFlight == MaxFramesInFlight(info.minImageCount)
    ensures r.images == driver.images && r.views == driver.views
    ensures s.bufferCapacity.None? ==> r.bufferCapacity == Some(|driver.images|)
    ensures s.bufferCapacity.Some? ==> r.bufferCapacity == s.bufferCapacity
  {
    SwapchainState(
      info.imageFormat,
      MaxFramesInFlight(info.minImageCount),
      driver.handle,
      driver.images,
      driver.views,
      if s.bufferCapacity.None? then Some(|driver.images|) else s.bufferCapacity)
  }

  /** The format loop of Create, which stops at the first preferred entry. */
  method ChooseSurfaceFormat(formats: seq<SurfaceFormat>) returns (format: SurfaceFormat)
    requires |formats| >= 1
    ensures format == SurfaceFormatChoice(formats)
  {
    var found := false;
    var i := 0;
    while i < |formats|
      invariant 0 <= i <= |formats|
      invariant forall k :: 0 <= k < i ==> formats[k] != PreferredFormat
    {
      if formats[i].format == FormatB8G8R8A8Unorm && formats[i].colorSpace == ColorSpaceSrgbNonlinear {
        format := formats[i];
        found := true;
        break;
      }
      i := i + 1;
    }
    if !found {
      format := formats[0];
    }
  }

  /** The present-mode loop of Create, which stops at the first MAILBOX entry. */
  method ChoosePresentMode(modes: seq<nat>) returns (mode: nat)
    ensures mode == PresentModeChoice(modes)
  {
    mode := PresentModeFifo;
    var i := 0;
    while i < |modes|
      invariant 0 <= i <= |modes|
      invariant forall k :: 0 <= k < i ==> modes[k] != PresentModeMailbox
    {
      if modes[i] == PresentModeMailbox {
        mode := modes[i];
        break;
      }
      i := i + 1;
    }
  }

  class Swapchain {
    var imageFormat: SurfaceFormat
    var maxFramesInFlight: u32
    var handle: nat
    var images: seq<nat>
    var views: seq<nat>
    var bufferCapacity: Option<nat>

    function State(): SwapchainState
      reads this
    {
      SwapchainState(imageFormat, maxFramesInFlight, handle, images, views, bufferCapacity)
    }

    /** A zeroed `vulkan_swapchain`: null handle, no images, null buffers. */
    constructor ()
      ensures State() == SwapchainState(SurfaceFormat(0, 0), 0, 0, [], [], None)
    {
      imageFormat := SurfaceFormat(0, 0);
      maxFramesInFlight := 0;
      handle := 0;
      images, views := [], [];
      bufferCapacity := None;
    }

    /**
     * Create (behind VulkanSwapchainCreate): makes every choice of
     * `Configure`, replaces the context's swapchain support with the requeried
     * one, creates the swapchain, its images and views, and restarts the frame
     * index at 0. The depth attachment is not modelled.
     */
    method Create(context: VulkanContext, width: u32, height: u32, driver: SwapchainDriver)
      returns (info: SwapchainCreateInfo)
      requires CanCreate(State(), context.swapchainSupport, driver)
      modifies this, context`swapchainSupport, context`currentFrame
      ensures info == Configure(old(context.swapchainSupport), driver.requeried, width, height,
        context.graphicsQueueIndex, context.presentQueueIndex)
      ensures State() == AfterCreate(old(State()), info, driver)
      ensures context.swapchainSupport == driver.requeried && context.currentFrame == 0
    {
      var format := ChooseSurfaceFormat(context.swapchainSupport.formats);
      imageFormat := format;
      var mode := ChoosePresentMode(context.swapchainSupport.presentModes);

      context.swapchainSupport := driver.requeried;

      var caps := context.swapchainSupport.capabilities;
      var extent := ChooseExtent(Extent2D(width, height), caps);
      var imageCount := ImageCount(caps);
      maxFramesInFlight := MaxFramesInFlight(imageCount);

      var sharing := Sharing(context.graphicsQueueIndex, context.presentQueueIndex);
      info := SwapchainCreateInfo(imageCount, imageFormat, extent, sharing.0, sharing.1, mode);
      handle := driver.handle;

      context.currentFrame := 0;

      if bufferCapacity.None? {
        bufferCapacity := Some(|driver.images|);
      }
      images := driver.images;
      views := driver.views;
    }

    /**
     * Destroy (behind VulkanSwapchainDestroy and Recreate): destroys every
     * view and then the swapchain, changing no field. Returns the view
     * handles and the swapchain handle destroyed.
     */
    method Destroy() returns (destroyedViews: seq<nat>, destroyedSwapchain: nat)
      ensures destroyedViews == views && destroyedSwapchain == handle
    {
      destroyedViews := [];
      var i := 0;
      while i < |views|
        invariant 0 <= i <= |views|
        invariant destroyedViews == views[..i]
      {
        destroyedViews := destroyedViews + [views[i]];
        i := i + 1;
      }
      destroyedSwapchain := handle;
    }

    /** VulkanSwapchainRecreate: Destroy then Create, so the frame index restarts at 0. */
    method Recreate(context: VulkanContext, width: u32, height: u32, driver: SwapchainDriver)
      returns (info: SwapchainCreateInfo)
      requires CanCreate(State(), context.swapchainSupport, driver)
      modifies this, context`swapchainSupport, context`currentFrame
      ensures info == Configure(old(context.swapchainSupport), driver.requeried, width, height,
        context.graphicsQueueIndex, context.presentQueueIndex)
      ensures State() == AfterCreate(old(State()), info, driver)
      ensures context.swapchainSupport == driver.requeried && context.currentFrame == 0
    {
      var _, _ := Destroy();
      info := Create(context, width, height, driver);
    }

    /**
     * VulkanSwapchainAcquireNextImageIndex given the result of
     * vkAcquireNextImageKHR: OUT_OF_DATE recreates at the framebuffer size and
     * fails; SUCCESS and SUBOPTIMAL succeed; anything else fails.
     */
    method AcquireNextImageIndex(context: VulkanContext, result: VkResult, driver: SwapchainDriver)
      returns (ok: bool, recreated: bool)
      requires result == ErrorOutOfDateKhr ==> CanCreate(State(), context.swapchainSupport, driver)
      modifies this, context`swapchainSupport, context`currentFrame
      ensures ok <==> result == Success || result == SuboptimalKhr
      ensures recreated <==> result == ErrorOutOfDateKhr
      ensures recreated ==> State() == AfterCreate(old(State()),
        Configure(old(context.swapchainSupport), driver.requeried, context.framebufferWidth, context.framebufferHeight,
          context.graphicsQueueIndex, context.presentQueueIndex), driver)
      ensures recreated ==> context.swapchainSupport == driver.requeried && context.currentFrame == 0
      ensures !recreated ==> State() == old(State()) && context.swapchainSupport == old(context.swapchainSupport)
      ensures !recreated ==> context.currentFrame == old(context.currentFrame)
    {
      if result == ErrorOutOfDateKhr {
        var _ := Recreate(context, context.framebufferWidth, context.framebufferHeight, driver);
        return false, true;
      } else if result != Success && result != SuboptimalKhr {
        return false, false;
      }
      return true, false;
    }

    /**
     * VulkanSwapchainPresent given the result of vkQueuePresentKHR:
     * OUT_OF_DATE and SUBOPTIMAL recreate at the framebuffer size; then, in
     * every case, the frame index advances modulo maxFramesInFlight, which
     * must not be 0.
     */
    method Present(context: VulkanContext, result: VkResult, driver: SwapchainDriver)
      returns (recreated: bool)
      requires result == ErrorOutOfDateKhr || result == SuboptimalKhr ==>
        CanCreate(State(), context.swapchainSupport, driver) &&
        MaxFramesInFlight(ImageCount(driver.requeried.capabilities)) > 0
      requires !(result == ErrorOutOfDateKhr || result == SuboptimalKhr) ==> maxFramesInFlight > 0
      modifies this, context`swapchainSupport, context`currentFrame
      ensures recreated <==> result == ErrorOutOfDateKhr || result == SuboptimalKhr
      ensures recreated ==> State() == AfterCreate(old(State()),
        Configure(old(context.swapchainSupport), driver.requeried, context.framebufferWidth, context.framebufferHeight,
          context.graphicsQueueIndex, context.presentQueueIndex), driver)
      ensures recreated ==> context.swapchainSupport == driver.requeried
      ensures !recreated ==> State() == old(State()) && context.swapchainSupport == old(context.swapchainSupport)
      ensures maxFramesInFlight > 0
      ensures context.currentFrame == Advance(if recreated then 0 else old(context.currentFrame), maxFramesInFlight)
      ensures context.currentFrame < maxFramesInFlight
    {
      recreated := result == ErrorOutOfDateKhr || result == SuboptimalKhr;
      if recreated {
        var _ := Recreate(context, context.framebufferWidth, context.framebufferHeight, driver);
      }
      context.currentFrame := Truncate(context.currentFrame + 1, U32Limit) % maxFramesInFlight;
    }
  }
}
