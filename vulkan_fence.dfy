/**
 * The `vulkan_fence` wrapper: a fence handle plus an `isSignaled` flag that
 * lets a wait on an already signalled fence skip the driver. The driver's
 * answer to vkWaitForFences is a parameter of Wait.
 */
module VulkanFence {
  import opened VulkanTypes

  /** VK_FENCE_CREATE_SIGNALED_BIT. */
  const CreateSignaledBit: bv32 := 0x1

  /** The two fields of a `vulkan_fence`. */
  datatype FenceState = FenceState(handle: nat, isSignaled: bool)

  /**
   * The state and the answer after a wait whose driver call (if made) reports
   * `result`: a signalled fence answers true without a driver call, an
   * unsignalled one becomes signalled only on VK_SUCCESS.
   */
  function AfterWait(s: FenceState, result: VkResult): (r: (FenceState, bool))
    ensures r.0.handle == s.handle
    ensures r.1 <==> s.isSignaled || result == Success
    ensures r.0.isSignaled == r.1
  {
    if s.isSignaled then (s, true)
    else if result == Success then (s.(isSignaled := true), true)
    else (s, false)
  }

  /** The state after a reset: unsignalled, the handle kept. */
  function AfterReset(s: FenceState): (r: FenceState)
    ensures r.handle == s.handle && !r.isSignaled
  {
    if s.isSignaled then s.(isSignaled := false) else s
  }

  /** The state after destruction: null handle, unsignalled. */
  function AfterDestroy(s: FenceState): (r: FenceState)
    ensures r == FenceState(0, false)
  {
    if s.handle != 0 then FenceState(0, false) else s.(isSignaled := false)
  }

  /** A wait on a signalled fence succeeds whatever the driver would have said. */
  lemma WaitOnSignaledIgnoresDriver(s: FenceState, result1: VkResult, result2: VkResult)
    requires s.isSignaled
    ensures AfterWait(s, result1) == AfterWait(s, result2) == (s, true)
  {
  }

  /** Every failing driver answer (timeout, device lost, out of memory, anything else) leaves an unsignalled fence unsignalled. */
  lemma WaitFailureKeepsUnsignaled(s: FenceState, result: VkResult)
    requires !s.isSignaled && result != Success
    ensures AfterWait(s, result) == (s, false)
  {
  }

  /** Reset is idempotent. */
  lemma ResetIdempotent(s: FenceState)
    ensures AfterReset(AfterReset(s)) == AfterReset(s)
  {
  }

  /** Destroying twice is the same as destroying once. */
  lemma DestroyIdempotent(s: FenceState)
    ensures AfterDestroy(AfterDestroy(s)) == AfterDestroy(s)
  {
  }

  class Fence {
    var handle: nat
    var isSignaled: bool

    function State(): FenceState
      reads this
    {
      FenceState(handle, isSignaled)
    }

    /** A zeroed `vulkan_fence`. */
    constructor ()
      ensures State() == FenceState(0, false)
    {
      handle, isSignaled := 0, false;
    }

    /**
     * VulkanFenceCreate: records `createSignaled` and asks the driver for a
     * fence created signalled exactly when it is. `driverHandle` is the handle
     * vkCreateFence returns; `flags` the create flags passed to it.
     */
    method Create(createSignaled: bool, driverHandle: nat) returns (flags: bv32)
      modifies this
      ensures State() == FenceState(driverHandle, createSignaled)
      ensures flags == (if createSignaled then CreateSignaledBit else 0)
    {
      isSignaled := createSignaled;
      flags := 0;
      if isSignaled {
        flags := CreateSignaledBit;
      }
      handle := driverHandle;
    }

    /** VulkanFenceDestroy: `destroyed` says whether vkDestroyFence was called. */
    method Destroy() returns (destroyed: bool)
      modifies this
      ensures State() == AfterDestroy(old(State()))
      ensures destroyed <==> old(handle) != 0
    {
      destroyed := handle != 0;
      if handle != 0 {
        handle := 0;
      }
      isSignaled := false;
    }

    /**
     * VulkanFenceWait: `result` is what vkWaitForFences reports; `waited` says
     * whether it was called at all.
     */
    method Wait(result: VkResult) returns (ok: bool, waited: bool)
      modifies this`isSignaled
      ensures (State(), ok) == AfterWait(old(State()), result)
      ensures waited <==> !old(isSignaled)
    {
      if !isSignaled {
        waited := true;
        match result {
          case Success =>
            isSignaled := true;
            return true, waited;
          case Timeout =>
          case ErrorDeviceLost =>
          case ErrorOutOfHostMemory =>
          case ErrorOutOfDeviceMemory =>
          case _ =>
        }
      } else {
        return true, false;
      }
      return false, waited;
    }

    /** VulkanFenceReset: `called` says whether vkResetFences was called. */
    method Reset() returns (called: bool)
      modifies this`isSignaled
      ensures State() == AfterReset(old(State()))
      ensures called <==> old(isSignaled)
    {
      called := isSignaled;
      if isSignaled {
        isSignaled := false;
      }
    }
  }
}
