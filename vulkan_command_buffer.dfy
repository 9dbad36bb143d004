/**
 * The `vulkan_command_buffer` wrapper: a handle and a lifecycle state. Every
 * operation sets the state unconditionally; none checks the state it starts
 * from. Driver calls are replaced by the handle they return.
 */
module VulkanCommandBuffer {
  import opened VulkanTypes

  /** VkCommandBufferUsageFlagBits. */
  const OneTimeSubmitBit: bv32 := 0x1
  const RenderPassContinueBit: bv32 := 0x2
  const SimultaneousUseBit: bv32 := 0x4

  datatype CommandBufferLevel = Primary | Secondary

  /** The operations that assign a command buffer's state, including the render-pass ones. */
  datatype Op =
    | AllocateOp
    | BeginOp
    | EndOp
    | UpdateSubmittedOp
    | ResetOp
    | FreeOp
    | RenderpassBeginOp
    | RenderpassEndOp

  /** The state an operation leaves behind. */
  function Target(op: Op): CommandBufferState
  {
    match op
    case AllocateOp => Ready
    case BeginOp => Recording
    case EndOp => RecordingEnded
    case UpdateSubmittedOp => Submitted
    case ResetOp => Ready
    case FreeOp => NotAllocated
    case RenderpassBeginOp => InRenderPass
    case RenderpassEndOp => Recording
  }

  /** One transition. The previous state plays no part. */
  function Step(s: CommandBufferState, op: Op): (r: CommandBufferState)
  {
    Target(op)
  }

  /** The states a sequence of operations passes through, one per operation. */
  function Trace(s: CommandBufferState, ops: seq<Op>): (r: seq<CommandBufferState>)
    ensures |r| == |ops|
    decreases |ops|
  {
    if ops == [] then [] else [Step(s, ops[0])] + Trace(Step(s, ops[0]), ops[1..])
  }

  /** The state after a sequence of operations. */
  function Run(s: CommandBufferState, ops: seq<Op>): CommandBufferState
    decreases |ops|
  {
    if ops == [] then s else Run(Step(s, ops[0]), ops[1..])
  }

  /**
   * Since transitions are setters, the state after any non-empty sequence is
   * the one its last operation sets, wherever it started.
   */
  lemma {:induction false} RunIsLastTarget(s: CommandBufferState, ops: seq<Op>)
    requires ops != []
    ensures Run(s, ops) == Target(ops[|ops| - 1])
    decreases |ops|
  {
    if |ops| > 1 {
      RunIsLastTarget(Step(s, ops[0]), ops[1..]);
      assert ops[1..][|ops[1..]| - 1] == ops[|ops| - 1];
    }
  }

  /** The trace of a sequence is the target of each operation, in order. */
  lemma {:induction false} TraceIsTargets(s: CommandBufferState, ops: seq<Op>)
    ensures forall i :: 0 <= i < |ops| ==> Trace(s, ops)[i] == Target(ops[i])
    decreases |ops|
  {
    if ops != [] {
      TraceIsTargets(Step(s, ops[0]), ops[1..]);
      forall i | 0 < i < |ops| ensures Trace(s, ops)[i] == Target(ops[i]) {
        assert Trace(s, ops)[i] == Trace(Step(s, ops[0]), ops[1..])[i - 1];
        assert ops[1..][i - 1] == ops[i];
      }
    }
  }

  /**
   * The frame lifecycle: allocate, record a render pass, end, submit and reset
   * passes through exactly these states and comes back to READY.
   */
  lemma Lifecycle(s: CommandBufferState)
    ensures Trace(s, [AllocateOp, BeginOp, RenderpassBeginOp, RenderpassEndOp, EndOp, UpdateSubmittedOp, ResetOp]) ==
      [Ready, Recording, InRenderPass, Recording, RecordingEnded, Submitted, Ready]
    ensures Run(s, [AllocateOp, BeginOp, RenderpassBeginOp, RenderpassEndOp, EndOp, UpdateSubmittedOp, ResetOp]) == Ready
  {
    RunIsLastTarget(s, [AllocateOp, BeginOp, RenderpassBeginOp, RenderpassEndOp, EndOp, UpdateSubmittedOp, ResetOp]);
  }

  /** The usage flags Begin passes to vkBeginCommandBuffer: one bit per true argument. */
  function UsageFlags(isSingleUse: bool, isRenderpassContinue: bool, isSimultaneousUse: bool): bv32
  {
    (if isSingleUse then OneTimeSubmitBit else 0) |
    (if isRenderpassContinue then RenderPassContinueBit else 0) |
    (if isSimultaneousUse then SimultaneousUseBit else 0)
  }

  /** Each usage bit is set exactly when its argument is true, no other bit is ever set, and no argument means 0. */
  lemma UsageFlagsDecode(isSingleUse: bool, isRenderpassContinue: bool, isSimultaneousUse: bool)
    ensures UsageFlags(isSingleUse, isRenderpassContinue, isSimultaneousUse) & OneTimeSubmitBit != 0 <==> isSingleUse
    ensures UsageFlags(isSingleUse, isRenderpassContinue, isSimultaneousUse) & RenderPassContinueBit != 0 <==> isRenderpassContinue
    ensures UsageFlags(isSingleUse, isRenderpassContinue, isSimultaneousUse) & SimultaneousUseBit != 0 <==> isSimultaneousUse
    ensures UsageFlags(isSingleUse, isRenderpassContinue, isSimultaneousUse) & !0x7 == 0
    ensures UsageFlags(isSingleUse, isRenderpassContinue, isSimultaneousUse) == 0 <==>
      !isSingleUse && !isRenderpassContinue && !isSimultaneousUse
  {
  }

  class CommandBuffer {
    var handle: nat
    var state: CommandBufferState

    /** A command buffer not yet allocated, with a null handle. */
    constructor ()
      ensures handle == 0 && state == NotAllocated
    {
      handle, state := 0, NotAllocated;
    }

    /**
     * VulkanCommandBufferAllocate: NOT_ALLOCATED while the driver allocates,
     * then READY. `driverHandle` is the handle vkAllocateCommandBuffers returns.
     */
    method Allocate(isPrimary: bool, driverHandle: nat) returns (level: CommandBufferLevel)
      modifies this
      ensures state == Step(old(state), AllocateOp) && handle == driverHandle
      ensures level == (if isPrimary then Primary else Secondary)
    {
      level := if isPrimary then Primary else Secondary;
      state := NotAllocated;
      handle := driverHandle;
      state := Ready;
    }

    /** VulkanCommandBufferFree. */
    method Free()
      modifies this
      ensures state == Step(old(state), FreeOp) && handle == 0
    {
      handle := 0;
      state := NotAllocated;
    }

    /** VulkanCommandBufferBegin: builds the usage flags bit by bit, then RECORDING. */
    method Begin(isSingleUse: bool, isRenderpassContinue: bool, isSimultaneousUse: bool) returns (flags: bv32)
      modifies this`state
      ensures state == Step(old(state), BeginOp)
      ensures flags == UsageFlags(isSingleUse, isRenderpassContinue, isSimultaneousUse)
    {
      flags := 0;
      if isSingleUse {
        flags := flags | OneTimeSubmitBit;
      }
      if isRenderpassContinue {
        flags := flags | RenderPassContinueBit;
      }
      if isSimultaneousUse {
        flags := flags | SimultaneousUseBit;
      }
      state := Recording;
    }

    /** VulkanCommandBufferEnd. */
    method End()
      modifies this`state
      ensures state == Step(old(state), EndOp)
    {
      state := RecordingEnded;
    }

    /** VulkanCommandBufferUpdateSubmitted. */
    method UpdateSubmitted()
      modifies this`state
      ensures state == Step(old(state), UpdateSubmittedOp)
    {
      state := Submitted;
    }

    /** VulkanCommandBufferReset. */
    method Reset()
      modifies this`state
      ensures state == Step(old(state), ResetOp)
    {
      state := Ready;
    }

    /** VulkanCommandBufferAllocateAndBeginSingleUse: a primary buffer recording with the one-time-submit flag only. */
    method AllocateAndBeginSingleUse(driverHandle: nat) returns (level: CommandBufferLevel, flags: bv32)
      modifies this
      ensures state == Run(old(state), [AllocateOp, BeginOp]) && state == Recording
      ensures handle == driverHandle && level == Primary && flags == OneTimeSubmitBit
    {
      level := Allocate(true, driverHandle);
      flags := Begin(true, false, false);
      RunIsLastTarget(old(state), [AllocateOp, BeginOp]);
    }

    /**
     * VulkanCommandBufferEndSingleUse: ends recording, submits and waits (the
     * queue calls are not modelled), then frees. `submittedIn` is the state the
     * buffer is in when it is submitted.
     */
    method EndSingleUse() returns (submittedIn: CommandBufferState)
      modifies this
      ensures submittedIn == RecordingEnded
      ensures state == Run(old(state), [EndOp, FreeOp]) && state == NotAllocated && handle == 0
    {
      End();
      submittedIn := state;
      Free();
      RunIsLastTarget(old(state), [EndOp, FreeOp]);
    }
  }
}
