# Thrianta engine core, modelled in Dafny

This project models the core of the Thrianta C game engine:

- **Containers and memory**
  - the growable `darray`;
  - the linear (bump) allocator;
  - the tagged allocation statistics behind `TAllocate` and `TFree`.
- **Core state machines**
  - the event registry: per-code listener lists, duplicate rejection, order-preserving removal, and dispatch where the first handler wins;
  - the input system: current and previous keyboard and mouse snapshots, with events fired only on change.
- **Vulkan bookkeeping**
  - fences and their `isSignaled` flag;
  - the command-buffer lifecycle;
  - the render pass: its fixed description, parameters, and the begin/end transitions;
  - swapchain parameter choice, recreation, and the `currentFrame` advance;
  - physical-device and queue-family selection.
- **The renderer front end's frame contract.**

Each C file is one Dafny module. The modules are `Defines`, `DArray`, `TMemory`, `LinearAllocator`, `Event`, `Input`, `VulkanTypes`, `VulkanFence`, `VulkanCommandBuffer`, `VulkanRenderpass`, `VulkanSwapchain`, `VulkanDevice` and `RendererFrontEnd`.

**State lives in classes.** A C struct or static state that the code updates in place is a Dafny `class`. Each method states its whole new state, usually through a pure function of the old state (`State() == AfterWait(old(State()), result)`). The properties the engine relies on are lemmas about those functions.

**Loops stay loops.** The C loops remain `while` loops, proved against specification functions. Examples:

- the queue-family scan, the extension search and the device selection;
- the swapchain format and present-mode searches;
- the event-list scans;
- the DArray shifts and resize copy;
- the allocator's zeroing.

**The driver and callbacks are parameters.** Every Vulkan driver call is replaced by the value it reports, passed as a parameter:

- a `VkResult`;
- a handle;
- a `SwapchainSupport` record;
- a list of queue families.

Event callbacks are an oracle `respond(registration, firing)`. The input system's `EventFire` calls go to an output log (`fired`). The renderer backend's answers are boolean parameters.

**Code over documentation.** Where the header comment and the code disagree, the model follows the code. `Event.h` (lines 35-36) says a duplicate registration is the same listener/callback combination. `EventRegister` (Event.c:71-79) rejects any registration whose *listener* is already in the list, whatever its callback. `Event.EventSystem.Register` states the code's rule.

## Model

| member | source | states |
|---|---|---|
| Defines.TClamp | Engine/src/Defines.h:102 | the result is the value, the minimum or the maximum; it lies in [min, max] whenever min <= max; values at or below min give min, values at or above max (and above min) give max |
| Defines.Truncate | Engine/src/Core/Input.c:95-96 | the C cast to an unsigned field: the result is below the field's limit and equals the value whenever the value already fits |
| DArray.DynArray.Create | Engine/src/Containers/DArray.c:5-15 | a fresh zeroed block of exactly `capacity` elements, length 0, the given stride, empty contents |
| DArray.DynArray.CreateDefault | Engine/src/Containers/DArray.h:35-39 | `DArrayCreate(type)`: capacity DARRAY_DEFAULT_CAPACITY = 1, length 0, empty contents |
| DArray.DynArray.FieldSet | Engine/src/Containers/DArray.c:31-35 | the field set reads back the new value through FieldGet, every other header field reads back unchanged, the block is untouched |
| DArray.DynArray.Clear | Engine/src/Containers/DArray.h:67-68 | `DArrayClear`: contents empty, capacity, stride and block unchanged |
| DArray.DynArray.Resize | Engine/src/Containers/DArray.c:37-49 | a fresh block of DARRAY_RESIZE_FACTOR (2) times the capacity holding the same contents and length, zero beyond them |
| DArray.DynArray.Push | Engine/src/Containers/DArray.c:51-65 | contents become old contents + [value]; capacity doubles exactly when the array was full; a non-full array keeps its block; requires capacity > 0 since doubling 0 stays 0 |
| DArray.DynArray.Pop | Engine/src/Containers/DArray.c:67-75 | returns the last element and drops it; non-empty is a precondition as C has no bounds check |
| DArray.DynArray.PopAt | Engine/src/Containers/DArray.c:77-101 | an index at or past the end returns None and changes nothing; otherwise returns the element and the contents become the old ones with it removed, order kept |
| DArray.DynArray.InsertAt | Engine/src/Containers/DArray.c:103-134 | as written: index >= length is refused unchanged; index < length - 1 inserts with the shift; index == length - 1 skips the shift, overwriting the old last element and exposing the stale slot past the end |
| DArray.DynArray.InsertAtShifted | Engine/src/Containers/DArray.c:103-134 | the intended insert: every accepted index yields the old contents with the value inserted there, length + 1 |
| DArray.FieldIndex | Engine/src/Containers/DArray.h:13-19 | every header field has a slot among the DARRAY_FIELD_LENGTH (3) header words |
| DArray.DynArray.ShiftDown | Engine/src/Containers/DArray.c:90-96 | the elements after `from` move one place down, the slots below `from` and from the old last slot on are untouched |
| DArray.DynArray.ShiftUp | Engine/src/Containers/DArray.c:121-127 | the elements from `from` on move one place up into the free slot, the slots up to `from` and past the new end are untouched |
| DArray.Removed | Engine/src/Containers/DArray.c:90-99 | one element snipped out: one shorter, the prefix kept, the rest moved down by one |
| DArray.Inserted | Engine/src/Containers/DArray.c:120-132 | one element placed: one longer, the prefix kept, the value at the index, the rest moved up by one |
| DArray.RemovedInserted | Engine/src/Containers/DArray.c:77-134 | removing at the index just inserted at gives back the original contents |
| DArray.InsertAtLastAsWritten | Engine/src/Containers/DArray.c:121-132 | the as-written result at the last index: prefix kept, value at the old last slot, the stale slot after it |
| DArray.InsertAtLastDiffers | Engine/src/Containers/DArray.c:121-127 | whenever the stale slot differs from the old last element, the as-written result is not the intended insert |
| TMemory.MemoryStats.constructor | Engine/src/Core/TMemory.c:10-14 | the statistics start at zero for the total and every one of the 18 tags, total == sum of tags |
| TMemory.MemoryStats.Initialize | Engine/src/Core/TMemory.c:39-42 | InitializeMemory zeroes the total and every tag counter and keeps total == sum of tags |
| TMemory.MemoryStats.Allocate | Engine/src/Core/TMemory.c:46-60 | total and the tag's counter grow by `size`, other tags unchanged, total == sum of tags kept; the block is fresh and zero-filled; MEMORY_TAG_UNKNOWN warns and is still counted |
| TMemory.MemoryStats.Free | Engine/src/Core/TMemory.c:62-74 | total and the tag's counter shrink by `size`, other tags unchanged, total == sum of tags kept; freeing no more than the tag holds is a precondition (u64 wrap) |
| TMemory.Charged | Engine/src/Core/TMemory.c:53-54 | the counters after a charge: only the tag's counter moves, by exactly `size` |
| TMemory.Refunded | Engine/src/Core/TMemory.c:69-70 | the counters after a refund: only the tag's counter moves, down by exactly `size` |
| TMemory.SumUpdate | Engine/src/Core/TMemory.c:53-54 | changing one counter changes the sum by exactly the difference |
| TMemory.SumZero | Engine/src/Core/TMemory.c:39-42 | all-zero counters sum to zero |
| TMemory.ChargedSum | Engine/src/Core/TMemory.c:53-54 | a charge adds `size` to the sum of the tag counters, matching the total |
| TMemory.RefundedSum | Engine/src/Core/TMemory.c:69-70 | a refund removes `size` from the sum of the tag counters, matching the total |
| TMemory.RefundUndoesCharge | Engine/src/Core/TMemory.c:46-74 | TAllocate then TFree of the same size and tag restores every counter exactly |
| LinearAllocator.LinearAllocator.constructor | Tests/src/Memory/LinearAllocatorTests.c:7-20 | the zeroed struct: no memory, sizes 0, not owning |
| LinearAllocator.LinearAllocator.Create | Engine/src/Memory/LinearAllocator.c:5-21 | totalSize as given, nothing allocated; owns its memory exactly when none was passed; caller memory is used as is with no stats change; otherwise a fresh zeroed buffer of totalSize bytes is charged under MEMORY_TAG_LINEAR_ALLOCATOR |
| LinearAllocator.LinearAllocator.Destroy | Engine/src/Memory/LinearAllocator.c:23-36 | everything reset to 0/null/false; the buffer is freed (total and tag refunded) exactly when it was owned and non-null; caller memory is never freed |
| LinearAllocator.LinearAllocator.AllocateAsWritten | Engine/src/Memory/LinearAllocator.c:38-56 | as written: the test and the bump are sums modulo 2^64, so a request is refused exactly when the wrapped sum exceeds totalSize, and an accepted one gets offset `allocated` and moves it to the wrapped sum |
| LinearAllocator.LinearAllocator.Allocate | Engine/src/Memory/LinearAllocator.c:38-56 | corrected (the test compares `size` with the bytes remaining, so it cannot wrap): uninitialised: None, nothing changes; a request that fits gets offset `allocated` and bumps it by size; one that does not fit gets None and `allocated` stays; the result is the one-request `Offsets`; allocated <= totalSize kept |
| LinearAllocator.LinearAllocator.FreeAll | Engine/src/Memory/LinearAllocator.c:58-65 | with a buffer: allocated 0 and the first totalSize bytes zero, the rest of the block untouched; without one: nothing changes |
| LinearAllocator.OffsetsDisjoint | Tests/src/Memory/LinearAllocatorTests.c:42-63 | with the corrected bounds test, over any run of requests every block handed out lies in [allocated, totalSize] and no two blocks overlap |
| LinearAllocator.WrappedStepAgrees | Engine/src/Memory/LinearAllocator.c:42-51 | while `allocated + size` stays below 2^64 the step as written and the corrected step give the same block and the same new offset |
| LinearAllocator.WrappedAllocateOverlaps | Engine/src/Memory/LinearAllocator.c:42-51 | in a 16-byte buffer the as-written steps hand out offset 0, then a block at 8 running past the buffer while the offset wraps to 0, then offset 0 again |
| LinearAllocator.FixedSizeFill | Tests/src/Memory/LinearAllocatorTests.c:42-63 | n requests of one block size fill a buffer of n blocks exactly, request i at offset i * size |
| LinearAllocator.OverAllocateRefused | Tests/src/Memory/LinearAllocatorTests.c:65-92 | once full, one more positive request is refused |
| Event.EventSystem.constructor | Engine/src/Core/Event.c:29-30 | the static state before initialisation: not initialised, every list null |
| Event.EventSystem.Initialize | Engine/src/Core/Event.c:32-44 | succeeds exactly on the first call, then all lists are null; a second call fails and changes nothing |
| Event.EventSystem.Shutdown | Engine/src/Core/Event.c:46-57 | every list destroyed and nulled; the initialised flag is left alone |
| Event.EventSystem.Register | Engine/src/Core/Event.c:59-88 | fails with no effect before initialisation; creates the code's list if null; succeeds exactly when no registration in it has this listener, appending (listener, callback) at the end; other codes untouched; listeners stay unique |
| Event.EventSystem.Unregister | Engine/src/Core/Event.c:90-119 | succeeds exactly when initialised, the list exists and holds this (listener, callback) pair, removing its first occurrence with the others in order; otherwise nothing changes |
| Event.EventSystem.Fire | Engine/src/Core/Event.c:121-147 | false with no call before initialisation or on a null list; otherwise callbacks are called in registration order up to the first that returns true, and the answer is whether one did |
| Event.EventSystem.ListAt | Engine/src/Core/Event.c:66-69 | a null list reads as empty, an existing one as itself |
| Event.HasListener | Engine/src/Core/Event.c:71-79 | the duplicate scan finds a registration exactly when one has this listener |
| Event.FindRegistration | Engine/src/Core/Event.c:104-115 | the search returns the first index holding this listener/callback pair, or None when the pair is absent |
| Event.IndexOf | Engine/src/Core/Event.c:105-108 | the first position of a registration |
| Event.FirstHandler | Engine/src/Core/Event.c:134-143 | the first registration whose callback answers true, none of those before it do; None exactly when none does |
| Event.Dispatched | Engine/src/Core/Event.c:134-146 | the registrations a firing calls are a prefix of the list, cut short only when a handler was found |
| Event.DispatchedEndsAtHandler | Engine/src/Core/Event.c:138-142 | a handled firing's last call is the handler and all earlier calls declined |
| Event.UnhandledReachesAll | Engine/src/Core/Event.c:134-146 | a firing nobody handles calls every registration |
| Event.UnregisterUndoesRegister | Engine/src/Core/Event.c:82-118 | unregistering the registration just added restores the list |
| Event.AppendKeepsUnique | Engine/src/Core/Event.c:71-85 | appending a fresh listener keeps listeners unique |
| Event.RemoveKeepsUnique | Engine/src/Core/Event.c:112 | removing any entry keeps listeners unique |
| Input.InputSystem.constructor | Engine/src/Core/Input.c:24-25 | the zeroed static state, not initialised, nothing fired |
| Input.InputSystem.Initialize | Engine/src/Core/Input.c:27-32 | current and previous keyboard and mouse state zeroed, initialised, so every key and button is up now and was up |
| Input.InputSystem.Shutdown | Engine/src/Core/Input.c:34-38 | the system is no longer initialised, and only that flag may change |
| Input.InputSystem.Update | Engine/src/Core/Input.c:40-50 | initialised: previous becomes current for keyboard and mouse, so every Was query equals the Is query and the positions agree; current unchanged; not initialised: nothing changes |
| Input.InputSystem.ProcessKey | Engine/src/Core/Input.c:52-65 | the key takes the new state; exactly one KEY_PRESSED or KEY_RELEASED with the key code is fired when it changed, none otherwise, so a repeat is a no-op |
| Input.InputSystem.ProcessButton | Engine/src/Core/Input.c:67-79 | the same change-only rule for buttons with BUTTON_PRESSED/BUTTON_RELEASED |
| Input.InputSystem.ProcessMouseMove | Engine/src/Core/Input.c:81-99 | the position is recorded; MOUSE_MOVED with x and y cast to u16 is fired exactly when either differs |
| Input.InputSystem.ProcessMouseWheel | Engine/src/Core/Input.c:101-109 | always fires MOUSE_WHEEL with the delta cast to u8, changes no state |
| Input.InputSystem.IsKeyDown | Engine/src/Core/Input.c:112-119 | never true while not initialised |
| Input.InputSystem.IsKeyUp | Engine/src/Core/Input.c:121-128 | always true while not initialised |
| Input.InputSystem.WasKeyDown | Engine/src/Core/Input.c:130-137 | never true while not initialised |
| Input.InputSystem.WasKeyUp | Engine/src/Core/Input.c:139-146 | always true while not initialised |
| Input.InputSystem.IsButtonDown | Engine/src/Core/Input.c:149-156 | never true while not initialised |
| Input.InputSystem.IsButtonUp | Engine/src/Core/Input.c:158-165 | always true while not initialised |
| Input.InputSystem.WasButtonDown | Engine/src/Core/Input.c:167-174 | never true while not initialised |
| Input.InputSystem.WasButtonUp | Engine/src/Core/Input.c:176-183 | always true while not initialised |
| Input.InputSystem.MousePosition | Engine/src/Core/Input.c:185-195 | (0, 0) while not initialised, else the current position |
| Input.InputSystem.PreviousMousePosition | Engine/src/Core/Input.c:197-207 | (0, 0) while not initialised, else the position as of the last update |
| Input.KeyUpIsNotDown | Engine/src/Core/Input.c:112-146 | for every key, up is exactly not down, now and as of the last update |
| Input.ButtonUpIsNotDown | Engine/src/Core/Input.c:149-183 | for every button, up is exactly not down, now and as of the last update |
| Input.MouseMovePayload | Engine/src/Core/Input.c:95-96 | the u16 cast keeps non-negative coordinates and wraps negative ones by 65536 |
| Input.CodesDistinguishEvents | Engine/src/Core/Input.c:52-79 | the code fired tells press from release for keys and for buttons, and a key event never carries a button code |
| VulkanTypes.VulkanContext.constructor | Engine/src/Renderer/Vulkan/VulkanBackEnd.c:6 | the static context: the given framebuffer size and swapchain support, no physical device, frame index 0, queue indices 0 |
| VulkanFence.Fence.constructor | Engine/src/Renderer/Vulkan/VulkanFence.c:24-35 | a zeroed fence: null handle, unsignalled |
| VulkanFence.Fence.Create | Engine/src/Renderer/Vulkan/VulkanFence.c:4-22 | isSignaled is the argument; the create flags carry FENCE_CREATE_SIGNALED exactly when it is true; the handle is the driver's |
| VulkanFence.Fence.Wait | Engine/src/Renderer/Vulkan/VulkanFence.c:37-75 | a signalled fence answers true without a driver call; an unsignalled one waits and becomes signalled and answers true only on VK_SUCCESS |
| VulkanFence.Fence.Reset | Engine/src/Renderer/Vulkan/VulkanFence.c:77-84 | unsignalled afterwards; the driver reset is called exactly when it was signalled |
| VulkanFence.Fence.Destroy | Engine/src/Renderer/Vulkan/VulkanFence.c:24-35 | null handle and unsignalled afterwards; the driver destroy is called exactly when the handle was non-null |
| VulkanFence.AfterWait | Engine/src/Renderer/Vulkan/VulkanFence.c:37-75 | the answer is true exactly when the fence was signalled or the driver said SUCCESS, and the new flag equals the answer; the handle is kept |
| VulkanFence.AfterReset | Engine/src/Renderer/Vulkan/VulkanFence.c:77-84 | unsignalled, the handle kept |
| VulkanFence.AfterDestroy | Engine/src/Renderer/Vulkan/VulkanFence.c:24-35 | always the zeroed fence |
| VulkanFence.WaitOnSignaledIgnoresDriver | Engine/src/Renderer/Vulkan/VulkanFence.c:37-72 | on a signalled fence the driver's answer is irrelevant |
| VulkanFence.WaitFailureKeepsUnsignaled | Engine/src/Renderer/Vulkan/VulkanFence.c:51-74 | every non-SUCCESS answer leaves an unsignalled fence unsignalled and answers false |
| VulkanFence.ResetIdempotent | Engine/src/Renderer/Vulkan/VulkanFence.c:77-84 | resetting twice is resetting once |
| VulkanFence.DestroyIdempotent | Engine/src/Renderer/Vulkan/VulkanFence.c:24-35 | destroying twice is destroying once |
| VulkanCommandBuffer.CommandBuffer.constructor | Engine/src/Renderer/Vulkan/VulkanCommandBuffer.c:26-39 | not allocated, null handle |
| VulkanCommandBuffer.CommandBuffer.Allocate | Engine/src/Renderer/Vulkan/VulkanCommandBuffer.c:4-24 | READY with the driver's handle; the level is PRIMARY or SECONDARY per the argument |
| VulkanCommandBuffer.CommandBuffer.Free | Engine/src/Renderer/Vulkan/VulkanCommandBuffer.c:26-39 | NOT_ALLOCATED with a null handle |
| VulkanCommandBuffer.CommandBuffer.Begin | Engine/src/Renderer/Vulkan/VulkanCommandBuffer.c:41-64 | RECORDING; the flags built by successive ORs equal UsageFlags of the three arguments |
| VulkanCommandBuffer.CommandBuffer.End | Engine/src/Renderer/Vulkan/VulkanCommandBuffer.c:66-70 | RECORDING_ENDED |
| VulkanCommandBuffer.CommandBuffer.UpdateSubmitted | Engine/src/Renderer/Vulkan/VulkanCommandBuffer.c:72-75 | SUBMITTED |
| VulkanCommandBuffer.CommandBuffer.Reset | Engine/src/Renderer/Vulkan/VulkanCommandBuffer.c:77-80 | READY |
| VulkanCommandBuffer.CommandBuffer.AllocateAndBeginSingleUse | Engine/src/Renderer/Vulkan/VulkanCommandBuffer.c:82-89 | a primary buffer RECORDING with only the one-time-submit flag, whatever state it started in |
| VulkanCommandBuffer.CommandBuffer.EndSingleUse | Engine/src/Renderer/Vulkan/VulkanCommandBuffer.c:91-111 | submitted while RECORDING_ENDED, then NOT_ALLOCATED with a null handle |
| VulkanCommandBuffer.Trace | Engine/src/Renderer/Vulkan/VulkanCommandBuffer.c:41-80 | one visited state per operation |
| VulkanCommandBuffer.RunIsLastTarget | Engine/src/Renderer/Vulkan/VulkanCommandBuffer.c:41-80 | after any non-empty sequence of operations the state is the one the last operation sets, from any start |
| VulkanCommandBuffer.TraceIsTargets | Engine/src/Renderer/Vulkan/VulkanCommandBuffer.c:41-80 | the i-th visited state is the i-th operation's target |
| VulkanCommandBuffer.Lifecycle | Engine/src/Renderer/Vulkan/VulkanCommandBuffer.c:4-80 | allocate, begin, render-pass begin and end, end, submit, reset visits READY, RECORDING, IN_RENDER_PASS, RECORDING, RECORDING_ENDED, SUBMITTED, READY |
| VulkanCommandBuffer.UsageFlagsDecode | Engine/src/Renderer/Vulkan/VulkanCommandBuffer.c:47-63 | each usage bit is set exactly when its argument is true, no other bit is ever set, and the flags are 0 exactly when no argument is true |
| VulkanRenderpass.Description | Engine/src/Renderer/Vulkan/VulkanRenderpass.c:30-105 | well formed (references in range with the right layouts, dependency subpasses valid); two single-sample attachments with DONT_CARE stencil ops: colour in the given format, CLEAR/STORE, UNDEFINED to PRESENT_SRC; depth in the given format, CLEAR/DONT_CARE, UNDEFINED to DEPTH_STENCIL_ATTACHMENT_OPTIMAL; one subpass with colour reference 0 and depth reference 1; one dependency EXTERNAL to 0 on colour-attachment output, no source access, colour read and write access |
| VulkanRenderpass.Renderpass.constructor | Engine/src/Renderer/Vulkan/VulkanRenderpass.c:116-123 | a render pass with a null handle |
| VulkanRenderpass.Renderpass.Create | Engine/src/Renderer/Vulkan/VulkanRenderpass.c:4-114 | the area, clear colour, depth and stencil are stored as given; the description passed to the driver is Description of the two formats; the handle is the driver's |
| VulkanRenderpass.Renderpass.Begin | Engine/src/Renderer/Vulkan/VulkanRenderpass.c:125-152 | the buffer is IN_RENDER_PASS; the begin info carries this render pass, the framebuffer and the colour then depth/stencil clear values |
| VulkanRenderpass.Renderpass.End | Engine/src/Renderer/Vulkan/VulkanRenderpass.c:154-158 | the buffer is RECORDING |
| VulkanRenderpass.Destroy | Engine/src/Renderer/Vulkan/VulkanRenderpass.c:116-123 | destroys exactly when the render pass and its handle are non-null; afterwards the handle is 0, so a second call does nothing; the other fields are kept |
| VulkanRenderpass.BeginEndRestoresRecording | Engine/src/Renderer/Vulkan/VulkanRenderpass.c:125-158 | begin then end on a RECORDING buffer leaves it RECORDING |
| VulkanSwapchain.SurfaceFormatChoice | Engine/src/Renderer/Vulkan/VulkanSwapchain.c:106-124 | the chosen format is one the surface offers |
| VulkanSwapchain.ChooseSurfaceFormat | Engine/src/Renderer/Vulkan/VulkanSwapchain.c:106-124 | the search loop stops at the first B8G8R8A8_UNORM/SRGB_NONLINEAR entry, else takes formats[0]; at least one format is a precondition |
| VulkanSwapchain.PresentModeChoice | Engine/src/Renderer/Vulkan/VulkanSwapchain.c:127-136 | always MAILBOX or FIFO |
| VulkanSwapchain.ChoosePresentMode | Engine/src/Renderer/Vulkan/VulkanSwapchain.c:127-136 | MAILBOX if it appears anywhere in the list, otherwise FIFO |
| VulkanSwapchain.ExtentWithinLimits | Engine/src/Renderer/Vulkan/VulkanSwapchain.c:145-154 | with min <= max each side of the extent lies in [min, max]; a current extent in range is kept when its width is not UINT32_MAX, a requested size in range is kept when it is |
| VulkanSwapchain.ImageCountBounds | Engine/src/Renderer/Vulkan/VulkanSwapchain.c:156-160 | minImageCount + 1, capped at maxImageCount when that is non-zero and smaller |
| VulkanSwapchain.MaxFramesInFlight | Engine/src/Renderer/Vulkan/VulkanSwapchain.c:162 | image count - 1 in u32 arithmetic (UINT32_MAX for 0) |
| VulkanSwapchain.SingleImageSurfaceHasNoFrameInFlight | Engine/src/Renderer/Vulkan/VulkanSwapchain.c:157-162 | a surface allowing exactly one image gives maxFramesInFlight 0, the divisor Present then uses |
| VulkanSwapchain.Sharing | Engine/src/Renderer/Vulkan/VulkanSwapchain.c:175-189 | CONCURRENT over both families exactly when the graphics and present indices differ, else EXCLUSIVE with no family list |
| VulkanSwapchain.AfterCreate | Engine/src/Renderer/Vulkan/VulkanSwapchain.c:102-253 | the chosen format, maxFramesInFlight from the image count, the driver's handle, images and views; the buffers are sized on the first create only |
| VulkanSwapchain.Swapchain.constructor | Engine/src/Renderer/Vulkan/VulkanSwapchain.c:203-213 | a zeroed swapchain with null image and view buffers |
| VulkanSwapchain.Swapchain.Create | Engine/src/Renderer/Vulkan/VulkanSwapchain.c:102-253 | the create info is Configure: format and mode from the support known before, extent and image count from the requeried support; the context holds the requeried support and currentFrame 0; the fields are AfterCreate |
| VulkanSwapchain.Swapchain.Destroy | Engine/src/Renderer/Vulkan/VulkanSwapchain.c:255-267 | every view is destroyed, in order, then the swapchain |
| VulkanSwapchain.Swapchain.Recreate | Engine/src/Renderer/Vulkan/VulkanSwapchain.c:20-29 | destroy then create, so the same outcome as Create, currentFrame 0 included |
| VulkanSwapchain.Swapchain.AcquireNextImageIndex | Engine/src/Renderer/Vulkan/VulkanSwapchain.c:39-68 | true exactly on SUCCESS or SUBOPTIMAL; OUT_OF_DATE recreates at the framebuffer size and answers false; anything else answers false with no change |
| VulkanSwapchain.Swapchain.Present | Engine/src/Renderer/Vulkan/VulkanSwapchain.c:70-100 | OUT_OF_DATE and SUBOPTIMAL recreate; then currentFrame = (c + 1) mod maxFramesInFlight in u32 arithmetic, c being 0 after a recreate, so it stays below maxFramesInFlight |
| VulkanSwapchain.Advance | Engine/src/Renderer/Vulkan/VulkanSwapchain.c:99 | the next frame index is below maxFramesInFlight |
| VulkanSwapchain.PresentsCountModulo | Engine/src/Renderer/Vulkan/VulkanSwapchain.c:88-99 | from 0, after k presents without recreation the frame index is k mod maxFramesInFlight |
| VulkanDevice.LastFamily | Engine/src/Renderer/Vulkan/VulkanDevice.c:229-288 | a family index or the -1 sentinel |
| VulkanDevice.LastFamilyIsLast | Engine/src/Renderer/Vulkan/VulkanDevice.c:252-289 | graphics, compute and present each end at the last family with that capability, and stay at -1 exactly when none has it |
| VulkanDevice.TransferPick | Engine/src/Renderer/Vulkan/VulkanDevice.c:251-280 | a family index or the -1 sentinel |
| VulkanDevice.TransferPickIsLastMinimum | Engine/src/Renderer/Vulkan/VulkanDevice.c:251-280 | the transfer family is transfer-capable, has the lowest score (graphics + compute) among transfer-capable families, every later one scores strictly higher (ties go to the later family), the running minimum is its score; -1 and 255 exactly when no family offers transfer |
| VulkanDevice.DedicatedTransferPreferred | Engine/src/Renderer/Vulkan/VulkanDevice.c:273-279 | when some transfer family has neither graphics nor compute, the pick is such a family at or after it |
| VulkanDevice.TransferScore | Engine/src/Renderer/Vulkan/VulkanDevice.c:254-268 | the score is at most 2, so the u8 counters never wrap |
| VulkanDevice.ScanQueueFamilies | Engine/src/Renderer/Vulkan/VulkanDevice.c:229-289 | the family loop's out-indices are exactly the last graphics, present and compute families and the transfer pick |
| VulkanDevice.HasExtensions | Engine/src/Renderer/Vulkan/VulkanDevice.c:349-368 | the nested search succeeds exactly when every required name is among the available ones |
| VulkanDevice.MeetsRequirements | Engine/src/Renderer/Vulkan/VulkanDevice.c:219-385 | true exactly when the device passes, in order, the discrete-GPU check, the queue check, at least one format and present mode, the extension check (skipped with no list or no available extensions) and the anisotropy check; the swapchain support is queried exactly when the first two pass; the indices stay -1 when the type check fails |
| VulkanDevice.FirstSuitable | Engine/src/Renderer/Vulkan/VulkanDevice.c:112-205 | the first device meeting the requirements, none before it does; None exactly when none does |
| VulkanDevice.FirstSuitableIs | Engine/src/Renderer/Vulkan/VulkanDevice.c:112-205 | a device that meets the requirements with none before it is the one selected |
| VulkanDevice.NoneSuitable | Engine/src/Renderer/Vulkan/VulkanDevice.c:112-205 | when no device meets the requirements, none is selected |
| VulkanDevice.SelectPhysicalDevice | Engine/src/Renderer/Vulkan/VulkanDevice.c:100-217 | fails on zero devices; otherwise selects the first suitable device and records its graphics, present and transfer indices and its support; with none suitable nothing is selected, the answer is whether a device was already held, and the support is that of the last device queried |
| VulkanDevice.NonDiscreteRejected | Engine/src/Renderer/Vulkan/VulkanDevice.c:235-242 | under the engine's requirements a non-discrete device is never suitable |
| RendererFrontEnd.Renderer.constructor | Engine/src/Renderer/RendererFrontEnd.c:9 | no backend yet |
| RendererFrontEnd.Renderer.Initialize | Engine/src/Renderer/RendererFrontEnd.c:11-26 | the backend is allocated under MEMORY_TAG_RENDERER (total and tag charged), exists even if it fails to initialise, frameNumber 0; the answer is the backend's |
| RendererFrontEnd.Renderer.Shutdown | Engine/src/Renderer/RendererFrontEnd.c:28-32 | the backend's memory is refunded under MEMORY_TAG_RENDERER |
| RendererFrontEnd.Renderer.BeginFrame | Engine/src/Renderer/RendererFrontEnd.c:34-37 | the backend's answer, with no state change |
| RendererFrontEnd.Renderer.EndFrame | Engine/src/Renderer/RendererFrontEnd.c:39-44 | frameNumber goes up by exactly one whatever the backend answers; the answer is the backend's |
| RendererFrontEnd.Renderer.OnResized | Engine/src/Renderer/RendererFrontEnd.c:46-55 | the size is passed on exactly when a backend exists, otherwise nothing changes |
| RendererFrontEnd.Renderer.DrawFrame | Engine/src/Renderer/RendererFrontEnd.c:57-76 | the end is reached exactly when the begin succeeded; a failed begin skips the frame (counter unchanged, answer true); otherwise the frame is counted and the answer is false exactly when the end failed |
| RendererFrontEnd.AfterDraw | Engine/src/Renderer/RendererFrontEnd.c:57-76 | the counter moves by one exactly when the begin succeeded, and the answer is false exactly when the begin succeeded and the end failed |
| RendererFrontEnd.FrameNumberCountsBegunFrames | Engine/src/Renderer/RendererFrontEnd.c:39-76 | over any sequence of frames, frameNumber grows by exactly the number of frames whose begin succeeded |
| RendererFrontEnd.SkippedFramesNotCounted | Engine/src/Renderer/RendererFrontEnd.c:57-76 | frames whose begin fails never move the counter |
| RendererFrontEnd.SucceededBeginsFront | Engine/src/Renderer/RendererFrontEnd.c:57-76 | the count of successful begins can be taken from the first frame on as well as from the last |
| RendererFrontEnd.NoBegins | Engine/src/Renderer/RendererFrontEnd.c:57-76 | a run of frames with no successful begin counts zero begun frames |

## Left out

- Platform layer, logging and asserts are not modelled: windowing, message pumps, console output, clocks and file I/O are not computation over the engine's state.
- Thin Vulkan wrappers are not modelled, because they only forward to the driver: buffers, images, framebuffers, pipelines, shaders, instance creation and the backend vtable.
- VulkanDeviceCreate, the logical device and queue retrieval, and depth-format detection are not modelled. The model begins at the device list the driver enumerates (`PhysicalDevice` values).
- The copies of device properties, features and memory, and the selection log output, are left out. They are only logged or stored.
- VulkanDevice.MeetsRequirements: the temporary TAllocate/TFree of the extension list appear nowhere in the memory statistics. The `requirements.deviceExtensionNames` DArray that SelectPhysicalDevice creates for every device and never destroys is not modelled.
- VulkanDevice.MeetsRequirements: VulkanDeviceQuerySwapchainSupport's buffer reuse, and the TFree of the formats and present modes when a count is 0, are not modelled. The queried support is a value.
- VulkanSwapchain.Swapchain.Create: the depth attachment (format detection and image creation) is not modelled. The image views are taken from the driver rather than created one by one.
- VulkanSwapchain.Swapchain.Create: the image and view buffers are sized on the first Create and reused afterwards. Recreating with more images would overrun them, so `CanCreate` requires the new images to fit.
- VulkanSwapchain.Swapchain.Present: when maxImageCount is 1, maxFramesInFlight is 0 and the frame advance divides by zero (see SingleImageSurfaceHasNoFrameInFlight). A positive maxFramesInFlight is a precondition.
- VulkanSwapchain.Swapchain.AcquireNextImageIndex: the acquired image index is not modelled. Only the result handling is.
- VulkanSwapchain.Swapchain.Destroy: only the handles destroyed are returned. The C struct keeps its now-dangling handles, and so does the model.
- VulkanCommandBuffer.CommandBuffer.Allocate: the `TZeroMemory` of pointer size over the whole struct is not modelled. The fields are assigned directly.
- VulkanRenderpass.Renderpass.Create: the f32 area, colour and depth values are stored and passed on as `real`, with no floating-point arithmetic. The render area's conversion to integers in Begin is not modelled.
- The numeric values of the command-buffer state and the queue-family info types come from VulkanTypes.inl. That file is not part of this model, so the states are an enumeration. The Vulkan constants take their values from the Vulkan headers.
- Input.h is not part of this model, so BUTTON_MAX_BUTTONS is the constructor parameter `buttonCount`. The key enumeration is KeyCount = 256, the size of its state array.
- Input.InputSystem.Update: the frame time `dt` is unused by the C code and is dropped.
- Input events go to the `fired` log rather than to EventFire, so their dispatch is not composed with the event registry.
- Event.EventSystem.Register: a code below MAX_MESSAGE_CODES (16384) is a precondition, because the C table is indexed without a check. The same holds for Unregister and Fire.
- Event.EventSystem.Fire: callbacks are a pure oracle. A callback that registers or unregisters during dispatch is not modelled; this matters because C reads the list length once at Event.c:134.
- Event.EventSystem.Shutdown: the DArrayDestroy of each list is not charged to the memory statistics. Registration lists are sequences rather than DArrays.
- DArray.DynArray: the header-before-data byte layout, the stride in bytes and the `typeof` macros are not modelled. Elements are generic values in an `array<T>` whose length is the capacity.
- DArray.DynArray.PopAt: C copies `length - index` elements (one slot past the logical end) with an overlapping `TCopyMemory`. The model shifts exactly the elements after the index, so it does not cover the read past the end or the overlap.
- DArray.DynArray.InsertAt: the overlapping `TCopyMemory` is modelled as the intended move upward. Whether the platform copy handles the overlap is not modelled.
- DArray.DynArray.Resize and Push: the memory statistics for the DArray tag are not updated by these methods. `_DArrayCreate`/`_DArrayDestroy` charging is covered by TMemory.MemoryStats alone.
- TMemory.MemoryStats.Allocate: counters are unbounded `nat`s, so the u64 wrap of `totalAllocated` and the tag counter on `+= size` (TMemory.c:53-54) is not modelled; the C counters would need 2^64 bytes outstanding to wrap.
- TMemory.MemoryStats.Free: counters are unbounded `nat`s. The u64 wrap-around of an over-free is excluded by the precondition rather than modelled.
- GetMemoryUsageStr is not modelled: it uses float division and string formatting.
- RendererFrontEnd.Renderer: the backend's frameNumber is an unbounded `nat`, so its u64 wrap is not modelled. The backend's own initialize, shutdown, begin, end and resize are not modelled: its frame functions are stubs.
- RendererFrontEnd.Renderer.BeginFrame, EndFrame and DrawFrame: the frame time is unused by the front end and is dropped.
- RendererFrontEnd.Renderer.Shutdown: the backend pointer is not cleared in C, so the model keeps reporting a backend.

## Findings

| source | as written | input that shows it | evidently intended | confidence | as-written member | corrected member |
|---|---|---|---|---|---|---|
| Engine/src/Containers/DArray.c:121-130 | when `index == length - 1` the outward copy is skipped, so the value overwrites the old last element and the length grows over the slot past the end | contents [a, b], capacity 4, slot 2 holding stale z; InsertAt(1, v) leaves [a, v, z] | [a, v, b]: the elements from `index` on move one place outward at every accepted index | not executed | DArray.DynArray.InsertAt (with DArray.InsertAtLastDiffers) | DArray.DynArray.InsertAtShifted |
| Engine/src/Memory/LinearAllocator.c:42-51 | the bounds test `allocated + size > totalSize` and the bump `allocated += size` are u64 sums that wrap, so a request of nearly 2^64 bytes passes the test and moves the offset backwards | totalSize 16: Allocate(8) gives offset 0; Allocate(2^64 - 8) gives offset 8 with the offset wrapping to 0; Allocate(8) gives offset 0 again, overlapping the first block | a request larger than the bytes remaining is refused, so blocks stay inside the buffer and never overlap | not executed | LinearAllocator.LinearAllocator.AllocateAsWritten (with LinearAllocator.WrappedAllocateOverlaps) | LinearAllocator.LinearAllocator.Allocate |
