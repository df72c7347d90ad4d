# vulkan-sdl2-demo: the frame loop and the context set-up, in Dafny

The demo opens an SDL2 window, sets up Vulkan through a `VulkanContext` and then runs a
Dear ImGui frame loop. Almost all of its code calls libraries. This model covers the
parts that make decisions, and every library or driver call becomes an input value:

- **`Vk`** (`vk.dfy`) holds the Vulkan and SDL2 values the demo inspects, as plain data
  with the headers' numeric codes: `VkResult` as a 32-bit signed code, `VkBool32`, the
  queue and descriptor-pool flag bits, device types, descriptor types, formats, present
  modes and the SDL events. It also defines `Outcome`, which says how an operation ends:
  normally, or with the `runtime_error` or `invalid_argument` the source throws.
- **`CallTrace`** (`call_trace.dfy`) defines a record of the graphics calls the frame loop
  makes, in order. It defines the swapchain-rebuild flag as a function of that record
  (`Pending`), and the loop's rule for each call (`Allowed`): no present while a rebuild is
  pending, and no rebuild unless one is. It proves what that rule implies for whole runs:
  - once acquisition or presentation asks for a rebuild, no present happens until a rebuild has;
  - two rebuilds are always separated by a report that asked for one.
- **`Context`** (`vulkan_context.dfy`) models `VulkanContext` as a class:
  - a constructor that selects the physical device and the graphics queue family, sizes the
    descriptor pool and sets the member defaults;
  - `SetupWindow` with its surface-support check;
  - the validation callback's return value.

  The two selection loops are methods proved against first-match search functions, and
  lemmas state what the searches find.
- **`FrameLoop`** (`frame_loop.dfy`) models `checkVkResult`, `frameRender`, `framePresent`
  and the `while (!Done)` loop of `main`. The loop's parts are separate methods: event
  polling, the rebuild at the top of the loop, the minimised-display skip, and render and
  present. Each method states the calls it adds to the record, how it ends, and the window
  record it leaves (the rebuild flag, `ImageCount`, `FrameIndex` and `SemaphoreIndex`).
  Each keeps the invariant `Ready()`: the flag equals `Pending` of the record, and the
  record keeps the rule. `MainLoop` is proved against `Run`, the state after a number of
  passes, so the whole-run lemmas of `CallTrace` apply to every run of it.

Inputs the driver or a library supplies:
- the list of enumerated physical devices;
- the surface-support answer, and the format, present mode and swapchain image count the
  UI library chooses;
- each Vulkan call's `VkResult`, and the image index that acquisition writes;
- the queued SDL events, the window size and the UI's display size, once per pass of the loop.

A pass of `main`'s loop gets all of these as one `FrameInput` value. `MainLoop` runs over a
finite sequence of such values.

Details where the model follows the code closely:
- `checkVkResult` rejects every non-zero result, positive status codes such as
  `VK_SUBOPTIMAL_KHR` included. `frameRender` and `framePresent` test for out-of-date and
  suboptimal results themselves before they call it.
- `setupWindow` stores the surface before it checks support.
- `(SemaphoreIndex + 1) % ImageCount` is computed in 32-bit unsigned arithmetic, so the
  sum wraps at 2^32 before the remainder is taken.
- A queue family index is the loop's `size_t` counter stored in a `uint32_t`. Vulkan
  reports the family count as a `uint32_t`, so every index fits, and no index equals the
  `uint32_t(-1)` sentinel.

## Model

| member | source | states |
|---|---|---|
| FrameLoop.CheckVkResult | main.cpp:8-13 | returns normally exactly when the result is 0; any other result, positive ones included, fails with that result as a Vulkan error |
| FrameLoop.UpToFirstFailureShape | main.cpp:30-84 | a chain of checked calls stops at the first failure: the calls made are a prefix of the chain; only the last call made can fail; all calls are made and the run passes exactly when none fails; a failing run reports the last call's result |
| FrameLoop.StopsAt | main.cpp:30-84 | if the first k checked calls pass and call k fails, exactly k+1 calls are made and the run fails with call k's result |
| FrameLoop.RunsThrough | main.cpp:30-84 | if no checked call fails, every call is made and the run passes |
| FrameLoop.FrameCalls | main.cpp:34-84 | frameRender has nine calls after the acquisition |
| FrameLoop.FirstFailure | main.cpp:30-84 | a chain of checked calls that throws does so with a Vulkan error whose result is not 0 |
| FrameLoop.CallsMade | main.cpp:34-84 | frameRender makes between 1 and 9 of its calls after the acquisition |
| FrameLoop.FrameCallsMade | main.cpp:34-84 | after a successful acquisition, the calls made are the first CallsMade of the nine: fence wait, fence reset, pool reset, begin, the render pass with the UI's draw data, end and submit, stopping at the first failing check |
| FrameLoop.FrameCallsOutcome | main.cpp:34-84 | after a successful acquisition, frameRender returns normally exactly when all six checks pass; otherwise it fails with the result of the last call made |
| FrameLoop.FrameCallsNeutral | main.cpp:34-84 | none of the calls after acquisition is a present or a rebuild |
| FrameLoop.FrameRunNeutral | main.cpp:34-84 | none of the calls frameRender actually makes after acquisition, up to the first failing check, is a present or a rebuild |
| FrameLoop.RenderOutcome | main.cpp:15-86 | frameRender only throws Vulkan errors with a non-zero result |
| FrameLoop.FrameSubmitted | main.cpp:23-84 | no call follows an acquisition that did not succeed; the frame is submitted exactly when the acquisition and the five checks before the submit succeeded |
| FrameLoop.RenderPasses | main.cpp:26-84 | frameRender returns normally exactly when acquisition reports out-of-date or suboptimal, or when acquisition and all six later checks succeed; any other acquisition result is fatal |
| FrameLoop.NeutralAppend | main.cpp:34-84 | calls that neither present nor rebuild leave the rebuild flag unchanged and keep the call rules |
| FrameLoop.RecordAndSubmit | main.cpp:32-85 | the checks after acquisition, one by one, each call added to the calls made as it is made and the method returning at the first failing check: the calls made and the outcome are those of the first-failure run of the nine frame calls, and none of those calls presents or rebuilds |
| FrameLoop.AcquireNextImage | main.cpp:23-29 | records the acquisition; writes FrameIndex only when an image is acquired (success or suboptimal); raises the rebuild flag exactly on out-of-date or suboptimal; keeps Ready |
| FrameLoop.FrameRender | main.cpp:15-86 | the calls added are RenderTrace (only the acquisition unless it succeeded); the outcome is RenderOutcome; the flag is raised exactly on out-of-date or suboptimal; FrameIndex is written as AcquireNextImage says and nothing else changes; keeps Ready |
| FrameLoop.SubmitFrame | main.cpp:32-85 | the context's record grows by exactly the calls RecordAndSubmit makes, the outcome is theirs, and Ready is kept |
| FrameLoop.NextSemaphoreIndex | main.cpp:111 | the next index is below ImageCount, and for an index already below ImageCount it equals (index + 1) mod ImageCount; the 32-bit wrap of the sum is modelled |
| FrameLoop.FramePresent | main.cpp:88-112 | with the flag set: no present and nothing changes; otherwise one present is recorded, the flag is raised exactly on out-of-date or suboptimal, any other non-zero result is fatal, and only a successful present advances SemaphoreIndex, keeping it below ImageCount |
| FrameLoop.RebuildSwapChain | main.cpp:224-240 | rebuilds only when the flag is set and width and height are both positive; a rebuild installs the new image count, sets FrameIndex to 0 and clears the flag; otherwise the flag and the window record are unchanged; keeps Ready |
| FrameLoop.PollEvents | main.cpp:213-222 | Done afterwards is true exactly when it was true before, or one of the events is SDL_QUIT or a close event for this window; it never goes back to false |
| FrameLoop.CloseRequestedStep | main.cpp:202-222 | one more pass ends the loop exactly when the events seen so far, or that pass's events, ask to close |
| FrameLoop.FrameOutcome | main.cpp:283-293 | rendering and presenting one frame only throws Vulkan errors with a non-zero result |
| FrameLoop.FrameWindow | main.cpp:15-112 | rendering and presenting one frame leaves ImageCount unchanged |
| FrameLoop.RenderAndPresent | main.cpp:283-293 | the calls added are those of frameRender and then framePresent (no present after a failed render, and none while the flag is set); the outcome is FrameOutcome; the window record is FrameWindow: FrameIndex written by the acquisition, SemaphoreIndex advanced only by a successful present; keeps Ready |
| FrameLoop.IterationOutcome | main.cpp:203-293 | one pass of the loop only throws Vulkan errors with a non-zero result |
| FrameLoop.IterationWindow | main.cpp:203-293 | after one pass of the loop the swapchain still has a positive image count |
| FrameLoop.Iteration | main.cpp:203-293 | one pass of the loop: Done as PollEvents says; the calls added are the rebuild then, unless the display has no area, render and present; the outcome is IterationOutcome; the window record is IterationWindow (the rebuild's new ImageCount and FrameIndex 0, then the frame's updates); keeps Ready |
| FrameLoop.Run | main.cpp:202-294 | the state after any number of passes keeps a positive image count |
| FrameLoop.AfterPass | main.cpp:203-293 | the state after one more pass keeps a positive image count |
| FrameLoop.PassWindow | main.cpp:203-293 | the window record one pass leaves keeps a positive image count |
| FrameLoop.PassStep | main.cpp:203-293 | one pass from the state after k passes adds the pass's calls, updates the window record and ends with the pass's outcome, with the rebuild flag read off the calls made so far |
| FrameLoop.RunAllPassed | main.cpp:202-294 | after n passes every pass has returned normally exactly when each of the n passes' outcomes is Pass |
| FrameLoop.RunPass | main.cpp:203-293 | a pass moves the context from Run after k passes to Run after k+1 passes, and returns that state's outcome |
| FrameLoop.MainLoop | main.cpp:202-294 | the calls made, the window record and the outcome are those of Run over the passes made; every pass before a thrown error returned normally, and when no error is thrown every pass returned normally; the loop stops at the first pass whose events ask to close (no pass runs after it), and otherwise only when an error is thrown or the input runs out; keeps Ready, so the call-record rules hold over the whole run |
| CallTrace.PendingAppend | main.cpp:224-240 | a rebuild clears the flag, an out-of-date or suboptimal acquisition or present raises it, and every other call leaves it unchanged |
| CallTrace.TraceOkAppend | main.cpp:88-90 | extending a good record by a call that keeps the rule keeps it good |
| CallTrace.TraceOkAt | main.cpp:88-90 | in a good record, every call kept the rule when it was made |
| CallTrace.PendingNeedsRaise | main.cpp:102-106 | if the flag goes from clear to set between two points, some call in between raised it |
| CallTrace.ClearNeedsResize | main.cpp:237-238 | if the flag goes from set to clear between two points, some call in between was a rebuild |
| CallTrace.ResizesSeparatedByRaise | main.cpp:224-240 | in a good record, two rebuilds always have a call between them that asked for one: after a resize, at most one rebuild happens before the next request |
| CallTrace.RaiseThenResizeBeforePresent | main.cpp:88-112 | in a good record, after an out-of-date or suboptimal report, the next present comes only after a rebuild |
| Context.DebugMessengerVerdict | vulkan_context.h:11-63 | returns VK_FALSE exactly for message IDs 648835635 and 767975156 in a debug build, and VK_TRUE otherwise |
| Context.FirstDiscrete | vulkan_context.h:113-121 | the search from a position returns a position at or after it and no further than the end |
| Context.PreferredDevice | vulkan_context.h:110-121 | the selected index is a valid index of the non-empty device list |
| Context.FirstDiscreteIsFirst | vulkan_context.h:113-121 | the search from a position finds a discrete GPU with none before it, or reaches the end with none found |
| Context.PreferredDeviceIsFirstDiscrete | vulkan_context.h:110-121 | the selected device is the first discrete GPU when one exists, and the first device when none does |
| Context.SelectPhysicalDevice | vulkan_context.h:112-121 | the loop that starts from front() and stops at the first discrete GPU selects the PreferredDevice index |
| Context.FirstGraphics | vulkan_context.h:125-131 | the search from a position returns a position at or after it and no further than the end |
| Context.GraphicsQueueFamily | vulkan_context.h:123-131 | the index is the default uint32(-1) of line 219 or the index of a queue family |
| Context.FirstGraphicsIsFirst | vulkan_context.h:125-131 | the search from a position finds a family with the graphics bit and none before it, or reaches the end with none found |
| Context.GraphicsQueueFamilyIsFirst | vulkan_context.h:123-131 | the index is the smallest index of a family whose flags include the graphics bit; it is the sentinel exactly when no family has that bit |
| Context.FindGraphicsQueueFamily | vulkan_context.h:123-131 | the loop that starts from the sentinel and stops at the first graphics family yields GraphicsQueueFamily |
| Context.UiDescriptorPool | vulkan_context.h:144-159 | the pool lets individual sets be freed, allows 10000 sets and has ten entries |
| Context.DescriptorTypeCode | vulkan_context.h:145-155 | every descriptor type used has a Vulkan code from 0 to 10 |
| Context.UiDescriptorPoolCounts | vulkan_context.h:145-159 | every entry holds 1000 descriptors, and together the entries hold as many descriptors as the pool allows sets |
| Context.TotalOfUniform | vulkan_context.h:145-155 | entries that each hold c descriptors hold c times their number together |
| Context.LeastTypeFirst | vulkan_context.h:145-155 | in entries ordered by increasing type code, the first has a smaller code than every later one |
| Context.IncreasingTypesAreDistinct | vulkan_context.h:145-155 | entries ordered by increasing type code have pairwise-distinct types |
| Context.UiDescriptorPoolDistinct | vulkan_context.h:145-155 | the pool's entries are in increasing Vulkan type-code order, so their descriptor types are pairwise distinct |
| Context.UiDescriptorPoolTypes | vulkan_context.h:145-155 | the pool has an entry for a descriptor type exactly when that type is not a storage texel buffer |
| Context.RequestedPresentModes | vulkan_context.h:184-190 | FIFO is always requested, and last; more than one mode is requested exactly with an unlimited frame rate, and then MAILBOX comes first |
| Context.VulkanContext.constructor | vulkan_context.h:99-163 | stores the preferred device, the graphics queue family of that device and the UI pool; sets the window record to its defaults and, as the member defaults at lines 224-226 say, MinImageCount to 2; leaves the rebuild flag clear and the call record empty |
| Context.VulkanContext.SetupWindow | vulkan_context.h:165-200 | the surface is stored first; without VK_TRUE support it fails with invalid_argument and changes nothing else; otherwise it stores the chosen format, present mode and swapchain image count, which leaves the context Ready |

## Left out

- `format.h` and every `errsv` log line are text output to stderr and carry no logic.
- Every Vulkan, SDL2 and Dear ImGui call is a foreign library call. Its result is an input,
  and its side effects on the GPU are not modelled: instance, device, queue, surface and
  swapchain creation; fence waits; command recording; submission and presentation;
  `ImGui_ImplVulkanH_CreateOrResizeWindow`; surface-format and present-mode selection.
- Fence and semaphore signalling and the indefinite timeouts are GPU synchronisation that the
  driver enforces. The per-frame `Frames` and `FrameSemaphores` arrays are not modelled, only
  the two indices into them.
- `FrameLoop.RebuildSwapChain` and `Context.VulkanContext.SetupWindow` assume that
  `ImGui_ImplVulkanH_CreateOrResizeWindow` gives the swapchain a positive image count. Its
  effect on `SemaphoreIndex` is not something this code shows, so the model leaves that
  index alone. For the same reason, `SemaphoreIndex < ImageCount` is only claimed after a
  successful present, not kept as an invariant.
- `FrameLoop.AcquireNextImage`: which results come with a written image index is Vulkan's
  rule for `vkAcquireNextImageKHR` (an image on success or suboptimal). Driver code is not
  part of this model.
- `FrameLoop.IsMinimized`: the UI's display size is a `float` in the source and a `real`
  here, so a NaN size, which the source does not count as minimised, has no counterpart.
- The clear-colour premultiplication, the ImGui widgets, the slider float, the static
  button counter and the framerate text are floating-point UI content with no effect on the
  loop's control.
- The debug callback's logging loops and the instance-create structure chain do not affect
  the callback's return value, which is the only part modelled.
- `Context.VulkanContext.constructor` requires a non-empty device list, because the source
  calls `front()` on the enumeration result without a check. It also requires every queue
  family count to fit in a `uint32_t`, as Vulkan's count type does. Exceptions from
  `vk::createInstance`, `createDevice` and `createDescriptorPool` are not modelled. The
  created pool is represented by its create info.
- The failed `SDL_Vulkan_CreateSurface` path (return 1), font upload, and the top-level
  `catch` (log, return -1) are not modelled. A thrown error ends `FrameLoop.MainLoop` with
  a `Fail` outcome.
- `FrameLoop.MainLoop` runs over a finite sequence of per-pass inputs. A run that never
  asks to close is modelled only up to the end of that sequence.
- `FrameLoop.RebuildSwapChain`: the checkVkResult hook handed to the UI library at
  main.cpp:169 lets `ImGui_ImplVulkanH_CreateOrResizeWindow` throw from inside the
  library. The library is not part of this model, so a rebuild is taken to succeed.
- `FrameLoop.RecordAndSubmit`: `ImGui_ImplVulkan_RenderDrawData` can also throw through
  that hook when one of the library's own Vulkan calls fails. The model records it as a
  call that returns nothing.
- `Context.VulkanContext.SetupWindow`: whether `ImGui_ImplVulkanH_CreateOrResizeWindow` can
  fail during set-up depends on the library's checking, which is not part of this model.
  Set-up is taken to create the swapchain. The surface format and present mode the library
  selects are inputs. Nothing ties them to `REQUEST_SURFACE_IMAGE_FORMATS`,
  `REQUEST_SURFACE_COLOR_SPACE` or `RequestedPresentModes`, because the selection rules are
  the library's.
- `Context.VulkanContext.SetupWindow` does not add to the call record, which covers the
  frame loop only. The window and display sizes are taken as given, not read from SDL.
