/** The demo's frame loop: poll events, rebuild the swapchain when asked to
    and the window has an area, then render and present one frame unless the
    UI's display is empty. Every graphics call is a step in the context's
    call record; what the driver or a library returns is an input. */
module FrameLoop {
  import opened Vk
  import opened CallTrace
  import opened Context

  /** checkVkResult: only a zero result lets the caller go on; anything
      else, positive status codes included, is thrown as a runtime error. */
  function CheckVkResult(err: VkResult): (o: Outcome)
    ensures o.Pass? <==> err == VK_SUCCESS
    ensures o.Fail? ==> o.error == VulkanError(err)
  {
    if err == VK_SUCCESS then Pass else Fail(VulkanError(err))
  }

  // ---------------------------------------------------------------------
  // frameRender

  /** What vkAcquireNextImageKHR returns, and the image index it would write. */
  datatype AcquireReply = AcquireReply(result: VkResult, imageIndex: uint32)

  /** The driver writes the image index only when an image was acquired. */
  predicate AcquiresImage(r: VkResult) {
    r == VK_SUCCESS || r == VK_SUBOPTIMAL_KHR
  }

  /** The window record after acquisition: `FrameIndex` is the acquired
      image's index when there is one, and nothing else changes. */
  function AcquiredWindow(wd: WindowData, acquire: AcquireReply): (r: WindowData) {
    if AcquiresImage(acquire.result) then wd.(frameIndex := acquire.imageIndex) else wd
  }

  /** What the checked calls after acquisition return, in call order. */
  datatype RenderReplies = RenderReplies(
    waitForFences: VkResult, resetFences: VkResult, resetCommandPool: VkResult,
    beginCommandBuffer: VkResult, endCommandBuffer: VkResult, queueSubmit: VkResult)

  /** The calls frameRender makes after a successful acquisition, if none fails. */
  function FrameCalls(rs: RenderReplies): (cs: Trace)
    ensures |cs| == 9
  {
    [Invoke(WaitForFences, rs.waitForFences),
     Invoke(ResetFences, rs.resetFences),
     Invoke(ResetCommandPool, rs.resetCommandPool),
     Invoke(BeginCommandBuffer, rs.beginCommandBuffer),
     Record(CmdBeginRenderPass),
     Record(RenderDrawData),
     Record(CmdEndRenderPass),
     Invoke(EndCommandBuffer, rs.endCommandBuffer),
     Invoke(QueueSubmit, rs.queueSubmit)]
  }

  /** A checked call whose result makes checkVkResult throw. */
  predicate Fails(c: Call) {
    c.Invoke? && c.result != VK_SUCCESS
  }

  /** The calls actually made from `cs`: all of them up to and including the
      first that fails. */
  ghost function UpToFirstFailure(cs: Trace): Trace {
    if cs == [] then []
    else if Fails(cs[0]) then [cs[0]]
    else [cs[0]] + UpToFirstFailure(cs[1..])
  }

  /** How running `cs` ends: with the error of its first failing call, if any. */
  function FirstFailure(cs: Trace): (o: Outcome)
    ensures o.Fail? ==> o.error.VulkanError? && o.error.result != VK_SUCCESS
  {
    if cs == [] then Pass
    else if Fails(cs[0]) then Fail(VulkanError(cs[0].result))
    else FirstFailure(cs[1..])
  }

  /** Running the calls stops exactly at the first failure: what is made is a
      prefix in which only the last call may fail, the whole sequence is made
      exactly when the run passes, and a failing run reports the last call's
      result. */
  lemma {:induction false} UpToFirstFailureShape(cs: Trace)
    ensures var p := UpToFirstFailure(cs);
      0 < |p| <= |cs| || cs == []
    ensures var p := UpToFirstFailure(cs);
      p == cs[..|p|] &&
      (forall k :: 0 <= k < |p| - 1 ==> !Fails(p[k])) &&
      (FirstFailure(cs) == Pass <==> p == cs && forall k :: 0 <= k < |cs| ==> !Fails(cs[k])) &&
      (FirstFailure(cs).Fail? ==> Fails(p[|p| - 1]) && FirstFailure(cs) == Fail(VulkanError(p[|p| - 1].result)))
  {
    if cs != [] && !Fails(cs[0]) {
      UpToFirstFailureShape(cs[1..]);
      var p := UpToFirstFailure(cs);
      var q := UpToFirstFailure(cs[1..]);
      assert p == [cs[0]] + q;
      assert cs == [cs[0]] + cs[1..];
      forall k | 0 <= k < |p| - 1 ensures !Fails(p[k]) {
        if k > 0 {
          assert p[k] == q[k - 1];
        }
      }
      if FirstFailure(cs) == Pass {
        forall k | 0 <= k < |cs| ensures !Fails(cs[k]) {
          if k > 0 {
            assert cs[k] == cs[1..][k - 1];
          }
        }
      }
      if forall k :: 0 <= k < |cs| ==> !Fails(cs[k]) {
        assert forall k :: 0 <= k < |cs| - 1 ==> !Fails(cs[1..][k]) by {
          forall k | 0 <= k < |cs| - 1 ensures !Fails(cs[1..][k]) {
            assert cs[1..][k] == cs[k + 1];
          }
        }
      }
    }
  }

  /** When the first `k` calls pass and the next fails, exactly `k + 1` calls
      are made and the run ends with the failing call's error. */
  lemma {:induction false} StopsAt(cs: Trace, k: nat)
    requires k < |cs|
    requires forall j :: 0 <= j < k ==> !Fails(cs[j])
    requires Fails(cs[k])
    ensures UpToFirstFailure(cs) == cs[..k + 1]
    ensures FirstFailure(cs) == Fail(VulkanError(cs[k].result))
  {
    if k > 0 {
      assert !Fails(cs[0]);
      StopsAt(cs[1..], k - 1);
      assert cs[..k + 1] == [cs[0]] + cs[1..][..k];
    }
  }

  /** When no call fails, all are made and the run passes. */
  lemma {:induction false} RunsThrough(cs: Trace)
    requires forall j :: 0 <= j < |cs| ==> !Fails(cs[j])
    ensures UpToFirstFailure(cs) == cs
    ensures FirstFailure(cs) == Pass
  {
    if cs != [] {
      assert !Fails(cs[0]);
      RunsThrough(cs[1..]);
      assert cs == [cs[0]] + cs[1..];
    }
  }

  /** The calls after acquisition change nothing the model tracks but the
      call record, and none of them presents, rebuilds or raises the flag. */
  predicate Neutral(c: Call) {
    c.Invoke? || c.Record?
  }

  /** How many of the frame calls are made: all nine, or up to and including
      the first failing check. */
  function CallsMade(rs: RenderReplies): (n: nat)
    ensures 0 < n <= 9
  {
    if rs.waitForFences != VK_SUCCESS then 1
    else if rs.resetFences != VK_SUCCESS then 2
    else if rs.resetCommandPool != VK_SUCCESS then 3
    else if rs.beginCommandBuffer != VK_SUCCESS then 4
    else if rs.endCommandBuffer != VK_SUCCESS then 8
    else 9
  }

  /** None of the frame calls presents or rebuilds. */
  lemma FrameCallsNeutral(rs: RenderReplies)
    ensures forall i :: 0 <= i < |FrameCalls(rs)| ==> Neutral(FrameCalls(rs)[i])
  {
  }

  /** Running the frame calls makes the first `CallsMade` of them. */
  lemma FrameCallsMade(rs: RenderReplies)
    ensures UpToFirstFailure(FrameCalls(rs)) == FrameCalls(rs)[..CallsMade(rs)]
  {
    var cs := FrameCalls(rs);
    if rs.waitForFences != VK_SUCCESS {
      StopsAt(cs, 0);
    } else if rs.resetFences != VK_SUCCESS {
      StopsAt(cs, 1);
    } else if rs.resetCommandPool != VK_SUCCESS {
      StopsAt(cs, 2);
    } else if rs.beginCommandBuffer != VK_SUCCESS {
      StopsAt(cs, 3);
    } else if rs.endCommandBuffer != VK_SUCCESS {
      StopsAt(cs, 7);
    } else if rs.queueSubmit != VK_SUCCESS {
      StopsAt(cs, 8);
    } else {
      RunsThrough(cs);
    }
  }

  /** Running the frame calls fails with the last call made's error unless
      every check passes. */
  lemma FrameCallsOutcome(rs: RenderReplies)
    ensures FirstFailure(FrameCalls(rs)) ==
              if CallsMade(rs) == 9 && rs.queueSubmit == VK_SUCCESS then Pass
              else Fail(VulkanError(FrameCalls(rs)[CallsMade(rs) - 1].result))
  {
    var cs := FrameCalls(rs);
    if rs.waitForFences != VK_SUCCESS {
      StopsAt(cs, 0);
    } else if rs.resetFences != VK_SUCCESS {
      StopsAt(cs, 1);
    } else if rs.resetCommandPool != VK_SUCCESS {
      StopsAt(cs, 2);
    } else if rs.beginCommandBuffer != VK_SUCCESS {
      StopsAt(cs, 3);
    } else if rs.endCommandBuffer != VK_SUCCESS {
      StopsAt(cs, 7);
    } else if rs.queueSubmit != VK_SUCCESS {
      StopsAt(cs, 8);
    } else {
      RunsThrough(cs);
    }
  }

  /** The calls frameRender makes: the acquisition, and only after a
      successful one the fence wait, recording and submission. */
  ghost function RenderTrace(acquired: VkResult, rs: RenderReplies): Trace {
    [Acquire(acquired)] + if acquired == VK_SUCCESS then UpToFirstFailure(FrameCalls(rs)) else []
  }

  /** How frameRender ends: an out-of-date or suboptimal acquisition returns
      normally (after raising the rebuild flag), any other non-zero result
      throws, and after a successful one the first failing call throws. */
  function RenderOutcome(acquired: VkResult, rs: RenderReplies): (o: Outcome)
    ensures o.Fail? ==> o.error.VulkanError? && o.error.result != VK_SUCCESS
  {
    if NeedsRebuild(acquired) then Pass
    else if acquired != VK_SUCCESS then Fail(VulkanError(acquired))
    else FirstFailure(FrameCalls(rs))
  }

  /** Without a successful acquisition frameRender makes no call after it;
      the frame is submitted exactly when the acquisition succeeded and
      every checked call before the submission did. */
  lemma FrameSubmitted(acquired: VkResult, rs: RenderReplies)
    ensures acquired != VK_SUCCESS ==> RenderTrace(acquired, rs) == [Acquire(acquired)]
    ensures Invoke(QueueSubmit, rs.queueSubmit) in RenderTrace(acquired, rs) <==>
              acquired == VK_SUCCESS && rs.waitForFences == VK_SUCCESS && rs.resetFences == VK_SUCCESS &&
              rs.resetCommandPool == VK_SUCCESS && rs.beginCommandBuffer == VK_SUCCESS &&
              rs.endCommandBuffer == VK_SUCCESS
  {
    var cs := FrameCalls(rs);
    var submit := Invoke(QueueSubmit, rs.queueSubmit);
    if acquired == VK_SUCCESS {
      FrameCallsMade(rs);
      var n := CallsMade(rs);
      assert RenderTrace(acquired, rs) == [Acquire(acquired)] + cs[..n];
      if n == 9 {
        assert cs[..n][8] == submit;
      } else {
        assert forall i :: 0 <= i < n ==> cs[..n][i] == cs[i] && cs[i] != submit;
      }
    }
  }

  /** frameRender returns normally exactly when the acquisition asked for a
      rebuild, or it and every later checked call succeeded. */
  lemma RenderPasses(acquired: VkResult, rs: RenderReplies)
    ensures RenderOutcome(acquired, rs) == Pass <==>
              NeedsRebuild(acquired) ||
              (acquired == VK_SUCCESS && rs.waitForFences == VK_SUCCESS && rs.resetFences == VK_SUCCESS &&
               rs.resetCommandPool == VK_SUCCESS && rs.beginCommandBuffer == VK_SUCCESS &&
               rs.endCommandBuffer == VK_SUCCESS && rs.queueSubmit == VK_SUCCESS)
  {
    if acquired == VK_SUCCESS {
      FrameCallsOutcome(rs);
    }
  }

  /** Appending calls that are all neutral leaves the flag as it was and keeps
      a good record good. */
  lemma {:induction false} NeutralAppend(t: Trace, u: Trace)
    requires forall i :: 0 <= i < |u| ==> Neutral(u[i])
    ensures Pending(t + u) == Pending(t)
    ensures TraceOk(t) ==> TraceOk(t + u)
  {
    if u == [] {
      assert t + u == t;
    } else {
      var v := u[..|u| - 1];
      assert forall i :: 0 <= i < |v| ==> v[i] == u[i];
      NeutralAppend(t, v);
      assert t + u == (t + v) + [u[|u| - 1]];
      PendingAppend(t + v, u[|u| - 1]);
      if TraceOk(t) {
        TraceOkAppend(t + v, u[|u| - 1]);
      }
    }
  }

  /** None of the calls made from the frame calls presents or rebuilds. */
  lemma FrameRunNeutral(rs: RenderReplies)
    ensures forall i :: 0 <= i < |UpToFirstFailure(FrameCalls(rs))| ==> Neutral(UpToFirstFailure(FrameCalls(rs))[i])
  {
    FrameCallsMade(rs);
    FrameCallsNeutral(rs);
  }

  /** The frame body after a successful acquisition: wait for and reset the
      frame's fence, reset its command pool and begin its command buffer,
      record the UI's draw data in a render pass, end the buffer and submit
      it, throwing at the first failing check. `made` is the calls made. */
  method RecordAndSubmit(replies: RenderReplies) returns (o: Outcome, ghost made: Trace)
    ensures made == UpToFirstFailure(FrameCalls(replies))
    ensures o == FirstFailure(FrameCalls(replies))
    ensures forall i :: 0 <= i < |made| ==> Neutral(made[i])
  {
    ghost var cs := FrameCalls(replies);
    FrameRunNeutral(replies);
    o := CheckVkResult(replies.waitForFences);
    made := [Invoke(WaitForFences, replies.waitForFences)];
    if o.Fail? {
      StopsAt(cs, 0);
      assert made == cs[..1];
      return;
    }
    o := CheckVkResult(replies.resetFences);
    made := made + [Invoke(ResetFences, replies.resetFences)];
    if o.Fail? {
      StopsAt(cs, 1);
      assert made == cs[..2];
      return;
    }
    o := CheckVkResult(replies.resetCommandPool);
    made := made + [Invoke(ResetCommandPool, replies.resetCommandPool)];
    if o.Fail? {
      StopsAt(cs, 2);
      assert made == cs[..3];
      return;
    }
    o := CheckVkResult(replies.beginCommandBuffer);
    made := made + [Invoke(BeginCommandBuffer, replies.beginCommandBuffer)];
    if o.Fail? {
      StopsAt(cs, 3);
      assert made == cs[..4];
      return;
    }
    // vkCmdBeginRenderPass, ImGui_ImplVulkan_RenderDrawData and
    // vkCmdEndRenderPass return nothing.
    made := made + [Record(CmdBeginRenderPass), Record(RenderDrawData), Record(CmdEndRenderPass)];
    o := CheckVkResult(replies.endCommandBuffer);
    made := made + [Invoke(EndCommandBuffer, replies.endCommandBuffer)];
    if o.Fail? {
      StopsAt(cs, 7);
      assert made == cs[..8];
      return;
    }
    o := CheckVkResult(replies.queueSubmit);
    made := made + [Invoke(QueueSubmit, replies.queueSubmit)];
    assert made == cs;
    if o.Fail? {
      StopsAt(cs, 8);
    } else {
      RunsThrough(cs);
    }
  }

  /** vkAcquireNextImageKHR and its out-of-date/suboptimal test: the call is
      recorded, the image index is written when an image was acquired, and
      the rebuild flag is raised when the result asks for a new swapchain. */
  method AcquireNextImage(vulkan: VulkanContext, acquire: AcquireReply)
    requires vulkan.Ready()
    modifies vulkan`swapChainRebuild, vulkan`mainWindowData, vulkan`calls
    ensures vulkan.Ready()
    ensures vulkan.calls == old(vulkan.calls) + [Acquire(acquire.result)]
    ensures vulkan.swapChainRebuild == (old(vulkan.swapChainRebuild) || NeedsRebuild(acquire.result))
    ensures vulkan.mainWindowData == AcquiredWindow(old(vulkan.mainWindowData), acquire)
  {
    var r := acquire.result;
    TraceOkAppend(vulkan.calls, Acquire(r));
    PendingAppend(vulkan.calls, Acquire(r));
    vulkan.calls := vulkan.calls + [Acquire(r)];
    if AcquiresImage(r) {
      vulkan.mainWindowData := vulkan.mainWindowData.(frameIndex := acquire.imageIndex);
    }
    if NeedsRebuild(r) {
      vulkan.swapChainRebuild := true;
    }
  }

  /** frameRender: acquire an image; on an out-of-date or suboptimal report
      raise the rebuild flag and stop; otherwise check the result and go on
      to record and submit the frame. */
  method FrameRender(vulkan: VulkanContext, acquire: AcquireReply, replies: RenderReplies) returns (o: Outcome)
    requires vulkan.Ready()
    modifies vulkan`swapChainRebuild, vulkan`mainWindowData, vulkan`calls
    ensures vulkan.Ready()
    ensures vulkan.calls == old(vulkan.calls) + RenderTrace(acquire.result, replies)
    ensures o == RenderOutcome(acquire.result, replies)
    ensures vulkan.swapChainRebuild == (old(vulkan.swapChainRebuild) || NeedsRebuild(acquire.result))
    ensures vulkan.mainWindowData == AcquiredWindow(old(vulkan.mainWindowData), acquire)
  {
    var r := acquire.result;
    AcquireNextImage(vulkan, acquire);
    if NeedsRebuild(r) {
      return Pass;
    }
    o := CheckVkResult(r);
    if o.Fail? {
      return;
    }
    o := SubmitFrame(vulkan, replies);
  }

  /** The part of frameRender after a successful acquisition, with its calls
      added to the record. */
  method SubmitFrame(vulkan: VulkanContext, replies: RenderReplies) returns (o: Outcome)
    requires vulkan.Ready()
    modifies vulkan`calls
    ensures vulkan.Ready()
    ensures vulkan.calls == old(vulkan.calls) + UpToFirstFailure(FrameCalls(replies))
    ensures o == FirstFailure(FrameCalls(replies))
  {
    ghost var made;
    o, made := RecordAndSubmit(replies);
    NeutralAppend(vulkan.calls, made);
    vulkan.calls := vulkan.calls + made;
  }

  // ---------------------------------------------------------------------
  // framePresent

  /** `(SemaphoreIndex + 1) % ImageCount` in uint32 arithmetic: the sum wraps
      at 2^32 before the remainder is taken. */
  function NextSemaphoreIndex(index: uint32, count: ImageCount): (next: uint32)
    ensures next < count
    ensures index < count ==> next as int == (index as int + 1) % count as int
  {
    (((index as int + 1) % 0x1_0000_0000) % count as int) as uint32
  }

  /** The window record after framePresent: only a present made with no
      rebuild pending that succeeds moves on to the next semaphore set. */
  function PresentedWindow(wd: WindowData, pending: bool, result: VkResult): (r: WindowData)
    requires wd.imageCount > 0
  {
    if !pending && result == VK_SUCCESS
    then wd.(semaphoreIndex := NextSemaphoreIndex(wd.semaphoreIndex, wd.imageCount))
    else wd
  }

  /** framePresent: nothing while a rebuild is pending; otherwise present,
      raise the flag on an out-of-date or suboptimal report, throw on any
      other failure, and on success move on to the next semaphore set. */
  method FramePresent(vulkan: VulkanContext, result: VkResult) returns (o: Outcome)
    requires vulkan.Ready()
    modifies vulkan`swapChainRebuild, vulkan`mainWindowData, vulkan`calls
    ensures vulkan.Ready()
    ensures old(vulkan.swapChainRebuild) ==>
              o == Pass && vulkan.swapChainRebuild && vulkan.calls == old(vulkan.calls)
    ensures !old(vulkan.swapChainRebuild) ==>
              vulkan.calls == old(vulkan.calls) + [Present(result)] &&
              vulkan.swapChainRebuild == NeedsRebuild(result) &&
              o == (if NeedsRebuild(result) then Pass else CheckVkResult(result))
    ensures vulkan.mainWindowData ==
              PresentedWindow(old(vulkan.mainWindowData), old(vulkan.swapChainRebuild), result)
    ensures !old(vulkan.swapChainRebuild) && result == VK_SUCCESS ==>
              vulkan.mainWindowData.semaphoreIndex < vulkan.mainWindowData.imageCount
  {
    if vulkan.swapChainRebuild {
      return Pass;
    }
    TraceOkAppend(vulkan.calls, Present(result));
    PendingAppend(vulkan.calls, Present(result));
    vulkan.calls := vulkan.calls + [Present(result)];
    if NeedsRebuild(result) {
      vulkan.swapChainRebuild := true;
      return Pass;
    }
    o := CheckVkResult(result);
    if o.Fail? {
      return;
    }
    var wd := vulkan.mainWindowData;
    vulkan.mainWindowData := wd.(semaphoreIndex := NextSemaphoreIndex(wd.semaphoreIndex, wd.imageCount));
  }

  // ---------------------------------------------------------------------
  // The main loop

  /** The test at the top of the loop: a rebuild is pending and the window
      has an area. */
  predicate RebuildsNow(pending: bool, width: int, height: int) {
    pending && width > 0 && height > 0
  }

  /** Whether the flag is still set after the top of the loop: a rebuild
      was pending and the window had no area. */
  predicate StillPending(pending: bool, width: int, height: int) {
    pending && !RebuildsNow(pending, width, height)
  }

  /** The swapchain rebuild the loop makes when one is pending and the window has an area. */
  ghost function RebuildCalls(pending: bool, width: int, height: int): Trace {
    if RebuildsNow(pending, width, height) then [Resize(width, height)] else []
  }

  /** The window record after the top of the loop: a rebuild installs the new
      swapchain's image count and restarts at frame 0. */
  function RebuiltWindow(wd: WindowData, pending: bool, width: int, height: int, imageCount: ImageCount): (r: WindowData) {
    if RebuildsNow(pending, width, height) then wd.(imageCount := imageCount, frameIndex := 0) else wd
  }

  /** The top of the loop: rebuild a pending swapchain unless the window is
      minimised, then restart at frame 0 and clear the flag. `imageCount` is
      the size of the swapchain the UI library creates. */
  method RebuildSwapChain(vulkan: VulkanContext, width: int, height: int, imageCount: ImageCount)
    requires vulkan.Ready()
    modifies vulkan`swapChainRebuild, vulkan`mainWindowData, vulkan`calls
    ensures vulkan.Ready()
    ensures vulkan.calls == old(vulkan.calls) + RebuildCalls(old(vulkan.swapChainRebuild), width, height)
    ensures vulkan.swapChainRebuild == StillPending(old(vulkan.swapChainRebuild), width, height)
    ensures vulkan.mainWindowData ==
              RebuiltWindow(old(vulkan.mainWindowData), old(vulkan.swapChainRebuild), width, height, imageCount)
  {
    if RebuildsNow(vulkan.swapChainRebuild, width, height) {
      TraceOkAppend(vulkan.calls, Resize(width, height));
      PendingAppend(vulkan.calls, Resize(width, height));
      vulkan.calls := vulkan.calls + [Resize(width, height)];
      vulkan.mainWindowData := vulkan.mainWindowData.(imageCount := imageCount);
      vulkan.mainWindowData := vulkan.mainWindowData.(frameIndex := 0);
      vulkan.swapChainRebuild := false;
    }
  }

  /** An event that ends the loop: a quit request, or a close request for this window. */
  predicate RequestsClose(e: Event, windowId: uint32) {
    e.QuitEvent? || (e.WindowEvent? && e.event == SDL_WINDOWEVENT_CLOSE && e.windowID == windowId)
  }

  /** The event loop: drain the queued events; `Done` becomes true on a quit
      or a close request for this window and never goes back. */
  method PollEvents(done: bool, events: seq<Event>, windowId: uint32) returns (done': bool)
    ensures done' <==> done || exists i :: 0 <= i < |events| && RequestsClose(events[i], windowId)
  {
    done' := done;
    var i := 0;
    while i < |events|
      invariant 0 <= i <= |events|
      invariant done' <==> done || exists j :: 0 <= j < i && RequestsClose(events[j], windowId)
    {
      var e := events[i];
      if e.QuitEvent? {
        done' := true;
      }
      if e.WindowEvent? && e.event == SDL_WINDOWEVENT_CLOSE && e.windowID == windowId {
        done' := true;
      }
      i := i + 1;
    }
  }

  /** The UI's display has no area: nothing is rendered or presented. */
  predicate IsMinimized(displayWidth: real, displayHeight: real) {
    displayWidth <= 0.0 || displayHeight <= 0.0
  }

  /** What one pass of the loop sees: the queued events, the window size, the
      swapchain size a rebuild would produce, the UI's display size, and the
      driver's answers to the frame's calls. */
  datatype FrameInput = FrameInput(
    events: seq<Event>,
    width: int, height: int,
    imageCount: ImageCount,
    displayWidth: real, displayHeight: real,
    acquire: AcquireReply, render: RenderReplies, present: VkResult)


  /** The calls of rendering and presenting one frame, given whether a
      rebuild is pending when rendering starts. */
  ghost function FrameTrace(pending: bool, input: FrameInput): Trace {
    var r := input.acquire.result;
    RenderTrace(r, input.render) +
      if RenderOutcome(r, input.render).Fail? || pending || NeedsRebuild(r) then []
      else [Present(input.present)]
  }

  /** How rendering and presenting one frame ends. */
  function FrameOutcome(pending: bool, input: FrameInput): (o: Outcome)
    ensures o.Fail? ==> o.error.VulkanError? && o.error.result != VK_SUCCESS
  {
    var r := input.acquire.result;
    if RenderOutcome(r, input.render).Fail? then RenderOutcome(r, input.render)
    else if pending || NeedsRebuild(r) || NeedsRebuild(input.present) then Pass
    else CheckVkResult(input.present)
  }

  /** The window record after rendering and presenting one frame: the
      acquisition's index write, then, unless rendering threw, the
      semaphore step of framePresent. */
  function FrameWindow(wd: WindowData, pending: bool, input: FrameInput): (r: WindowData)
    requires wd.imageCount > 0
    ensures r.imageCount == wd.imageCount
  {
    var r := input.acquire.result;
    var acquired := AcquiredWindow(wd, input.acquire);
    if RenderOutcome(r, input.render).Fail? then acquired
    else PresentedWindow(acquired, pending || NeedsRebuild(r), input.present)
  }

  /** The calls one pass of the loop makes. */
  ghost function IterationTrace(pending: bool, input: FrameInput): Trace {
    RebuildCalls(pending, input.width, input.height) +
      if IsMinimized(input.displayWidth, input.displayHeight) then []
      else FrameTrace(StillPending(pending, input.width, input.height), input)
  }

  /** How one pass of the loop ends. */
  function IterationOutcome(pending: bool, input: FrameInput): (o: Outcome)
    ensures o.Fail? ==> o.error.VulkanError? && o.error.result != VK_SUCCESS
  {
    if IsMinimized(input.displayWidth, input.displayHeight) then Pass
    else FrameOutcome(StillPending(pending, input.width, input.height), input)
  }

  /** The window record after one pass of the loop. A swapchain always has an
      image, so the record keeps a positive image count. */
  function IterationWindow(wd: WindowData, pending: bool, input: FrameInput): (r: WindowData)
    requires wd.imageCount > 0
    ensures r.imageCount > 0
  {
    var rebuilt := RebuiltWindow(wd, pending, input.width, input.height, input.imageCount);
    if IsMinimized(input.displayWidth, input.displayHeight) then rebuilt
    else FrameWindow(rebuilt, StillPending(pending, input.width, input.height), input)
  }

  /** The events of the first `n` passes include one that ends the loop. */
  ghost predicate CloseRequested(inputs: seq<FrameInput>, n: nat, windowId: uint32)
    requires n <= |inputs|
  {
    exists i, j :: 0 <= i < n && 0 <= j < |inputs[i].events| && RequestsClose(inputs[i].events[j], windowId)
  }

  lemma CloseRequestedStep(inputs: seq<FrameInput>, n: nat, windowId: uint32)
    requires n < |inputs|
    ensures CloseRequested(inputs, n + 1, windowId) <==>
              CloseRequested(inputs, n, windowId) ||
              exists j :: 0 <= j < |inputs[n].events| && RequestsClose(inputs[n].events[j], windowId)
  {
  }

  /** Rendering and presenting one frame (the body of `if (!IsMinimized)`). */
  method RenderAndPresent(vulkan: VulkanContext, input: FrameInput) returns (o: Outcome)
    requires vulkan.Ready()
    modifies vulkan`swapChainRebuild, vulkan`mainWindowData, vulkan`calls
    ensures vulkan.Ready()
    ensures vulkan.calls == old(vulkan.calls) + FrameTrace(old(vulkan.swapChainRebuild), input)
    ensures o == FrameOutcome(old(vulkan.swapChainRebuild), input)
    ensures vulkan.mainWindowData == FrameWindow(old(vulkan.mainWindowData), old(vulkan.swapChainRebuild), input)
  {
    ghost var t0 := vulkan.calls;
    ghost var pending := vulkan.swapChainRebuild;
    ghost var r := input.acquire.result;
    ghost var rendered := RenderTrace(r, input.render);
    o := FrameRender(vulkan, input.acquire, input.render);
    ghost var presented: Trace := if RenderOutcome(r, input.render).Fail? || pending || NeedsRebuild(r) then []
                                  else [Present(input.present)];
    assert FrameTrace(pending, input) == rendered + presented;
    if o.Fail? {
      assert vulkan.calls == t0 + rendered + presented;
      return;
    }
    ghost var t1 := vulkan.calls;
    o := FramePresent(vulkan, input.present);
    assert vulkan.calls == t1 + presented;
    AppendAssociates(t0, rendered, presented);
  }

  /** One pass of `while (!Done)`: events, rebuild, and, unless the display
      is empty, render and present. */
  method Iteration(vulkan: VulkanContext, done: bool, windowId: uint32, input: FrameInput)
    returns (done': bool, o: Outcome)
    requires vulkan.Ready()
    modifies vulkan`swapChainRebuild, vulkan`mainWindowData, vulkan`calls
    ensures vulkan.Ready()
    ensures done' <==> done || exists j :: 0 <= j < |input.events| && RequestsClose(input.events[j], windowId)
    ensures vulkan.calls == old(vulkan.calls) + IterationTrace(old(vulkan.swapChainRebuild), input)
    ensures o == IterationOutcome(old(vulkan.swapChainRebuild), input)
    ensures vulkan.mainWindowData == IterationWindow(old(vulkan.mainWindowData), old(vulkan.swapChainRebuild), input)
  {
    done' := PollEvents(done, input.events, windowId);
    ghost var t0 := vulkan.calls;
    ghost var pending := vulkan.swapChainRebuild;
    RebuildSwapChain(vulkan, input.width, input.height, input.imageCount);
    ghost var t1 := vulkan.calls;
    o := Pass;
    if !IsMinimized(input.displayWidth, input.displayHeight) {
      o := RenderAndPresent(vulkan, input);
    }
    ghost var rest := if IsMinimized(input.displayWidth, input.displayHeight) then []
                      else FrameTrace(StillPending(pending, input.width, input.height), input);
    assert vulkan.calls == t1 + rest;
    AppendAssociates(t0, RebuildCalls(pending, input.width, input.height), rest);
  }

  /** What the loop has done so far: the calls made, the window record, how
      the latest pass ended (`Pass` before the first one) and whether every
      pass so far returned normally. */
  datatype LoopState = LoopState(calls: Trace, window: WindowData, last: Outcome, allPassed: bool)

  /** The state after the first `n` passes of the loop, starting from
      `start`. */
  ghost function Run(start: LoopState, inputs: seq<FrameInput>, n: nat): (s: LoopState)
    requires n <= |inputs| && start.window.imageCount > 0
    ensures s.window.imageCount > 0
    decreases n, 2
  {
    if n == 0 then start else AfterPass(start, inputs, n - 1)
  }

  /** The state after pass `k`: the pass adds its calls, updates the window
      record and ends with its own outcome. */
  ghost function AfterPass(start: LoopState, inputs: seq<FrameInput>, k: nat): (s: LoopState)
    requires k < |inputs| && start.window.imageCount > 0
    ensures s.window.imageCount > 0
    decreases k + 1, 1
  {
    var s := Run(start, inputs, k);
    var o := PassOutcome(start, inputs, k);
    LoopState(s.calls + PassCalls(start, inputs, k), PassWindow(start, inputs, k), o, s.allPassed && o == Pass)
  }

  /** The calls pass `k` makes, with the rebuild flag read off the calls
      made before it. */
  ghost function PassCalls(start: LoopState, inputs: seq<FrameInput>, k: nat): Trace
    requires k < |inputs| && start.window.imageCount > 0
    decreases k + 1, 0
  {
    IterationTrace(Pending(Run(start, inputs, k).calls), inputs[k])
  }

  /** The window record as pass `k` leaves it. */
  ghost function PassWindow(start: LoopState, inputs: seq<FrameInput>, k: nat): (r: WindowData)
    requires k < |inputs| && start.window.imageCount > 0
    ensures r.imageCount > 0
    decreases k + 1, 0
  {
    var s := Run(start, inputs, k);
    IterationWindow(s.window, Pending(s.calls), inputs[k])
  }

  /** How pass `k` ends. */
  ghost function PassOutcome(start: LoopState, inputs: seq<FrameInput>, k: nat): Outcome
    requires k < |inputs| && start.window.imageCount > 0
    decreases k + 1, 0
  {
    IterationOutcome(Pending(Run(start, inputs, k).calls), inputs[k])
  }

  /** One pass spelled out: from the state after `k` passes, pass `k` adds
      the calls of `IterationTrace`, moves the window record as
      `IterationWindow` says and ends as `IterationOutcome` says. */
  lemma PassStep(start: LoopState, inputs: seq<FrameInput>, k: nat)
    requires k < |inputs| && start.window.imageCount > 0
    ensures var s := Run(start, inputs, k);
            var pending := Pending(s.calls);
            var o := IterationOutcome(pending, inputs[k]);
            Run(start, inputs, k + 1) ==
              LoopState(s.calls + IterationTrace(pending, inputs[k]), IterationWindow(s.window, pending, inputs[k]),
                        o, s.allPassed && o == Pass)
  {
    assert Run(start, inputs, k + 1) == AfterPass(start, inputs, k);
  }

  /** `allPassed` after `n` passes holds exactly when it held at the start
      and each of the `n` passes ended normally. */
  lemma {:induction false} RunAllPassed(start: LoopState, inputs: seq<FrameInput>, n: nat)
    requires n <= |inputs| && start.window.imageCount > 0
    ensures Run(start, inputs, n).allPassed ==>
              start.allPassed && forall k :: 0 <= k < n ==> PassOutcome(start, inputs, k) == Pass
    ensures start.allPassed && (forall k :: 0 <= k < n ==> PassOutcome(start, inputs, k) == Pass) ==>
              Run(start, inputs, n).allPassed
  {
    if n > 0 {
      RunAllPassed(start, inputs, n - 1);
      assert Run(start, inputs, n).allPassed == (Run(start, inputs, n - 1).allPassed && PassOutcome(start, inputs, n - 1) == Pass);
    }
  }

  /** Pass `k` of a run from `start`: the context moves from the state
      after `k` passes to the state after `k + 1`, and the pass ends with
      that state's outcome. */
  method RunPass(vulkan: VulkanContext, done: bool, windowId: uint32,
                 inputs: seq<FrameInput>, ghost start: LoopState, k: nat)
    returns (done': bool, o: Outcome)
    requires k < |inputs| && start.window.imageCount > 0 && vulkan.Ready()
    requires Run(start, inputs, k) == LoopState(vulkan.calls, vulkan.mainWindowData, Pass, true)
    modifies vulkan`swapChainRebuild, vulkan`mainWindowData, vulkan`calls
    ensures vulkan.Ready()
    ensures Run(start, inputs, k + 1) == LoopState(vulkan.calls, vulkan.mainWindowData, o, o == Pass)
    ensures done' <==> done || exists j :: 0 <= j < |inputs[k].events| && RequestsClose(inputs[k].events[j], windowId)
    ensures old(vulkan.calls) <= vulkan.calls
  {
    ghost var pending := vulkan.swapChainRebuild;
    assert pending == Pending(Run(start, inputs, k).calls);
    PassStep(start, inputs, k);
    done', o := Iteration(vulkan, done, windowId, inputs[k]);
  }

  /** `while (!Done)` over the passes the environment supplies, stopping at
      the first exception. The calls made, the window record and the outcome
      are those of `Run` over the passes made, and every pass but a failing
      last one returned normally. The rebuild flag keeps tracking the call
      record, so the call record's discipline (no present while a rebuild is
      pending, one rebuild per report) holds for the whole run. */
  method MainLoop(vulkan: VulkanContext, windowId: uint32, inputs: seq<FrameInput>)
    returns (o: Outcome, done: bool, iterations: nat)
    requires vulkan.Ready()
    modifies vulkan`swapChainRebuild, vulkan`mainWindowData, vulkan`calls
    ensures vulkan.Ready()
    ensures iterations <= |inputs|
    ensures Run(LoopState(old(vulkan.calls), old(vulkan.mainWindowData), Pass, true), inputs, iterations) ==
              LoopState(vulkan.calls, vulkan.mainWindowData, o, o == Pass)
    ensures done <==> CloseRequested(inputs, iterations, windowId)
    ensures 0 < iterations ==> !CloseRequested(inputs, iterations - 1, windowId)
    ensures o.Pass? && iterations < |inputs| ==> done
    ensures o.Fail? ==>
              0 < iterations && !CloseRequested(inputs, iterations - 1, windowId) &&
              Run(LoopState(old(vulkan.calls), old(vulkan.mainWindowData), Pass, true), inputs, iterations - 1).allPassed
    ensures old(vulkan.calls) <= vulkan.calls
  {
    ghost var start := LoopState(vulkan.calls, vulkan.mainWindowData, Pass, true);
    assert start == LoopState(old(vulkan.calls), old(vulkan.mainWindowData), Pass, true);
    o, done, iterations := Pass, false, 0;
    while !done && iterations < |inputs|
      invariant vulkan.Ready()
      invariant iterations <= |inputs|
      invariant o == Pass
      invariant done <==> CloseRequested(inputs, iterations, windowId)
      invariant 0 < iterations ==> !CloseRequested(inputs, iterations - 1, windowId)
      invariant Run(start, inputs, iterations) == LoopState(vulkan.calls, vulkan.mainWindowData, o, true)
      invariant old(vulkan.calls) <= vulkan.calls
    {
      CloseRequestedStep(inputs, iterations, windowId);
      done, o := RunPass(vulkan, done, windowId, inputs, start, iterations);
      iterations := iterations + 1;
      if o.Fail? {
        break;
      }
    }
  }
}
