/** A record of the graphics calls the frame loop makes, in order, and the
    swapchain-rebuild flag as a function of that record. The record is a
    ghost of the model: it lets the frame loop's promises ("no present while
    a rebuild is pending", "one rebuild per out-of-date report") be stated
    about whole runs. */
module CallTrace {
  import opened Vk

  /** Calls made between acquisition and submission. */
  datatype Api =
    | WaitForFences | ResetFences | ResetCommandPool | BeginCommandBuffer
    | CmdBeginRenderPass | RenderDrawData | CmdEndRenderPass
    | EndCommandBuffer | QueueSubmit

  datatype Call =
    | Acquire(result: VkResult)           // vkAcquireNextImageKHR
    | Invoke(api: Api, result: VkResult)  // a call whose result goes to checkVkResult
    | Record(api: Api)                    // a call with no result
    | Present(result: VkResult)           // vkQueuePresentKHR
    | Resize(width: int, height: int)     // ImGui_ImplVulkanH_CreateOrResizeWindow from the main loop

  type Trace = seq<Call>

  /** A call whose result raises the rebuild flag. */
  predicate RaisesFlag(c: Call) {
    (c.Acquire? || c.Present?) && NeedsRebuild(c.result)
  }

  /** Whether a rebuild is pending after trace `t`: some call raised the flag
      and no rebuild has happened since. */
  function Pending(t: Trace): bool {
    if t == [] then false
    else
      var c := t[|t| - 1];
      if c.Resize? then false
      else if RaisesFlag(c) then true
      else Pending(t[..|t| - 1])
  }

  /** The frame loop's discipline for one call, given whether a rebuild is
      pending before it: no present while one is, no rebuild unless one is. */
  predicate Allowed(c: Call, pending: bool) {
    (c.Present? ==> !pending) && (c.Resize? ==> pending)
  }

  /** Every call of `t` keeps the discipline. */
  ghost predicate TraceOk(t: Trace) {
    t == [] || (TraceOk(t[..|t| - 1]) && Allowed(t[|t| - 1], Pending(t[..|t| - 1])))
  }

  lemma AppendAssociates(a: Trace, b: Trace, c: Trace)
    ensures a + (b + c) == (a + b) + c
  {
  }

  lemma PendingAppend(t: Trace, c: Call)
    ensures Pending(t + [c]) == if c.Resize? then false else if RaisesFlag(c) then true else Pending(t)
  {
    assert (t + [c])[..|t|] == t;
  }

  /** Extending a good trace by a call that respects the discipline keeps it good. */
  lemma TraceOkAppend(t: Trace, c: Call)
    requires TraceOk(t) && Allowed(c, Pending(t))
    ensures TraceOk(t + [c])
  {
    assert (t + [c])[..|t|] == t;
  }

  /** In a good trace, each call kept the discipline when it was made. */
  lemma {:induction false} TraceOkAt(t: Trace, k: nat)
    requires TraceOk(t) && k < |t|
    ensures Allowed(t[k], Pending(t[..k]))
  {
    if k < |t| - 1 {
      var u := t[..|t| - 1];
      TraceOkAt(u, k);
      assert u[k] == t[k] && u[..k] == t[..k];
    }
  }

  /** If no rebuild is pending after the first `lo` calls and one is after the
      first `hi`, some call in between raised the flag. */
  lemma {:induction false} PendingNeedsRaise(t: Trace, lo: nat, hi: nat)
    requires lo <= hi <= |t|
    requires !Pending(t[..lo]) && Pending(t[..hi])
    ensures exists k :: lo <= k < hi && RaisesFlag(t[k])
  {
    if hi == lo {
      assert false;
    }
    var c := t[hi - 1];
    assert t[..hi] == t[..hi - 1] + [c];
    PendingAppend(t[..hi - 1], c);
    if !RaisesFlag(c) {
      PendingNeedsRaise(t, lo, hi - 1);
    }
  }

  /** If a rebuild is pending after the first `lo` calls and none is after
      the first `hi`, some call in between was a rebuild. */
  lemma {:induction false} ClearNeedsResize(t: Trace, lo: nat, hi: nat)
    requires lo <= hi <= |t|
    requires Pending(t[..lo]) && !Pending(t[..hi])
    ensures exists k :: lo <= k < hi && t[k].Resize?
  {
    if hi == lo {
      assert false;
    }
    var c := t[hi - 1];
    assert t[..hi] == t[..hi - 1] + [c];
    PendingAppend(t[..hi - 1], c);
    if !c.Resize? {
      ClearNeedsResize(t, lo, hi - 1);
    }
  }

  /** Two rebuilds are always separated by a report that asked for one: after
      a resize, the loop rebuilds at most once. */
  lemma ResizesSeparatedByRaise(t: Trace, i: nat, j: nat)
    requires TraceOk(t)
    requires i < j < |t| && t[i].Resize? && t[j].Resize?
    ensures exists k :: i < k < j && RaisesFlag(t[k])
  {
    TraceOkAt(t, j);
    assert t[..i + 1] == t[..i] + [t[i]];
    PendingAppend(t[..i], t[i]);
    PendingNeedsRaise(t, i + 1, j);
  }

  /** Once acquisition or presentation has asked for a rebuild, the next
      present comes only after a rebuild. */
  lemma RaiseThenResizeBeforePresent(t: Trace, i: nat, j: nat)
    requires TraceOk(t)
    requires i < j < |t| && RaisesFlag(t[i]) && t[j].Present?
    ensures exists k :: i < k < j && t[k].Resize?
  {
    TraceOkAt(t, j);
    assert t[..i + 1] == t[..i] + [t[i]];
    PendingAppend(t[..i], t[i]);
    ClearNeedsResize(t, i + 1, j);
  }
}
