// The swapchain: the surface-format, present-mode, extent and image-count
// rules applied when it is (re)created, and the ring of per-frame fences
// and semaphores that paces acquire and present.

module SwapChain {
  import opened Vk

  // ---------------------------------------------------------------------
  // Selection rules

  datatype PresentMode = Immediate | Mailbox | Fifo | FifoRelaxed | OtherMode(code: nat)

  datatype Format = A2B10G10R10UnormPack32 | B8G8R8A8Srgb | OtherFormat(code: nat)

  datatype ColorSpace = SrgbNonlinear | DisplayP3Nonlinear | Hdr10St2084 | OtherColorSpace(code: nat)

  datatype SurfaceFormat = SurfaceFormat(format: Format, colorSpace: ColorSpace)

  /** VkSurfaceCapabilitiesKHR, the fields the swapchain reads. */
  datatype SurfaceCapabilities = SurfaceCapabilities(
    minImageCount: nat, maxImageCount: nat,
    currentExtent: Extent2D, minImageExtent: Extent2D, maxImageExtent: Extent2D,
    currentTransform: nat)

  /** SwapChainSupportDetails as QuerySwapChainSupport reports it. */
  datatype SupportDetails = SupportDetails(
    capabilities: SurfaceCapabilities, formats: seq<SurfaceFormat>, presentModes: seq<PresentMode>)

  const HDR10: SurfaceFormat := SurfaceFormat(A2B10G10R10UnormPack32, Hdr10St2084)
  const DISPLAY_P3: SurfaceFormat := SurfaceFormat(A2B10G10R10UnormPack32, DisplayP3Nonlinear)
  const SRGB: SurfaceFormat := SurfaceFormat(B8G8R8A8Srgb, SrgbNonlinear)

  /** The formats chooseFormat looks for, best first. */
  const FORMAT_PRIORITY: seq<SurfaceFormat> := [HDR10, DISPLAY_P3, SRGB]

  /** The first preference that is available, if any. */
  function FirstAvailable(prefs: seq<SurfaceFormat>, avail: seq<SurfaceFormat>): Option<SurfaceFormat>
  {
    if prefs == [] then None
    else if prefs[0] in avail then Some(prefs[0])
    else FirstAvailable(prefs[1..], avail)
  }

  /** chooseFormat: the best preferred format on offer, otherwise the first one offered. */
  function PreferredFormat(avail: seq<SurfaceFormat>): SurfaceFormat
    requires |avail| > 0
  {
    match FirstAvailable(FORMAT_PRIORITY, avail)
    case Some(f) => f
    case None => avail[0]
  }

  /** FirstAvailable on FORMAT_PRIORITY, one preference at a time. */
  lemma FirstAvailableCascade(avail: seq<SurfaceFormat>)
    ensures FirstAvailable(FORMAT_PRIORITY, avail) ==
              if HDR10 in avail then Some(HDR10)
              else if DISPLAY_P3 in avail then Some(DISPLAY_P3)
              else if SRGB in avail then Some(SRGB)
              else None
  {
    var p := FORMAT_PRIORITY;
    assert p[0] == HDR10 && p[1..][0] == DISPLAY_P3 && p[1..][1..][0] == SRGB && p[1..][1..][1..] == [];
    assert FirstAvailable(p[1..][1..], avail) == if SRGB in avail then Some(SRGB) else None;
    assert FirstAvailable(p[1..], avail) ==
             if DISPLAY_P3 in avail then Some(DISPLAY_P3) else FirstAvailable(p[1..][1..], avail);
    assert FirstAvailable(p, avail) == if HDR10 in avail then Some(HDR10) else FirstAvailable(p[1..], avail);
  }

  /** One `for (auto& f : avail) if (f matches) return f;` scan. */
  method FindFormat(avail: seq<SurfaceFormat>, wanted: SurfaceFormat) returns (found: bool)
    ensures found <==> wanted in avail
  {
    for i := 0 to |avail|
      invariant wanted !in avail[..i]
    {
      if avail[i] == wanted {
        return true;
      }
    }
    assert avail[..|avail|] == avail;
    return false;
  }

  /** chooseFormat's three scans and the final fallback. */
  method ChooseFormat(avail: seq<SurfaceFormat>) returns (f: SurfaceFormat)
    requires |avail| > 0
    ensures f == PreferredFormat(avail)
  {
    FirstAvailableCascade(avail);
    var found := FindFormat(avail, HDR10);
    if found {
      return HDR10;
    }
    found := FindFormat(avail, DISPLAY_P3);
    if found {
      return DISPLAY_P3;
    }
    found := FindFormat(avail, SRGB);
    if found {
      return SRGB;
    }
    return avail[0];
  }

  /**
   * The format priority: HDR10/PQ if offered, else Display-P3, else
   * B8G8R8A8_SRGB with sRGB, else the first format offered; the result is
   * always one of the offered formats.
   */
  lemma PreferredFormatPriority(avail: seq<SurfaceFormat>)
    requires |avail| > 0
    ensures PreferredFormat(avail) in avail
    ensures HDR10 in avail ==> PreferredFormat(avail) == HDR10
    ensures HDR10 !in avail && DISPLAY_P3 in avail ==> PreferredFormat(avail) == DISPLAY_P3
    ensures HDR10 !in avail && DISPLAY_P3 !in avail && SRGB in avail ==> PreferredFormat(avail) == SRGB
    ensures HDR10 !in avail && DISPLAY_P3 !in avail && SRGB !in avail ==> PreferredFormat(avail) == avail[0]
  {
    FirstAvailableCascade(avail);
  }

  /** choosePresentMode. */
  function ChoosePresentMode(vsync: bool, allowTearing: bool, avail: seq<PresentMode>): (m: PresentMode)
    ensures vsync ==> m == Fifo
    ensures m == Mailbox <==> !vsync && Mailbox in avail
    ensures m == Immediate <==> !vsync && Mailbox !in avail && allowTearing && Immediate in avail
    ensures m == Fifo || m in avail
  {
    if !vsync && Mailbox in avail then Mailbox
    else if !vsync && allowTearing && Immediate in avail then Immediate
    else Fifo
  }

  /** std::clamp; the bounds must be ordered. */
  function Clamp(v: nat, lo: nat, hi: nat): (c: nat)
    requires lo <= hi
    ensures lo <= c <= hi
    ensures lo <= v <= hi ==> c == v
    ensures v < lo ==> c == lo
    ensures hi < v ==> c == hi
  {
    if v < lo then lo else if hi < v then hi else v
  }

  /** The extent bounds std::clamp needs, when the surface leaves the extent to the swapchain. */
  predicate ExtentBoundsOrdered(caps: SurfaceCapabilities)
  {
    caps.currentExtent.width == UINT32_MAX ==>
      caps.minImageExtent.width <= caps.maxImageExtent.width &&
      caps.minImageExtent.height <= caps.maxImageExtent.height
  }

  /**
   * chooseExtent: the surface's current extent, unless its width is the
   * special value 0xFFFFFFFF; then the window extent clamped per dimension.
   */
  function ChooseExtent(caps: SurfaceCapabilities, windowExtent: Extent2D): (e: Extent2D)
    requires ExtentBoundsOrdered(caps)
    ensures caps.currentExtent.width != UINT32_MAX ==> e == caps.currentExtent
    ensures caps.currentExtent.width == UINT32_MAX ==>
              caps.minImageExtent.width <= e.width <= caps.maxImageExtent.width &&
              caps.minImageExtent.height <= e.height <= caps.maxImageExtent.height
    ensures caps.currentExtent.width == UINT32_MAX &&
            caps.minImageExtent.width <= windowExtent.width <= caps.maxImageExtent.width &&
            caps.minImageExtent.height <= windowExtent.height <= caps.maxImageExtent.height ==>
              e == windowExtent
  {
    if caps.currentExtent.width != UINT32_MAX then caps.currentExtent
    else Extent2D(Clamp(windowExtent.width, caps.minImageExtent.width, caps.maxImageExtent.width),
                  Clamp(windowExtent.height, caps.minImageExtent.height, caps.maxImageExtent.height))
  }

  const DESIRED_IMAGE_COUNT: nat := 3
  const DEFAULT_FRAMES_IN_FLIGHT: nat := 2

  /** The image count createSwapChain asks for: at least 3 and the minimum, capped by a non-zero maximum. */
  function ImageCount(caps: SurfaceCapabilities): nat
  {
    var n := if caps.minImageCount > DESIRED_IMAGE_COUNT then caps.minImageCount else DESIRED_IMAGE_COUNT;
    if caps.maxImageCount > 0 && caps.maxImageCount < n then caps.maxImageCount else n
  }

  /**
   * A maximum of 0 means no limit: then the count is the larger of 3 and the
   * minimum. Otherwise it never exceeds the maximum, and lies within
   * [minImageCount, maxImageCount] whenever that range is non-empty.
   */
  lemma ImageCountBounds(caps: SurfaceCapabilities)
    ensures caps.maxImageCount == 0 ==>
              ImageCount(caps) >= DESIRED_IMAGE_COUNT && ImageCount(caps) >= caps.minImageCount &&
              (ImageCount(caps) == DESIRED_IMAGE_COUNT || ImageCount(caps) == caps.minImageCount)
    ensures caps.maxImageCount > 0 ==> ImageCount(caps) <= caps.maxImageCount
    ensures 0 < caps.minImageCount <= caps.maxImageCount ==>
              caps.minImageCount <= ImageCount(caps) <= caps.maxImageCount
    ensures caps.maxImageCount == 0 || caps.maxImageCount >= DESIRED_IMAGE_COUNT ==> ImageCount(caps) >= DESIRED_IMAGE_COUNT
  {
  }

  // ---------------------------------------------------------------------
  // The frame ring

  /**
   * The pacing state: the frame slot in use, the ring size, and whether
   * each slot's in-flight fence is signaled.
   */
  datatype FrameRing = FrameRing(currentFrame: nat, maxFrames: nat, signaled: seq<bool>)

  predicate RingValid(r: FrameRing)
  {
    r.maxFrames > 0 && |r.signaled| == r.maxFrames && r.currentFrame < r.maxFrames
  }

  /** The ring after createSyncObjects: slot 0, every fence signaled. */
  function InitialRing(maxFrames: nat): FrameRing
  {
    FrameRing(0, maxFrames, seq(maxFrames, _ => true))
  }

  /** Every in-flight fence signaled: what the waits in recreate and the destructor need to return. */
  predicate AllSignaled(signaled: seq<bool>)
  {
    forall i :: 0 <= i < |signaled| ==> signaled[i]
  }

  /**
   * acquireNextImage as written: wait for the current slot's fence and
   * reset it, and only then call vkAcquireNextImageKHR, whatever that call
   * returns. The wait only returns once the fence is signaled; an
   * unsignaled fence is reported as blocked, with the ring unchanged.
   */
  function AcquireStepAsWritten(r: FrameRing): (FrameRing, bool)
    requires RingValid(r)
  {
    if r.signaled[r.currentFrame] then (r.(signaled := r.signaled[r.currentFrame := false]), true)
    else (r, false)
  }

  /**
   * acquireNextImage as the model's swapchain does it: wait for the current
   * slot's fence, then reset it only if vkAcquireNextImageKHR returned
   * VK_SUCCESS, the one answer after which the caller submits the work that
   * signals the fence again.
   */
  function AcquireStep(r: FrameRing, acquireResult: VkResult): (FrameRing, bool)
    requires RingValid(r)
  {
    if !r.signaled[r.currentFrame] then (r, false)
    else if acquireResult == Success then (r.(signaled := r.signaled[r.currentFrame := false]), true)
    else (r, true)
  }

  /** presentImage: the next slot, whatever the present returned. */
  function PresentStep(r: FrameRing): FrameRing
    requires RingValid(r)
  {
    r.(currentFrame := (r.currentFrame + 1) % r.maxFrames)
  }

  /** The GPU finishing the work submitted with a slot's fence. */
  function SignalStep(r: FrameRing, slot: nat): FrameRing
    requires RingValid(r) && slot < r.maxFrames
  {
    r.(signaled := r.signaled[slot := true])
  }

  /**
   * The ring steps keep it well formed; acquire never moves the ring,
   * touches only its own slot's fence, blocks exactly when that fence is
   * unsignaled, and resets it exactly when it returns with VK_SUCCESS.
   */
  lemma RingStepsValid(r: FrameRing, slot: nat, acquireResult: VkResult)
    requires RingValid(r) && slot < r.maxFrames
    ensures var a := AcquireStep(r, acquireResult);
            RingValid(a.0) && RingValid(PresentStep(r)) && RingValid(SignalStep(r, slot)) &&
            a.0.currentFrame == r.currentFrame &&
            (forall k :: 0 <= k < r.maxFrames && k != r.currentFrame ==> a.0.signaled[k] == r.signaled[k]) &&
            (a.1 <==> r.signaled[r.currentFrame]) &&
            (a.0.signaled[r.currentFrame] <==> r.signaled[r.currentFrame] && acquireResult != Success)
  {
  }

  /**
   * Two acquires with no present between them: after a successful first
   * one, the second waits for the fence the first reset, so it blocks until
   * the GPU signals it.
   */
  lemma SecondAcquireBlocks(r: FrameRing, acquireResult: VkResult)
    requires RingValid(r)
    ensures var after := AcquireStep(r, Success).0; RingValid(after) && !AcquireStep(after, acquireResult).1
  {
  }

  /**
   * As written, every acquire leaves the current slot's fence unsignaled,
   * also one that returns VK_ERROR_OUT_OF_DATE_KHR or VK_SUBOPTIMAL_KHR and
   * so submits nothing that would signal it. The recreate the caller must
   * then run waits for every fence, which cannot return.
   */
  lemma AcquireAsWrittenStrandsFence(r: FrameRing)
    requires RingValid(r)
    ensures !AllSignaled(AcquireStepAsWritten(r).0.signaled)
  {
    var after := AcquireStepAsWritten(r).0;
    assert !after.signaled[r.currentFrame];
  }

  /**
   * Corrected, an acquire that does not return VK_SUCCESS leaves every fence
   * as it was, so the recreate that follows an OUT_OF_DATE or SUBOPTIMAL
   * answer finds its fences signaled. On VK_SUCCESS the step is the one as
   * written.
   */
  lemma FailedAcquireKeepsFences(r: FrameRing, acquireResult: VkResult)
    requires RingValid(r)
    ensures acquireResult != Success ==> AcquireStep(r, acquireResult).0 == r
    ensures acquireResult != Success && AllSignaled(r.signaled) ==> AllSignaled(AcquireStep(r, acquireResult).0.signaled)
    ensures AcquireStep(r, Success) == AcquireStepAsWritten(r)
  {
  }

  /** n presents in a row. */
  function Presents(r: FrameRing, n: nat): (r': FrameRing)
    requires RingValid(r)
    ensures RingValid(r') && r'.maxFrames == r.maxFrames
  {
    if n == 0 then r else PresentStep(Presents(r, n - 1))
  }

  /**
   * Up to a full turn, n presents move the ring n slots forward, wrapping
   * past the last slot to slot 0; the fences are untouched.
   */
  lemma {:induction false} PresentsAdvance(r: FrameRing, n: nat)
    requires RingValid(r) && n <= r.maxFrames
    ensures Presents(r, n).currentFrame ==
              if r.currentFrame + n < r.maxFrames then r.currentFrame + n else r.currentFrame + n - r.maxFrames
    ensures Presents(r, n).signaled == r.signaled
  {
    if n > 0 {
      PresentsAdvance(r, n - 1);
      var m := r.maxFrames;
      var v := Presents(r, n - 1).currentFrame;
      assert Presents(r, n).currentFrame == (v + 1) % m;
      if v + 1 < m {
        ModBelow(v + 1, m);
      } else {
        ModBelow(0, m);
        assert v + 1 == m;
        ModSelf(m);
      }
    }
  }

  lemma ModBelow(x: nat, m: nat)
    requires x < m
    ensures x % m == x
  {
  }

  lemma ModSelf(m: nat)
    requires 0 < m
    ensures m % m == 0
  {
  }

  /** A full turn of the ring brings it back to the same slot. */
  lemma FullTurn(r: FrameRing)
    requires RingValid(r)
    ensures Presents(r, r.maxFrames).currentFrame == r.currentFrame
  {
    PresentsAdvance(r, r.maxFrames);
  }

  /** Two frames of one turn of the ring use different slots. */
  lemma SlotsDistinct(r: FrameRing, i: nat, j: nat)
    requires RingValid(r) && i < j < r.maxFrames
    ensures Presents(r, i).currentFrame != Presents(r, j).currentFrame
  {
    PresentsAdvance(r, i);
    PresentsAdvance(r, j);
  }

  /**
   * One frame of the loop: an acquire the driver answers with VK_SUCCESS,
   * the GPU finishing the work of slot `done` if any, then the present.
   */
  function FrameStep(r: FrameRing, done: Option<nat>): (r': FrameRing)
    requires RingValid(r) && (done.Some? ==> done.value < r.maxFrames)
    ensures RingValid(r') && r'.maxFrames == r.maxFrames
  {
    var a := AcquireStep(r, Success).0;
    PresentStep(if done.Some? then SignalStep(a, done.value) else a)
  }

  predicate SlotsBelow(dones: seq<Option<nat>>, m: nat)
  {
    forall i :: 0 <= i < |dones| && dones[i].Some? ==> dones[i].value < m
  }

  /** Frames in a row; dones[i] is the slot, if any, whose work the GPU finishes during frame i. */
  function Frames(r: FrameRing, dones: seq<Option<nat>>): (r': FrameRing)
    requires RingValid(r) && SlotsBelow(dones, r.maxFrames)
    ensures RingValid(r') && r'.maxFrames == r.maxFrames
    decreases |dones|
  {
    if dones == [] then r
    else FrameStep(Frames(r, dones[..|dones| - 1]), dones[|dones| - 1])
  }

  /** Frame i acquires on the slot i presents lead to. */
  lemma {:induction false} FramesAdvance(r: FrameRing, dones: seq<Option<nat>>)
    requires RingValid(r) && SlotsBelow(dones, r.maxFrames)
    ensures Frames(r, dones).currentFrame == Presents(r, |dones|).currentFrame
    decreases |dones|
  {
    if dones != [] {
      var n := |dones| - 1;
      FramesAdvance(r, dones[..n]);
      FrameStepAdvance(Frames(r, dones[..n]), dones[n]);
    }
  }

  /** A frame moves the ring as its present does. */
  lemma FrameStepAdvance(r: FrameRing, done: Option<nat>)
    requires RingValid(r) && (done.Some? ==> done.value < r.maxFrames)
    ensures FrameStep(r, done).currentFrame == PresentStep(r).currentFrame
  {
  }

  /**
   * The fence of the first frame's slot stays unsignaled over frames in
   * which the GPU finishes no work of that slot: acquires only reset fences.
   */
  lemma {:induction false} FenceStaysReset(r: FrameRing, dones: seq<Option<nat>>)
    requires RingValid(r) && SlotsBelow(dones, r.maxFrames) && |dones| >= 1
    requires Some(r.currentFrame) !in dones
    ensures !Frames(r, dones).signaled[r.currentFrame]
    decreases |dones|
  {
    if |dones| > 1 {
      FenceStaysReset(r, dones[..|dones| - 1]);
    }
  }

  /** A fence signaled during frame k stays signaled while later frames acquire on other slots. */
  lemma {:induction false} FenceStaysSignaled(r: FrameRing, dones: seq<Option<nat>>, s: nat, k: nat)
    requires RingValid(r) && SlotsBelow(dones, r.maxFrames) && s < r.maxFrames
    requires k < |dones| && dones[k] == Some(s)
    requires forall i :: k < i < |dones| ==> Presents(r, i).currentFrame != s
    ensures Frames(r, dones).signaled[s]
    decreases |dones|
  {
    var n := |dones| - 1;
    if k < n {
      FenceStaysSignaled(r, dones[..n], s, k);
      FramesAdvance(r, dones[..n]);
    }
  }

  /** A signaled fence stays signaled while no frame acquires on its slot. */
  lemma {:induction false} FenceKeptSignaled(r: FrameRing, dones: seq<Option<nat>>, s: nat)
    requires RingValid(r) && SlotsBelow(dones, r.maxFrames) && s < r.maxFrames && r.signaled[s]
    requires forall i :: 0 <= i < |dones| ==> Presents(r, i).currentFrame != s
    ensures Frames(r, dones).signaled[s]
    decreases |dones|
  {
    if dones != [] {
      var n := |dones| - 1;
      FenceKeptSignaled(r, dones[..n], s);
      FramesAdvance(r, dones[..n]);
    }
  }

  /**
   * At most maxFrames frames are in flight. maxFrames frames after frame k,
   * the ring is back on frame k's slot, and the acquire there goes through
   * exactly when the GPU finished frame k's slot during those frames.
   */
  lemma FramesInFlightBound(r: FrameRing, dones: seq<Option<nat>>, acquireResult: VkResult)
    requires RingValid(r) && SlotsBelow(dones, r.maxFrames) && |dones| == r.maxFrames
    ensures Frames(r, dones).currentFrame == r.currentFrame
    ensures AcquireStep(Frames(r, dones), acquireResult).1 <==> Some(r.currentFrame) in dones
  {
    FramesAdvance(r, dones);
    FullTurn(r);
    var c := r.currentFrame;
    if Some(c) in dones {
      var k :| 0 <= k < |dones| && dones[k] == Some(c);
      forall i | k < i < |dones|
        ensures Presents(r, i).currentFrame != c
      {
        SlotsDistinct(r, 0, i);
      }
      FenceStaysSignaled(r, dones, c, k);
    } else {
      FenceStaysReset(r, dones);
    }
  }

  /**
   * The bound is reached, not undercut: from a ring whose fences are all
   * signaled, each of the next maxFrames acquires goes through even if the
   * GPU finishes nothing.
   */
  lemma FramesWithinTurnDoNotWait(r: FrameRing, dones: seq<Option<nat>>, acquireResult: VkResult)
    requires RingValid(r) && SlotsBelow(dones, r.maxFrames) && |dones| < r.maxFrames
    requires AllSignaled(r.signaled)
    ensures AcquireStep(Frames(r, dones), acquireResult).1
  {
    FramesAdvance(r, dones);
    var s := Presents(r, |dones|).currentFrame;
    forall i | 0 <= i < |dones|
      ensures Presents(r, i).currentFrame != s
    {
      SlotsDistinct(r, i, |dones|);
    }
    FenceKeptSignaled(r, dones, s);
  }

  /**
   * As written, no code outside the swapchain can reach its fences, so
   * none is ever signaled after an acquire resets it: from any ring, frames
   * in which the GPU signals nothing never leave every fence signaled
   * again, and the destructor's wait for all of them cannot return.
   */
  lemma UnsignaledFramesNeverAllSignaled(r: FrameRing, dones: seq<Option<nat>>)
    requires RingValid(r) && |dones| >= 1
    requires forall i :: 0 <= i < |dones| ==> dones[i] == None
    ensures SlotsBelow(dones, r.maxFrames) && !AllSignaled(Frames(r, dones).signaled)
  {
    FenceStaysReset(r, dones);
    assert !Frames(r, dones).signaled[r.currentFrame];
  }

  /**
   * With each frame's submission signaling that frame's fence, as the
   * swapchain's fences are meant to be, frames leave every fence as it was:
   * an all-signaled ring stays all signaled, so the waits in recreate and
   * the destructor return.
   */
  lemma {:induction false} SubmittedFramesKeepFences(r: FrameRing, dones: seq<Option<nat>>)
    requires RingValid(r) && SlotsBelow(dones, r.maxFrames) && AllSignaled(r.signaled)
    requires forall i :: 0 <= i < |dones| ==> dones[i] == Some(Presents(r, i).currentFrame)
    ensures Frames(r, dones).signaled == r.signaled
    ensures AllSignaled(Frames(r, dones).signaled)
    decreases |dones|
  {
    if dones != [] {
      var n := |dones| - 1;
      SubmittedFramesKeepFences(r, dones[..n]);
      FramesAdvance(r, dones[..n]);
    }
  }

  // ---------------------------------------------------------------------
  // The swapchain object

  /** VkSwapchainCreateInfoKHR, the fields the rules decide. */
  datatype SwapchainCreateInfo = SwapchainCreateInfo(
    minImageCount: nat, imageFormat: Format, imageColorSpace: ColorSpace, imageExtent: Extent2D,
    presentMode: PresentMode, preTransform: nat, oldSwapchain: Handle)

  /** VkPresentInfoKHR as presentImage fills it: nothing in it comes from waitValue. */
  datatype PresentInfo = PresentInfo(waitSemaphore: Handle, swapchain: Handle, imageIndex: nat)

  /** The driver's answers to one slot's three create calls. */
  datatype SlotResults = SlotResults(imageAvailable: VkResult, renderFinished: VkResult, fence: VkResult)
  datatype SlotHandles = SlotHandles(imageAvailable: Handle, renderFinished: Handle, fence: Handle)

  datatype AcquireOutcome = Blocked | Acquired(result: VkResult, imageIndex: nat, signalSemaphore: Handle)

  /** std::vector::resize with null handles. */
  function Resized(s: seq<Handle>, n: nat): (r: seq<Handle>)
    ensures |r| == n
    ensures forall i :: 0 <= i < n ==> r[i] == if i < |s| then s[i] else NULL_HANDLE
  {
    if n <= |s| then s[..n] else s + seq(n - |s|, _ => NULL_HANDLE)
  }

  /** createImageViews' loop: one VK_CHECKed vkCreateImageView per image, stopping at the first failure. */
  method MakeImageViews(images: seq<Handle>, results: seq<VkResult>, handles: seq<Handle>)
    returns (r: Result<()>, views: seq<Handle>)
    requires |results| == |images| && |handles| == |images|
    ensures |views| == |images|
    ensures r.Ok? <==> forall i :: 0 <= i < |images| ==> results[i] == Success
    ensures r.Ok? ==> views == handles
    ensures r.Err? ==> exists k :: 0 <= k < |images| && results[k] != Success &&
                        views == handles[..k] + seq(|images| - k, _ => NULL_HANDLE)
  {
    views := seq(|images|, _ => NULL_HANDLE);
    for i := 0 to |images|
      invariant |views| == |images|
      invariant forall j :: 0 <= j < i ==> results[j] == Success
      invariant views == handles[..i] + seq(|images| - i, _ => NULL_HANDLE)
    {
      r := Checked(results[i], (), "vkCreateImageView");
      if r.Err? {
        return;
      }
      views := views[i := handles[i]];
      assert views == handles[..i + 1] + seq(|images| - (i + 1), _ => NULL_HANDLE);
    }
    assert handles[..|images|] == handles;
    r := Ok(());
  }

  /** One slot of createSyncObjects: `||` stops at the first failed create. */
  function SlotOk(res: SlotResults): bool
  {
    res.imageAvailable == Success && res.renderFinished == Success && res.fence == Success
  }

  /**
   * createSyncObjects' loop over slots: each slot's semaphores and fence,
   * stopping with an error at the first slot where one create fails.
   */
  method MakeSyncObjects(imageAvailable0: seq<Handle>, renderFinished0: seq<Handle>, fences0: seq<Handle>,
                         results: seq<SlotResults>, handles: seq<SlotHandles>)
    returns (r: Result<()>, imageAvailable: seq<Handle>, renderFinished: seq<Handle>, fences: seq<Handle>)
    requires |imageAvailable0| == |results| && |renderFinished0| == |results| && |fences0| == |results|
    requires |handles| == |results|
    ensures |imageAvailable| == |results| && |renderFinished| == |results| && |fences| == |results|
    ensures r.Ok? <==> forall i :: 0 <= i < |results| ==> SlotOk(results[i])
    ensures r.Ok? ==> forall i :: 0 <= i < |results| ==>
              imageAvailable[i] == handles[i].imageAvailable && renderFinished[i] == handles[i].renderFinished &&
              fences[i] == handles[i].fence
  {
    imageAvailable, renderFinished, fences := imageAvailable0, renderFinished0, fences0;
    for i := 0 to |results|
      invariant |imageAvailable| == |results| && |renderFinished| == |results| && |fences| == |results|
      invariant forall j :: 0 <= j < i ==> SlotOk(results[j])
      invariant forall j :: 0 <= j < i ==>
                  imageAvailable[j] == handles[j].imageAvailable && renderFinished[j] == handles[j].renderFinished &&
                  fences[j] == handles[j].fence
    {
      if results[i].imageAvailable != Success {
        return Err("failed to create swapchain sync objects"), imageAvailable, renderFinished, fences;
      }
      imageAvailable := imageAvailable[i := handles[i].imageAvailable];
      if results[i].renderFinished != Success {
        return Err("failed to create swapchain sync objects"), imageAvailable, renderFinished, fences;
      }
      renderFinished := renderFinished[i := handles[i].renderFinished];
      if results[i].fence != Success {
        return Err("failed to create swapchain sync objects"), imageAvailable, renderFinished, fences;
      }
      fences := fences[i := handles[i].fence];
    }
    r := Ok(());
  }

  class SwapChain {
    var windowExtent: Extent2D
    const vsync: bool
    const allowTearing: bool
    var support: SupportDetails
    var maxFramesInFlight: nat
    var swapChain: Handle
    var images: seq<Handle>
    var imageViews: seq<Handle>
    var imageFormat: Format
    var imageColorSpace: ColorSpace
    var extent: Extent2D
    var currentFrame: nat
    var imageAvailableSemaphores: seq<Handle>
    var renderFinishedSemaphores: seq<Handle>
    var inFlightFences: seq<Handle>
    /** Whether each in-flight fence is signaled. */
    var fenceSignaled: seq<bool>

    /** The frame ring as acquire and present see it. */
    function Ring(): FrameRing
      reads this`currentFrame, this`maxFramesInFlight, this`fenceSignaled
    {
      FrameRing(currentFrame, maxFramesInFlight, fenceSignaled)
    }

    /** Ready for frames: one semaphore pair and one fence per slot, and the ring well formed. */
    predicate Valid()
      reads this`currentFrame, this`maxFramesInFlight, this`fenceSignaled,
            this`imageAvailableSemaphores, this`renderFinishedSemaphores, this`inFlightFences
    {
      RingValid(Ring()) &&
      |imageAvailableSemaphores| == maxFramesInFlight && |renderFinishedSemaphores| == maxFramesInFlight &&
      |inFlightFences| == maxFramesInFlight
    }

    /** The member initialisers: no swapchain, no frames in flight, slot 0. */
    constructor Init(windowExtent: Extent2D, vsync: bool, allowTearing: bool, support: SupportDetails)
      ensures this.windowExtent == windowExtent && this.vsync == vsync && this.allowTearing == allowTearing
      ensures this.support == support
      ensures maxFramesInFlight == 0 && currentFrame == 0 && swapChain == NULL_HANDLE
      ensures images == [] && imageViews == []
      ensures imageAvailableSemaphores == [] && renderFinishedSemaphores == [] && inFlightFences == []
      ensures fenceSignaled == []
    {
      this.windowExtent := windowExtent;
      this.vsync := vsync;
      this.allowTearing := allowTearing;
      this.support := support;
      maxFramesInFlight := 0;
      swapChain := NULL_HANDLE;
      images := [];
      imageViews := [];
      imageFormat := OtherFormat(0);
      imageColorSpace := OtherColorSpace(0);
      extent := Extent2D(0, 0);
      currentFrame := 0;
      imageAvailableSemaphores := [];
      renderFinishedSemaphores := [];
      inFlightFences := [];
      fenceSignaled := [];
    }

    /**
     * createSwapChain: apply the rules to the current support details, then
     * vkCreateSwapchainKHR under VK_CHECK; `handle` and `driverImages` are
     * the driver's answers.
     */
    method CreateSwapChain(oldSwapchain: Handle, createResult: VkResult, handle: Handle, driverImages: seq<Handle>)
      returns (r: Result<()>, info: SwapchainCreateInfo)
      requires |support.formats| > 0 && ExtentBoundsOrdered(support.capabilities)
      modifies this`swapChain, this`maxFramesInFlight, this`images, this`imageFormat, this`imageColorSpace, this`extent
      ensures info.minImageCount == ImageCount(support.capabilities)
      ensures info.imageFormat == PreferredFormat(support.formats).format
      ensures info.imageColorSpace == PreferredFormat(support.formats).colorSpace
      ensures info.presentMode == ChoosePresentMode(vsync, allowTearing, support.presentModes)
      ensures info.imageExtent == ChooseExtent(support.capabilities, windowExtent)
      ensures info.oldSwapchain == oldSwapchain && info.preTransform == support.capabilities.currentTransform
      ensures r.Ok? <==> createResult == Success
      ensures r.Err? ==> unchanged(this`swapChain, this`maxFramesInFlight, this`images) &&
                         unchanged(this`imageFormat, this`imageColorSpace, this`extent)
      ensures r.Ok? ==> swapChain == handle && maxFramesInFlight == DEFAULT_FRAMES_IN_FLIGHT &&
                        images == driverImages && extent == info.imageExtent &&
                        imageFormat == info.imageFormat && imageColorSpace == info.imageColorSpace
    {
      var caps := support.capabilities;
      var surfaceFmt := ChooseFormat(support.formats);
      var presentMd := ChoosePresentMode(vsync, allowTearing, support.presentModes);
      var ext := ChooseExtent(caps, windowExtent);
      info := SwapchainCreateInfo(ImageCount(caps), surfaceFmt.format, surfaceFmt.colorSpace, ext,
                                  presentMd, caps.currentTransform, oldSwapchain);
      r := Checked(createResult, (), "vkCreateSwapchainKHR");
      if r.Err? {
        return;
      }
      swapChain := handle;
      maxFramesInFlight := DEFAULT_FRAMES_IN_FLIGHT;
      images := driverImages;
      imageFormat := surfaceFmt.format;
      imageColorSpace := surfaceFmt.colorSpace;
      extent := ext;
    }

    /** createImageViews: one view per swapchain image. */
    method CreateImageViews(results: seq<VkResult>, handles: seq<Handle>) returns (r: Result<()>)
      requires |results| == |images| && |handles| == |images|
      modifies this`imageViews
      ensures |imageViews| == |images|
      ensures r.Ok? <==> forall i :: 0 <= i < |images| ==> results[i] == Success
      ensures r.Ok? ==> imageViews == handles
    {
      r, imageViews := MakeImageViews(images, results, handles);
    }

    /** cleanupImageViews: destroy every view and empty the list. */
    method CleanupImageViews() returns (destroyed: seq<Handle>)
      modifies this`imageViews
      ensures destroyed == old(imageViews) && imageViews == []
    {
      destroyed := imageViews;
      imageViews := [];
    }

    /**
     * createSyncObjects: resize the three lists to maxFramesInFlight and fill
     * them slot by slot; fences are created signaled and the ring is reset.
     */
    method CreateSyncObjects(results: seq<SlotResults>, handles: seq<SlotHandles>) returns (r: Result<()>)
      requires |results| == maxFramesInFlight && |handles| == maxFramesInFlight
      modifies this`imageAvailableSemaphores, this`renderFinishedSemaphores, this`inFlightFences, this`fenceSignaled
      ensures r.Ok? <==> forall i :: 0 <= i < maxFramesInFlight ==> SlotOk(results[i])
      ensures |imageAvailableSemaphores| == maxFramesInFlight && |renderFinishedSemaphores| == maxFramesInFlight
      ensures |inFlightFences| == maxFramesInFlight
      ensures fenceSignaled == InitialRing(maxFramesInFlight).signaled
      ensures r.Ok? ==> forall i :: 0 <= i < maxFramesInFlight ==>
                imageAvailableSemaphores[i] == handles[i].imageAvailable &&
                renderFinishedSemaphores[i] == handles[i].renderFinished && inFlightFences[i] == handles[i].fence
    {
      var n := maxFramesInFlight;
      r, imageAvailableSemaphores, renderFinishedSemaphores, inFlightFences :=
        MakeSyncObjects(Resized(imageAvailableSemaphores, n), Resized(renderFinishedSemaphores, n),
                        Resized(inFlightFences, n), results, handles);
      fenceSignaled := seq(n, _ => true);
    }

    /** cleanupSyncObjects: destroy every semaphore and fence and empty the three lists. */
    method CleanupSyncObjects() returns (destroyed: seq<Handle>)
      modifies this`imageAvailableSemaphores, this`renderFinishedSemaphores, this`inFlightFences, this`fenceSignaled
      ensures destroyed == old(imageAvailableSemaphores) + old(renderFinishedSemaphores) + old(inFlightFences)
      ensures imageAvailableSemaphores == [] && renderFinishedSemaphores == [] && inFlightFences == []
      ensures fenceSignaled == []
    {
      destroyed := imageAvailableSemaphores + renderFinishedSemaphores + inFlightFences;
      imageAvailableSemaphores := [];
      renderFinishedSemaphores := [];
      inFlightFences := [];
      fenceSignaled := [];
    }

    /**
     * acquireNextImage: wait for the current slot's fence, then
     * vkAcquireNextImageKHR signalling the slot's image-available semaphore,
     * resetting the fence only when the acquire returned VK_SUCCESS (see
     * Findings). `acquireResult` and `imageIndex` are the driver's answers.
     */
    method AcquireNextImage(acquireResult: VkResult, imageIndex: nat) returns (out: AcquireOutcome)
      requires Valid()
      modifies this`fenceSignaled
      ensures Valid()
      ensures Ring() == AcquireStep(old(Ring()), acquireResult).0
      ensures out.Blocked? <==> !AcquireStep(old(Ring()), acquireResult).1
      ensures out.Acquired? ==>
                out == Acquired(acquireResult, imageIndex, imageAvailableSemaphores[currentFrame])
    {
      if !fenceSignaled[currentFrame] {
        return Blocked;
      }
      if acquireResult == Success {
        fenceSignaled := fenceSignaled[currentFrame := false];
      }
      out := Acquired(acquireResult, imageIndex, imageAvailableSemaphores[currentFrame]);
    }

    /**
     * The submission the fences are declared for (SwapChain.hpp:81): the
     * GPU finishing a frame's work signals that slot's fence. The class as
     * written gives no way to hand a fence to a submit (see Findings); this
     * method stands for it.
     */
    method SignalFence(slot: nat)
      requires Valid() && slot < maxFramesInFlight
      modifies this`fenceSignaled
      ensures Valid()
      ensures Ring() == SignalStep(old(Ring()), slot)
    {
      fenceSignaled := fenceSignaled[slot := true];
    }

    /**
     * presentImage: present `imageIndex` waiting on the slot's
     * render-finished semaphore, then move to the next slot whatever the
     * result. `waitValue` reaches nothing the present call sees.
     */
    method PresentImage(imageIndex: nat, waitValue: nat, presentResult: VkResult)
      returns (result: VkResult, info: PresentInfo)
      requires Valid()
      modifies this`currentFrame
      ensures Valid()
      ensures info == PresentInfo(renderFinishedSemaphores[old(currentFrame)], swapChain, imageIndex)
      ensures result == presentResult
      ensures Ring() == PresentStep(old(Ring()))
    {
      info := PresentInfo(renderFinishedSemaphores[currentFrame], swapChain, imageIndex);
      result := presentResult;
      currentFrame := (currentFrame + 1) % maxFramesInFlight;
    }

    /**
     * createSwapChain, createImageViews, createSyncObjects: what both the
     * constructor and recreate run, stopping at the first error.
     */
    method Build(oldSwapchain: Handle, createResult: VkResult, handle: Handle, driverImages: seq<Handle>,
                 viewResults: seq<VkResult>, viewHandles: seq<Handle>,
                 syncResults: seq<SlotResults>, syncHandles: seq<SlotHandles>)
      returns (r: Result<()>)
      requires |support.formats| > 0 && ExtentBoundsOrdered(support.capabilities)
      requires |viewResults| == |driverImages| && |viewHandles| == |driverImages|
      requires |syncResults| == DEFAULT_FRAMES_IN_FLIGHT && |syncHandles| == DEFAULT_FRAMES_IN_FLIGHT
      modifies this`swapChain, this`maxFramesInFlight, this`images, this`imageFormat, this`imageColorSpace,
               this`extent, this`imageViews,
               this`imageAvailableSemaphores, this`renderFinishedSemaphores, this`inFlightFences, this`fenceSignaled
      ensures r.Ok? <==> createResult == Success &&
                         (forall i :: 0 <= i < |driverImages| ==> viewResults[i] == Success) &&
                         (forall i :: 0 <= i < DEFAULT_FRAMES_IN_FLIGHT ==> SlotOk(syncResults[i]))
      ensures r.Ok? ==> maxFramesInFlight == DEFAULT_FRAMES_IN_FLIGHT && fenceSignaled == [true, true]
      ensures r.Ok? ==> |imageAvailableSemaphores| == DEFAULT_FRAMES_IN_FLIGHT &&
                        |renderFinishedSemaphores| == DEFAULT_FRAMES_IN_FLIGHT &&
                        |inFlightFences| == DEFAULT_FRAMES_IN_FLIGHT
      ensures r.Ok? ==> swapChain == handle && images == driverImages && imageViews == viewHandles
      ensures r.Ok? ==> extent == ChooseExtent(support.capabilities, windowExtent)
    {
      var info;
      r, info := CreateSwapChain(oldSwapchain, createResult, handle, driverImages);
      if r.Err? {
        return;
      }
      r := CreateImageViews(viewResults, viewHandles);
      if r.Err? {
        return;
      }
      r := CreateSyncObjects(syncResults, syncHandles);
    }

    /**
     * recreate: take the new window extent, wait for every in-flight fence
     * (so all must be signaled), tear down views and sync objects, build the
     * swapchain again from fresh support details with the old one as
     * oldSwapchain, go back to slot 0 and destroy the old swapchain. An
     * error on the way is the exception, and leaves the slot as it was.
     */
    method Recreate(newExtent: Extent2D, newSupport: SupportDetails,
                    createResult: VkResult, handle: Handle, driverImages: seq<Handle>,
                    viewResults: seq<VkResult>, viewHandles: seq<Handle>,
                    syncResults: seq<SlotResults>, syncHandles: seq<SlotHandles>)
      returns (r: Result<()>, destroyed: seq<Handle>)
      requires AllSignaled(fenceSignaled)
      requires |newSupport.formats| > 0 && ExtentBoundsOrdered(newSupport.capabilities)
      requires |viewResults| == |driverImages| && |viewHandles| == |driverImages|
      requires |syncResults| == DEFAULT_FRAMES_IN_FLIGHT && |syncHandles| == DEFAULT_FRAMES_IN_FLIGHT
      modifies this`windowExtent, this`support, this`currentFrame,
               this`swapChain, this`maxFramesInFlight, this`images, this`imageFormat, this`imageColorSpace,
               this`extent, this`imageViews,
               this`imageAvailableSemaphores, this`renderFinishedSemaphores, this`inFlightFences, this`fenceSignaled
      ensures windowExtent == newExtent && support == newSupport
      ensures r.Ok? <==> createResult == Success &&
                         (forall i :: 0 <= i < |driverImages| ==> viewResults[i] == Success) &&
                         (forall i :: 0 <= i < DEFAULT_FRAMES_IN_FLIGHT ==> SlotOk(syncResults[i]))
      ensures r.Err? ==> currentFrame == old(currentFrame)
      ensures r.Ok? ==> Valid() && Ring() == InitialRing(DEFAULT_FRAMES_IN_FLIGHT)
      ensures r.Ok? ==> swapChain == handle && images == driverImages && imageViews == viewHandles
      ensures r.Ok? ==> extent == ChooseExtent(newSupport.capabilities, newExtent)
      ensures r.Ok? ==> destroyed == old(imageViews) + old(imageAvailableSemaphores) + old(renderFinishedSemaphores) +
                                     old(inFlightFences) + Live(old(swapChain))
    {
      windowExtent := newExtent;
      destroyed := TearDown();
      var oldSwapchain := swapChain;
      support := newSupport;
      r := Build(oldSwapchain, createResult, handle, driverImages, viewResults, viewHandles, syncResults, syncHandles);
      if r.Err? {
        return;
      }
      currentFrame := 0;
      destroyed := destroyed + Live(oldSwapchain);
      assert InitialRing(DEFAULT_FRAMES_IN_FLIGHT).signaled == [true, true];
    }

    /** cleanupImageViews then cleanupSyncObjects. */
    method TearDown() returns (destroyed: seq<Handle>)
      modifies this`imageViews, this`imageAvailableSemaphores, this`renderFinishedSemaphores,
               this`inFlightFences, this`fenceSignaled
      ensures destroyed == old(imageViews) + old(imageAvailableSemaphores) + old(renderFinishedSemaphores) +
                           old(inFlightFences)
      ensures imageViews == [] && imageAvailableSemaphores == [] && renderFinishedSemaphores == []
      ensures inFlightFences == [] && fenceSignaled == []
    {
      var views := CleanupImageViews();
      var syncObjects := CleanupSyncObjects();
      destroyed := views + syncObjects;
    }

    /** The destructor: wait for every fence, then destroy views, sync objects and a non-null swapchain. */
    method Destroy() returns (destroyed: seq<Handle>)
      requires AllSignaled(fenceSignaled)
      modifies this`imageViews, this`imageAvailableSemaphores, this`renderFinishedSemaphores,
               this`inFlightFences, this`fenceSignaled
      ensures destroyed == old(imageViews) + old(imageAvailableSemaphores) + old(renderFinishedSemaphores) +
                           old(inFlightFences) + Live(swapChain)
      ensures imageViews == [] && imageAvailableSemaphores == [] && renderFinishedSemaphores == []
      ensures inFlightFences == [] && fenceSignaled == []
    {
      destroyed := TearDown();
      destroyed := destroyed + Live(swapChain);
    }
  }

  /**
   * The SwapChain constructor: the member initialisers, then Build with no
   * old swapchain. A new swapchain starts at slot 0 with both fences
   * signaled, so the first acquire does not wait.
   */
  method NewSwapChain(windowExtent: Extent2D, vsync: bool, allowTearing: bool, support: SupportDetails,
                      createResult: VkResult, handle: Handle, driverImages: seq<Handle>,
                      viewResults: seq<VkResult>, viewHandles: seq<Handle>,
                      syncResults: seq<SlotResults>, syncHandles: seq<SlotHandles>)
    returns (r: Result<SwapChain>)
    requires |support.formats| > 0 && ExtentBoundsOrdered(support.capabilities)
    requires |viewResults| == |driverImages| && |viewHandles| == |driverImages|
    requires |syncResults| == DEFAULT_FRAMES_IN_FLIGHT && |syncHandles| == DEFAULT_FRAMES_IN_FLIGHT
    ensures r.Ok? <==> createResult == Success &&
                       (forall i :: 0 <= i < |driverImages| ==> viewResults[i] == Success) &&
                       (forall i :: 0 <= i < DEFAULT_FRAMES_IN_FLIGHT ==> SlotOk(syncResults[i]))
    ensures r.Ok? ==> fresh(r.value) && r.value.Valid()
    ensures r.Ok? ==> r.value.Ring() == InitialRing(DEFAULT_FRAMES_IN_FLIGHT)
    ensures r.Ok? ==> r.value.swapChain == handle && r.value.images == driverImages
    ensures r.Ok? ==> r.value.extent == ChooseExtent(support.capabilities, windowExtent)
  {
    var sc := new SwapChain.Init(windowExtent, vsync, allowTearing, support);
    var built := sc.Build(NULL_HANDLE, createResult, handle, driverImages, viewResults, viewHandles,
                          syncResults, syncHandles);
    if built.Err? {
      return Err(built.message);
    }
    assert InitialRing(DEFAULT_FRAMES_IN_FLIGHT).signaled == [true, true];
    return Ok(sc);
  }

  /** destroySwapChainHandle: destroy only a non-null handle. */
  function Live(h: Handle): seq<Handle>
  {
    if h == NULL_HANDLE then [] else [h]
  }
}
