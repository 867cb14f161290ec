// The frame graph: passes registered in order, compiled into render passes,
// and recorded each frame with a layout barrier wherever an attachment's
// tracked layout differs from the layout its pass expects.

module FrameGraph {
  import opened Vk
  import RP = RenderPass

  /** An attachment's image together with the layout it was last left in. */
  datatype FrameGraphImage = FrameGraphImage(handle: Handle, lastLayout: ImageLayout)

  /** A default-constructed FrameGraphImage. */
  const DEFAULT_IMAGE: FrameGraphImage := FrameGraphImage(NULL_HANDLE, Undefined)

  /**
   * One registered pass. The clear values are kept as their count and the
   * record callback is identified by the pass's position; rp is None until
   * the graph is compiled.
   */
  datatype FrameGraphPass = FrameGraphPass(
    info: RP.RenderPassCreateInfo,
    indexMap: seq<nat>,
    clearCount: nat,
    rp: Option<RP.RenderPass>,
    images: seq<FrameGraphImage>)

  datatype ImageAspect = ColorAspect | DepthAspect | StencilAspect

  /** What recordPasses puts into the command buffer. */
  datatype Command =
    | Barrier(pass: nat, attachment: nat, image: Handle, oldLayout: ImageLayout, newLayout: ImageLayout, aspect: ImageAspect)
    | BeginPass(pass: nat, imageIndex: nat, clearValueCount: nat)
    | ExecutePass(pass: nat)
    | EndPass(pass: nat)

  /** A pass as the graph keeps it: a full role map, and tracked images only once compiled, one per attachment. */
  predicate PassShape(p: FrameGraphPass)
  {
    |p.indexMap| == RP.ROLE_SLOTS &&
    (p.rp.None? ==> p.images == []) &&
    (p.rp.Some? ==> |p.images| == |p.info.attachments|)
  }

  predicate AllShaped(passes: seq<FrameGraphPass>)
  {
    forall i :: 0 <= i < |passes| ==> PassShape(passes[i])
  }

  // ---------------------------------------------------------------------
  // Compilation

  /** The images compilePasses seeds: the frame's view of each attachment, in its initial layout. */
  function SeededImages(views: seq<Handle>, atts: seq<RP.AttachmentInfo>): seq<FrameGraphImage>
    requires |views| == |atts|
  {
    seq(|atts|, a requires 0 <= a < |atts| => FrameGraphImage(views[a], atts[a].desc.initialLayout))
  }

  /** p after compilePasses rebuilt it with render pass `rp`: everything else as registered. */
  predicate CompiledFrom(old_p: FrameGraphPass, p: FrameGraphPass, frameViews: seq<Handle>)
  {
    |frameViews| == |old_p.info.attachments| &&
    p.rp.Some? &&
    p == old_p.(rp := p.rp, images := SeededImages(frameViews, old_p.info.attachments))
  }

  /** compilePasses' inner loop: one image per attachment, in attachment order. */
  method SeedImages(frameViews: seq<Handle>, atts: seq<RP.AttachmentInfo>) returns (images: seq<FrameGraphImage>)
    requires |frameViews| == |atts|
    ensures images == SeededImages(frameViews, atts)
  {
    images := [];
    for a := 0 to |atts|
      invariant |images| == a
      invariant forall j :: 0 <= j < a ==> images[j] == FrameGraphImage(frameViews[j], atts[j].desc.initialLayout)
    {
      images := images + [FrameGraphImage(frameViews[a], atts[a].desc.initialLayout)];
    }
  }

  /** What compilePasses needs of every pass: a translatable role map and one view per attachment in every frame. */
  predicate Compilable(passes: seq<FrameGraphPass>, views: seq<seq<Handle>>)
  {
    forall i :: 0 <= i < |passes| ==>
      RP.Translatable(passes[i].info, passes[i].indexMap) && RP.ViewsFit(passes[i].info, views)
  }

  /**
   * compilePasses: for each pass in turn, a new RenderPass, then its image
   * wrappers for the frame `imageIndex`. `createResults[i]` and `handles[i]`
   * are the driver's answers to pass i's vkCreateRenderPass. A failure
   * stops the loop at `failedAt`: the passes before it are rebuilt, it and
   * those after it are as they were.
   */
  method CompilePasses(passes: seq<FrameGraphPass>, views: seq<seq<Handle>>, inFlightFences: seq<Handle>,
                       currentFrame: nat, extent: Extent2D, imageIndex: nat,
                       createResults: seq<VkResult>, handles: seq<Handle>)
    returns (r: Result<()>, out: seq<FrameGraphPass>, failedAt: nat)
    requires Compilable(passes, views) && imageIndex < |views|
    requires |createResults| == |passes| && |handles| == |passes|
    ensures |out| == |passes| && failedAt <= |passes|
    ensures r.Ok? <==> failedAt == |passes|
    ensures forall i :: 0 <= i < failedAt ==> createResults[i] == Success
    ensures failedAt < |passes| ==> createResults[failedAt] != Success
    ensures forall i :: 0 <= i < failedAt ==> CompiledFrom(passes[i], out[i], views[imageIndex])
    ensures forall i :: failedAt <= i < |passes| ==> out[i] == passes[i]
    ensures forall i :: 0 <= i < failedAt ==>
              out[i].rp.Some? && fresh(out[i].rp.value) && out[i].rp.value.renderPass == handles[i] &&
              out[i].rp.value.info == passes[i].info && out[i].rp.value.indexOf == passes[i].indexMap &&
              out[i].rp.value.frameBuffers == RP.FramebuffersFor(handles[i], extent, views)
  {
    out := passes;
    failedAt := 0;
    while failedAt < |passes|
      invariant failedAt <= |passes| && |out| == |passes|
      invariant forall i :: 0 <= i < failedAt ==> createResults[i] == Success
      invariant forall i :: 0 <= i < failedAt ==> CompiledFrom(passes[i], out[i], views[imageIndex])
      invariant forall i :: failedAt <= i < |passes| ==> out[i] == passes[i]
      invariant forall i :: 0 <= i < failedAt ==>
                  out[i].rp.Some? && fresh(out[i].rp.value) && out[i].rp.value.renderPass == handles[i] &&
                  out[i].rp.value.info == passes[i].info && out[i].rp.value.indexOf == passes[i].indexMap &&
                  out[i].rp.value.frameBuffers == RP.FramebuffersFor(handles[i], extent, views)
    {
      var p := passes[failedAt];
      var made := RP.NewRenderPass(p.info, p.indexMap, extent, views, inFlightFences, currentFrame,
                                   createResults[failedAt], handles[failedAt]);
      if made.Err? {
        return Err(made.message), out, failedAt;
      }
      assert RP.ViewsFit(p.info, views);
      var images := SeedImages(views[imageIndex], p.info.attachments);
      out := out[failedAt := p.(rp := Some(made.value), images := images)];
      failedAt := failedAt + 1;
    }
    r := Ok(());
  }

  // ---------------------------------------------------------------------
  // Recording

  /** The barrier recordPasses emits for attachment a of pass `pass`; the aspect is always color. */
  function BarrierFor(pass: nat, images: seq<FrameGraphImage>, atts: seq<RP.AttachmentInfo>, a: nat): Command
    requires a < |images| && a < |atts|
  {
    Barrier(pass, a, images[a].handle, images[a].lastLayout, atts[a].desc.initialLayout, ColorAspect)
  }

  /** The barriers for one pass, attachment by attachment: one wherever the tracked layout is not the required one. */
  function PassBarriers(pass: nat, images: seq<FrameGraphImage>, atts: seq<RP.AttachmentInfo>): seq<Command>
    requires |images| <= |atts|
  {
    if images == [] then []
    else
      var a := |images| - 1;
      PassBarriers(pass, images[..a], atts) +
      (if images[a].lastLayout != atts[a].desc.initialLayout then [BarrierFor(pass, images, atts, a)] else [])
  }

  /** What one pass records: barriers (none for the first pass), then begin, the callback and end. */
  function PassCommands(i: nat, p: FrameGraphPass, imageIndex: nat): seq<Command>
    requires |p.images| <= |p.info.attachments|
  {
    (if i == 0 then [] else PassBarriers(i, p.images, p.info.attachments)) +
    [BeginPass(i, imageIndex, p.clearCount), ExecutePass(i), EndPass(i)]
  }

  /** What the first n passes record, in registration order. */
  function FrameCommands(passes: seq<FrameGraphPass>, imageIndex: nat, n: nat): seq<Command>
    requires n <= |passes| && AllShaped(passes)
  {
    if n == 0 then [] else FrameCommands(passes, imageIndex, n - 1) + PassCommands(n - 1, passes[n - 1], imageIndex)
  }

  /** Every tracked image of a pass set to its attachment's final layout; handles kept. */
  function SettledImages(images: seq<FrameGraphImage>, atts: seq<RP.AttachmentInfo>): seq<FrameGraphImage>
    requires |images| <= |atts|
  {
    seq(|images|, a requires 0 <= a < |images| => images[a].(lastLayout := atts[a].desc.finalLayout))
  }

  function SettledPasses(passes: seq<FrameGraphPass>): seq<FrameGraphPass>
    requires AllShaped(passes)
  {
    seq(|passes|, i requires 0 <= i < |passes| =>
      passes[i].(images := SettledImages(passes[i].images, passes[i].info.attachments)))
  }

  /** The barrier loop of recordPasses for one pass. */
  method EmitBarriers(pass: nat, images: seq<FrameGraphImage>, atts: seq<RP.AttachmentInfo>) returns (cmds: seq<Command>)
    requires |images| <= |atts|
    ensures cmds == PassBarriers(pass, images, atts)
  {
    cmds := [];
    for a := 0 to |images|
      invariant cmds == PassBarriers(pass, images[..a], atts)
    {
      assert images[..a + 1][..a] == images[..a];
      if images[a].lastLayout != atts[a].desc.initialLayout {
        cmds := cmds + [BarrierFor(pass, images, atts, a)];
      }
    }
    assert images[..|images|] == images;
  }

  /** The layout-update loop after each pass. */
  method SettleImages(images: seq<FrameGraphImage>, atts: seq<RP.AttachmentInfo>) returns (settled: seq<FrameGraphImage>)
    requires |images| <= |atts|
    ensures settled == SettledImages(images, atts)
  {
    settled := images;
    for a := 0 to |images|
      invariant |settled| == |images|
      invariant forall j :: 0 <= j < a ==> settled[j] == images[j].(lastLayout := atts[j].desc.finalLayout)
      invariant forall j :: a <= j < |images| ==> settled[j] == images[j]
    {
      settled := settled[a := settled[a].(lastLayout := atts[a].desc.finalLayout)];
    }
  }

  /** One pass of recordPasses: its commands, then its images settled in their final layouts. */
  method RecordPass(i: nat, p: FrameGraphPass, imageIndex: nat) returns (cmds: seq<Command>, settled: FrameGraphPass)
    requires PassShape(p)
    ensures cmds == PassCommands(i, p, imageIndex)
    ensures settled == p.(images := SettledImages(p.images, p.info.attachments))
  {
    var barriers: seq<Command> := [];
    if i > 0 {
      barriers := EmitBarriers(i, p.images, p.info.attachments);
    }
    cmds := barriers + [BeginPass(i, imageIndex, p.clearCount), ExecutePass(i), EndPass(i)];
    var images := SettleImages(p.images, p.info.attachments);
    settled := p.(images := images);
  }

  /** recordPasses' pass loop (the first pass and the rest, which differ only in the barriers). */
  method RecordPassList(passes: seq<FrameGraphPass>, imageIndex: nat) returns (cmds: seq<Command>, out: seq<FrameGraphPass>)
    requires AllShaped(passes)
    ensures cmds == FrameCommands(passes, imageIndex, |passes|)
    ensures out == SettledPasses(passes)
  {
    cmds := [];
    out := passes;
    for i := 0 to |passes|
      invariant |out| == |passes|
      invariant cmds == FrameCommands(passes, imageIndex, i)
      invariant forall j :: 0 <= j < i ==>
                  out[j] == passes[j].(images := SettledImages(passes[j].images, passes[j].info.attachments))
      invariant forall j :: i <= j < |passes| ==> out[j] == passes[j]
    {
      assert PassShape(passes[i]);
      var passCmds, settled := RecordPass(i, passes[i], imageIndex);
      cmds := cmds + passCmds;
      out := out[i := settled];
    }
  }

  class FrameGraph {
    var extent: Extent2D
    var cmd: Handle
    var imageIndex: nat
    var dirty: bool
    var passes: seq<FrameGraphPass>
    /** The commands recorded into the command buffers by endFrame, in order. */
    var recorded: seq<Command>

    predicate Valid()
      reads this`passes
    {
      AllShaped(passes)
    }

    /** A new graph: dirty, no passes, a null command buffer, image index 0. */
    constructor ()
      ensures Valid()
      ensures dirty && passes == [] && cmd == NULL_HANDLE && imageIndex == 0
      ensures extent == Extent2D(0, 0) && recorded == []
    {
      extent := Extent2D(0, 0);
      cmd := NULL_HANDLE;
      imageIndex := 0;
      dirty := true;
      passes := [];
      recorded := [];
    }

    /** addPass: append one uncompiled pass, mark the graph dirty, return the pass's index. */
    method AddPass(info: RP.RenderPassCreateInfo, indexMap: seq<nat>, clearCount: nat) returns (index: nat)
      requires Valid() && |indexMap| == RP.ROLE_SLOTS
      modifies this`passes, this`dirty
      ensures Valid()
      ensures index == |old(passes)|
      ensures passes == old(passes) + [FrameGraphPass(info, indexMap, clearCount, None, [])]
      ensures dirty
    {
      dirty := true;
      passes := passes + [FrameGraphPass(info, indexMap, clearCount, None, [])];
      index := |passes| - 1;
    }

    /** beginFrame: remember the extent, command buffer and image index for compile and endFrame. */
    method BeginFrame(extent: Extent2D, cmd: Handle, imageIndex: nat)
      modifies this`extent, this`cmd, this`imageIndex
      ensures this.extent == extent && this.cmd == cmd && this.imageIndex == imageIndex
    {
      this.extent := extent;
      this.cmd := cmd;
      this.imageIndex := imageIndex;
    }

    /**
     * compile: nothing unless dirty; otherwise rebuild every pass for the
     * current extent and image index and clear dirty. A failed
     * vkCreateRenderPass leaves the graph dirty.
     */
    method Compile(views: seq<seq<Handle>>, inFlightFences: seq<Handle>, currentFrame: nat,
                   createResults: seq<VkResult>, handles: seq<Handle>)
      returns (r: Result<()>)
      requires Valid() && Compilable(passes, views) && imageIndex < |views|
      requires |createResults| == |passes| && |handles| == |passes|
      modifies this`passes, this`dirty
      ensures Valid() && |passes| == |old(passes)|
      ensures !old(dirty) ==> r.Ok? && passes == old(passes) && !dirty
      ensures old(dirty) ==> (r.Ok? <==> forall i :: 0 <= i < |passes| ==> createResults[i] == Success)
      ensures old(dirty) && r.Ok? ==> !dirty
      ensures r.Err? ==> dirty
      ensures old(dirty) && r.Ok? ==> forall i :: 0 <= i < |passes| ==>
                CompiledFrom(old(passes)[i], passes[i], views[imageIndex]) &&
                passes[i].rp.value.renderPass == handles[i] &&
                passes[i].rp.value.frameBuffers == RP.FramebuffersFor(handles[i], extent, views)
    {
      if !dirty {
        return Ok(());
      }
      var out, failedAt;
      r, out, failedAt := CompilePasses(passes, views, inFlightFences, currentFrame, extent, imageIndex,
                                        createResults, handles);
      passes := out;
      if r.Ok? {
        dirty := false;
      } else {
        assert !(createResults[failedAt] == Success);
      }
    }

    /**
     * endFrame: with no passes or no command buffer, nothing; otherwise
     * record every pass and leave each tracked image in its final layout.
     */
    method EndFrame()
      requires Valid()
      requires cmd != NULL_HANDLE ==> forall i :: 0 <= i < |passes| ==> passes[i].rp.Some?
      modifies this`passes, this`recorded
      ensures Valid()
      ensures old(passes) == [] || cmd == NULL_HANDLE ==> passes == old(passes) && recorded == old(recorded)
      ensures old(passes) != [] && cmd != NULL_HANDLE ==>
                recorded == old(recorded) + FrameCommands(old(passes), imageIndex, |old(passes)|) &&
                passes == SettledPasses(old(passes))
    {
      if passes == [] || cmd == NULL_HANDLE {
        return;
      }
      var cmds, out := RecordPassList(passes, imageIndex);
      recorded := recorded + cmds;
      passes := out;
    }
  }

  // ---------------------------------------------------------------------
  // Properties of what is recorded

  /** Every barrier of a pass is the one for its attachment, emitted only where the layouts differ. */
  lemma {:induction false} PassBarriersSound(pass: nat, images: seq<FrameGraphImage>, atts: seq<RP.AttachmentInfo>, c: Command)
    requires |images| <= |atts| && c in PassBarriers(pass, images, atts)
    ensures c.Barrier? && c.pass == pass && c.attachment < |images|
    ensures c == BarrierFor(pass, images, atts, c.attachment)
    ensures images[c.attachment].lastLayout != atts[c.attachment].desc.initialLayout
  {
    var a := |images| - 1;
    if c in PassBarriers(pass, images[..a], atts) {
      PassBarriersSound(pass, images[..a], atts, c);
    }
  }

  /** Every attachment whose layouts differ gets its barrier. */
  lemma {:induction false} PassBarriersComplete(pass: nat, images: seq<FrameGraphImage>, atts: seq<RP.AttachmentInfo>, a: nat)
    requires |images| <= |atts| && a < |images|
    requires images[a].lastLayout != atts[a].desc.initialLayout
    ensures BarrierFor(pass, images, atts, a) in PassBarriers(pass, images, atts)
  {
    var last := |images| - 1;
    if a < last {
      PassBarriersComplete(pass, images[..last], atts, a);
      assert BarrierFor(pass, images[..last], atts, a) == BarrierFor(pass, images, atts, a);
    }
  }

  /** Which pass recorded a command, and: barriers come only from passes after the first. */
  lemma FrameCommandsSound(passes: seq<FrameGraphPass>, imageIndex: nat, n: nat, c: Command)
    requires n <= |passes| && AllShaped(passes)
    requires c in FrameCommands(passes, imageIndex, n)
    ensures c.pass < n
    ensures c.Barrier? ==> 0 < c.pass && c in PassBarriers(c.pass, passes[c.pass].images, passes[c.pass].info.attachments)
  {
    var all := FrameCommands(passes, imageIndex, n);
    FrameSound(passes, imageIndex, n);
    var k :| 0 <= k < |all| && all[k] == c;
    assert c.pass < n && (c.Barrier? ==> RecordedBarrier(passes, c));
    if c.Barrier? {
      var p := passes[c.pass];
      PassBarriersComplete(c.pass, p.images, p.info.attachments, c.attachment);
    }
  }

  /** c is the barrier its pass records for its attachment, whose tracked and required layouts differ. */
  ghost predicate RecordedBarrier(passes: seq<FrameGraphPass>, c: Command)
    requires c.Barrier?
  {
    0 < c.pass < |passes| && PassShape(passes[c.pass]) &&
    c.attachment < |passes[c.pass].images| &&
    c == BarrierFor(c.pass, passes[c.pass].images, passes[c.pass].info.attachments, c.attachment) &&
    passes[c.pass].images[c.attachment].lastLayout != passes[c.pass].info.attachments[c.attachment].desc.initialLayout
  }

  /** Every command names a pass below n, and every barrier is the one its pass records. */
  ghost predicate CommandsSound(passes: seq<FrameGraphPass>, cmds: seq<Command>, n: nat)
  {
    forall j :: 0 <= j < |cmds| ==> cmds[j].pass < n && (cmds[j].Barrier? ==> RecordedBarrier(passes, cmds[j]))
  }

  lemma {:induction false} FrameSound(passes: seq<FrameGraphPass>, imageIndex: nat, n: nat)
    requires n <= |passes| && AllShaped(passes)
    ensures CommandsSound(passes, FrameCommands(passes, imageIndex, n), n)
  {
    if n > 0 {
      FrameSound(passes, imageIndex, n - 1);
      FrameSoundStep(passes, imageIndex, n);
    }
  }

  lemma FrameSoundStep(passes: seq<FrameGraphPass>, imageIndex: nat, n: nat)
    requires 0 < n <= |passes| && AllShaped(passes)
    requires CommandsSound(passes, FrameCommands(passes, imageIndex, n - 1), n - 1)
    ensures CommandsSound(passes, FrameCommands(passes, imageIndex, n), n)
  {
    assert PassShape(passes[n - 1]);
    PassSound(passes, n - 1, imageIndex);
    var prefix := FrameCommands(passes, imageIndex, n - 1);
    var own := PassCommands(n - 1, passes[n - 1], imageIndex);
    assert FrameCommands(passes, imageIndex, n) == prefix + own;
    SoundConcat(passes, prefix, own, n - 1, n);
  }

  lemma PassSound(passes: seq<FrameGraphPass>, i: nat, imageIndex: nat)
    requires i < |passes| && PassShape(passes[i])
    ensures CommandsSound(passes, PassCommands(i, passes[i], imageIndex), i + 1)
  {
    var p := passes[i];
    var own := PassCommands(i, p, imageIndex);
    forall j | 0 <= j < |own| ensures own[j].pass < i + 1 && (own[j].Barrier? ==> RecordedBarrier(passes, own[j])) {
      PassCommandsSound(i, p, imageIndex, own[j]);
      if own[j].Barrier? {
        PassBarriersSound(i, p.images, p.info.attachments, own[j]);
      }
    }
  }

  lemma SoundConcat(passes: seq<FrameGraphPass>, a: seq<Command>, b: seq<Command>, m: nat, n: nat)
    requires m <= n && CommandsSound(passes, a, m) && CommandsSound(passes, b, n)
    ensures CommandsSound(passes, a + b, n)
  {
    forall j | 0 <= j < |a + b| ensures (a + b)[j].pass < n && ((a + b)[j].Barrier? ==> RecordedBarrier(passes, (a + b)[j])) {
      if j < |a| {
        assert (a + b)[j] == a[j];
      } else {
        assert (a + b)[j] == b[j - |a|];
      }
    }
  }

  /** What one pass records belongs to that pass, and its barriers are the pass's barriers. */
  lemma PassCommandsSound(i: nat, p: FrameGraphPass, imageIndex: nat, c: Command)
    requires |p.images| <= |p.info.attachments|
    requires c in PassCommands(i, p, imageIndex)
    ensures c.pass == i
    ensures c.Barrier? ==> 0 < i && c in PassBarriers(i, p.images, p.info.attachments)
  {
    var bs := if i == 0 then [] else PassBarriers(i, p.images, p.info.attachments);
    var tail := [BeginPass(i, imageIndex, p.clearCount), ExecutePass(i), EndPass(i)];
    assert PassCommands(i, p, imageIndex) == bs + tail;
    if c in bs {
      PassBarriersSound(i, p.images, p.info.attachments, c);
    } else {
      assert c in tail;
    }
  }

  /** Every command of each of the first n passes occurs in cmds. */
  ghost predicate Covers(passes: seq<FrameGraphPass>, imageIndex: nat, cmds: seq<Command>, n: nat)
  {
    forall i, c :: 0 <= i < n && i < |passes| && PassShape(passes[i]) && c in PassCommands(i, passes[i], imageIndex) ==> c in cmds
  }

  /** Each of the first n passes has all of its commands recorded for the frame. */
  lemma FrameCommandsContain(passes: seq<FrameGraphPass>, imageIndex: nat, n: nat, i: nat)
    requires n <= |passes| && AllShaped(passes) && i < n
    ensures assert PassShape(passes[i]);
            forall c :: c in PassCommands(i, passes[i], imageIndex) ==> c in FrameCommands(passes, imageIndex, n)
  {
    FrameCovers(passes, imageIndex, n);
  }

  lemma {:induction false} FrameCovers(passes: seq<FrameGraphPass>, imageIndex: nat, n: nat)
    requires n <= |passes| && AllShaped(passes)
    ensures Covers(passes, imageIndex, FrameCommands(passes, imageIndex, n), n)
  {
    if n > 0 {
      FrameCovers(passes, imageIndex, n - 1);
      FrameCoversStep(passes, imageIndex, n);
    }
  }

  lemma FrameCoversStep(passes: seq<FrameGraphPass>, imageIndex: nat, n: nat)
    requires 0 < n <= |passes| && AllShaped(passes)
    requires Covers(passes, imageIndex, FrameCommands(passes, imageIndex, n - 1), n - 1)
    ensures Covers(passes, imageIndex, FrameCommands(passes, imageIndex, n), n)
  {
    assert PassShape(passes[n - 1]);
    var prefix := FrameCommands(passes, imageIndex, n - 1);
    var own := PassCommands(n - 1, passes[n - 1], imageIndex);
    assert FrameCommands(passes, imageIndex, n) == prefix + own;
    CoversConcat(passes, imageIndex, prefix, own, n);
  }

  lemma CoversConcat(passes: seq<FrameGraphPass>, imageIndex: nat, a: seq<Command>, b: seq<Command>, n: nat)
    requires 0 < n <= |passes| && PassShape(passes[n - 1])
    requires Covers(passes, imageIndex, a, n - 1) && b == PassCommands(n - 1, passes[n - 1], imageIndex)
    ensures Covers(passes, imageIndex, a + b, n)
  {
    forall i, c | 0 <= i < n && i < |passes| && PassShape(passes[i]) && c in PassCommands(i, passes[i], imageIndex)
      ensures c in a + b
    {
      if i < n - 1 {
        assert c in a;
      } else {
        assert c in b;
      }
    }
  }

  /** Pass 0 never gets a barrier. */
  lemma FirstPassNoBarrier(passes: seq<FrameGraphPass>, imageIndex: nat, c: Command)
    requires AllShaped(passes) && c in FrameCommands(passes, imageIndex, |passes|) && c.Barrier?
    ensures c.pass != 0
  {
    FrameCommandsSound(passes, imageIndex, |passes|, c);
  }

  /** Every barrier the frame graph records has the color aspect. */
  lemma BarriersAreColor(passes: seq<FrameGraphPass>, imageIndex: nat, c: Command)
    requires AllShaped(passes) && c in FrameCommands(passes, imageIndex, |passes|) && c.Barrier?
    ensures c.aspect == ColorAspect
  {
    FrameCommandsSound(passes, imageIndex, |passes|, c);
    var p := passes[c.pass];
    PassBarriersSound(c.pass, p.images, p.info.attachments, c);
  }

  /**
   * For pass i > 0 and attachment a: a barrier for (i, a) is recorded iff
   * the tracked layout differs from the required one, and it then carries
   * the tracked image, the tracked layout as old and the required as new.
   */
  lemma BarrierIff(passes: seq<FrameGraphPass>, imageIndex: nat, i: nat, a: nat)
    requires AllShaped(passes) && 0 < i < |passes| && a < |passes[i].images|
    ensures assert PassShape(passes[i]);
            var p := passes[i];
            (exists c :: c in FrameCommands(passes, imageIndex, |passes|) && c.Barrier? && c.pass == i && c.attachment == a)
            <==> p.images[a].lastLayout != p.info.attachments[a].desc.initialLayout
    ensures assert PassShape(passes[i]);
            var p := passes[i];
            forall c :: c in FrameCommands(passes, imageIndex, |passes|) && c.Barrier? && c.pass == i && c.attachment == a ==>
              c == Barrier(i, a, p.images[a].handle, p.images[a].lastLayout, p.info.attachments[a].desc.initialLayout, ColorAspect)
  {
    var p := passes[i];
    assert PassShape(p);
    var all := FrameCommands(passes, imageIndex, |passes|);
    forall c | c in all && c.Barrier? && c.pass == i && c.attachment == a
      ensures c == BarrierFor(i, p.images, p.info.attachments, a)
      ensures p.images[a].lastLayout != p.info.attachments[a].desc.initialLayout
    {
      FrameCommandsSound(passes, imageIndex, |passes|, c);
      PassBarriersSound(i, p.images, p.info.attachments, c);
    }
    if p.images[a].lastLayout != p.info.attachments[a].desc.initialLayout {
      var b := BarrierFor(i, p.images, p.info.attachments, a);
      PassBarriersComplete(i, p.images, p.info.attachments, a);
      var own := PassCommands(i, p, imageIndex);
      assert b in own;
      FrameCommandsContain(passes, imageIndex, |passes|, i);
    }
  }

  /** Every tracked image of a pass is in its attachment's initial layout (as after compile). */
  predicate AtInitialLayouts(p: FrameGraphPass)
    requires |p.images| <= |p.info.attachments|
  {
    forall a :: 0 <= a < |p.images| ==> p.images[a].lastLayout == p.info.attachments[a].desc.initialLayout
  }

  /** The first endFrame after a compile records no barrier at all. */
  lemma FirstFrameNoBarriers(passes: seq<FrameGraphPass>, imageIndex: nat, c: Command)
    requires AllShaped(passes)
    requires forall i :: 0 <= i < |passes| ==> assert PassShape(passes[i]); AtInitialLayouts(passes[i])
    requires c in FrameCommands(passes, imageIndex, |passes|)
    ensures !c.Barrier?
  {
    if c.Barrier? {
      FrameCommandsSound(passes, imageIndex, |passes|, c);
      var p := passes[c.pass];
      assert PassShape(p) && AtInitialLayouts(p);
      PassBarriersSound(c.pass, p.images, p.info.attachments, c);
      assert false;
    }
  }

  /** Compiled passes are all in their initial layouts. */
  lemma CompiledAtInitialLayouts(old_p: FrameGraphPass, p: FrameGraphPass, frameViews: seq<Handle>)
    requires CompiledFrom(old_p, p, frameViews)
    ensures |p.images| == |p.info.attachments| && AtInitialLayouts(p)
  {
  }

  /**
   * On any frame after the first, pass i > 0 gets a barrier for attachment
   * a iff that attachment's final layout is not its initial layout.
   */
  lemma LaterFrameBarrierIff(before: seq<FrameGraphPass>, imageIndex: nat, i: nat, a: nat)
    requires AllShaped(before) && 0 < i < |before| && a < |before[i].images|
    ensures AllShaped(SettledPasses(before))
    ensures assert PassShape(before[i]);
            var atts := before[i].info.attachments;
            (exists c :: c in FrameCommands(SettledPasses(before), imageIndex, |before|) &&
                         c.Barrier? && c.pass == i && c.attachment == a)
            <==> atts[a].desc.finalLayout != atts[a].desc.initialLayout
  {
    var after := SettledPasses(before);
    assert AllShaped(after) by {
      forall j | 0 <= j < |after| ensures PassShape(after[j]) {
        assert PassShape(before[j]);
      }
    }
    assert PassShape(before[i]);
    BarrierIff(after, imageIndex, i, a);
  }

  /** The passes a command sequence begins, in order. */
  function BegunPasses(cmds: seq<Command>): seq<nat>
  {
    if cmds == [] then []
    else (if cmds[0].BeginPass? then [cmds[0].pass] else []) + BegunPasses(cmds[1..])
  }

  lemma {:induction false} BegunPassesAppend(x: seq<Command>, y: seq<Command>)
    ensures BegunPasses(x + y) == BegunPasses(x) + BegunPasses(y)
  {
    if x == [] {
      assert x + y == y;
    } else {
      var head := if x[0].BeginPass? then [x[0].pass] else [];
      assert (x + y)[0] == x[0] && (x + y)[1..] == x[1..] + y;
      BegunPassesAppend(x[1..], y);
      assert BegunPasses(x + y) == head + BegunPasses(x[1..] + y);
      assert BegunPasses(x) == head + BegunPasses(x[1..]);
    }
  }

  lemma {:induction false} BarriersBeginNothing(pass: nat, images: seq<FrameGraphImage>, atts: seq<RP.AttachmentInfo>)
    requires |images| <= |atts|
    ensures BegunPasses(PassBarriers(pass, images, atts)) == []
  {
    if images != [] {
      var a := |images| - 1;
      var tail := if images[a].lastLayout != atts[a].desc.initialLayout then [BarrierFor(pass, images, atts, a)] else [];
      BarriersBeginNothing(pass, images[..a], atts);
      BegunPassesAppend(PassBarriers(pass, images[..a], atts), tail);
      assert BegunPasses(tail) == [] by {
        if tail != [] {
          assert tail[1..] == [];
        }
      }
    }
  }

  /** The first n pass indices, 0 to n - 1. */
  function Prefix(n: nat): seq<nat>
  {
    seq(n, i requires 0 <= i < n => i)
  }

  /** A pass begins itself and nothing else. */
  lemma PassBeginsItself(i: nat, p: FrameGraphPass, imageIndex: nat)
    requires |p.images| <= |p.info.attachments|
    ensures BegunPasses(PassCommands(i, p, imageIndex)) == [i]
  {
    var barriers := if i == 0 then [] else PassBarriers(i, p.images, p.info.attachments);
    var body := [BeginPass(i, imageIndex, p.clearCount), ExecutePass(i), EndPass(i)];
    BarriersBeginNothing(i, p.images, p.info.attachments);
    BegunPassesAppend(barriers, body);
    assert body[1..][1..][1..] == [];
    assert BegunPasses(body[1..][1..]) == [];
    assert BegunPasses(body[1..]) == [];
    assert BegunPasses(body) == [i];
    assert PassCommands(i, p, imageIndex) == barriers + body;
  }

  /** Each endFrame begins every pass exactly once, in registration order. */
  lemma {:induction false} PassesBegunInOrder(passes: seq<FrameGraphPass>, imageIndex: nat, n: nat)
    requires n <= |passes| && AllShaped(passes)
    ensures BegunPasses(FrameCommands(passes, imageIndex, n)) == Prefix(n)
  {
    if n > 0 {
      PassesBegunInOrder(passes, imageIndex, n - 1);
      PassesBegunStep(passes, imageIndex, n);
    }
  }

  lemma PassesBegunStep(passes: seq<FrameGraphPass>, imageIndex: nat, n: nat)
    requires 0 < n <= |passes| && AllShaped(passes)
    requires BegunPasses(FrameCommands(passes, imageIndex, n - 1)) == Prefix(n - 1)
    ensures BegunPasses(FrameCommands(passes, imageIndex, n)) == Prefix(n)
  {
    assert PassShape(passes[n - 1]);
    var prefix := FrameCommands(passes, imageIndex, n - 1);
    var own := PassCommands(n - 1, passes[n - 1], imageIndex);
    PassBeginsItself(n - 1, passes[n - 1], imageIndex);
    assert FrameCommands(passes, imageIndex, n) == prefix + own;
    BegunConcat(prefix, own, n - 1);
  }

  lemma BegunConcat(a: seq<Command>, b: seq<Command>, m: nat)
    requires BegunPasses(a) == Prefix(m) && BegunPasses(b) == [m]
    ensures BegunPasses(a + b) == Prefix(m + 1)
  {
    BegunPassesAppend(a, b);
    assert Prefix(m + 1) == Prefix(m) + [m];
  }

  /**
   * Each pass's callback runs between its begin and its end: the pass's
   * commands end with begin, execute, end.
   */
  lemma PassEndsWithBeginExecuteEnd(i: nat, p: FrameGraphPass, imageIndex: nat)
    requires |p.images| <= |p.info.attachments|
    ensures var cs := PassCommands(i, p, imageIndex);
            |cs| >= 3 &&
            cs[|cs| - 3..] == [BeginPass(i, imageIndex, p.clearCount), ExecutePass(i), EndPass(i)]
  {
  }
}
