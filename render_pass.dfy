// Render passes described by attachment roles: the Builder hands out dense
// attachment indices per role, and the RenderPass translates its subpasses'
// role lists into index lists, then keeps one framebuffer per frame.

module RenderPass {
  import opened Vk

  /** The semantic roles, then Invalid (16) and Count (17). */
  datatype AttachmentRole =
    | Color
    | DepthStencil
    | Resolve
    | Input
    | Preserve
    | GBufferPosition
    | GBufferNormal
    | GBufferAlbedo
    | GBufferMaterial
    | GBufferEmissive
    | MotionVector
    | SSAO
    | ShadowDepth
    | Bloom
    | PostProcess
    | UI
    | Invalid
    | Count

  /** size_t(AttachmentRole::Count): the number of slots of a role-indexed array. */
  const ROLE_SLOTS: nat := 17

  /** The enumerator's value, static_cast<size_t>(role). */
  function RoleIndex(r: AttachmentRole): (k: nat)
    ensures k <= ROLE_SLOTS
    ensures k < ROLE_SLOTS <==> r != Count
    ensures k == 16 <==> r == Invalid
  {
    match r
    case Color => 0
    case DepthStencil => 1
    case Resolve => 2
    case Input => 3
    case Preserve => 4
    case GBufferPosition => 5
    case GBufferNormal => 6
    case GBufferAlbedo => 7
    case GBufferMaterial => 8
    case GBufferEmissive => 9
    case MotionVector => 10
    case SSAO => 11
    case ShadowDepth => 12
    case Bloom => 13
    case PostProcess => 14
    case UI => 15
    case Invalid => 16
    case Count => 17
  }

  /** Distinct roles occupy distinct slots. */
  lemma RoleIndexInjective(a: AttachmentRole, b: AttachmentRole)
    requires RoleIndex(a) == RoleIndex(b)
    ensures a == b
  {
  }

  /** VkAttachmentDescription; the ops are kept as their numeric codes. */
  datatype AttachmentDescription = AttachmentDescription(
    format: nat, samples: nat, loadOp: nat, storeOp: nat, stencilLoadOp: nat, stencilStoreOp: nat,
    initialLayout: ImageLayout, finalLayout: ImageLayout)

  /** One role paired with one description. */
  datatype AttachmentInfo = AttachmentInfo(role: AttachmentRole, desc: AttachmentDescription)

  datatype PipelineBindPoint = Graphics | ComputeBindPoint | OtherBindPoint(code: nat)

  /** SubpassInfo: the attachments a subpass uses, by role. */
  datatype SubpassInfo = SubpassInfo(
    bindPoint: PipelineBindPoint,
    colorAttachments: seq<AttachmentRole>,
    inputAttachments: seq<AttachmentRole>,
    resolveAttachments: seq<AttachmentRole>,
    preserveAttachments: seq<AttachmentRole>,
    depthStencilAttachment: AttachmentRole)

  /** The default member initialisers of SubpassInfo. */
  const DEFAULT_SUBPASS: SubpassInfo := SubpassInfo(Graphics, [], [], [], [], Invalid)

  /** VkSubpassDependency, every field by its numeric value. */
  datatype SubpassDependency = SubpassDependency(
    srcSubpass: nat, dstSubpass: nat, srcStageMask: nat, dstStageMask: nat,
    srcAccessMask: nat, dstAccessMask: nat, dependencyFlags: nat)

  datatype RenderPassCreateInfo = RenderPassCreateInfo(
    attachments: seq<AttachmentInfo>, subpasses: seq<SubpassInfo>, dependencies: seq<SubpassDependency>)

  const EMPTY_CREATE_INFO: RenderPassCreateInfo := RenderPassCreateInfo([], [], [])

  /** Every role a subpass names, depth included. */
  predicate RolesInRange(roles: seq<AttachmentRole>)
  {
    forall k :: 0 <= k < |roles| ==> roles[k] != Count
  }

  predicate SubpassRolesInRange(sp: SubpassInfo)
  {
    RolesInRange(sp.colorAttachments) && RolesInRange(sp.inputAttachments) &&
    RolesInRange(sp.resolveAttachments) && RolesInRange(sp.preserveAttachments) &&
    sp.depthStencilAttachment != Count
  }

  /**
   * What createRenderPass reads from indexOf_: the subpasses may only name
   * roles with a slot, since indexOf_[Count] is past the end of the array.
   */
  predicate Translatable(info: RenderPassCreateInfo, indexOf: seq<nat>)
  {
    |indexOf| == ROLE_SLOTS && forall i :: 0 <= i < |info.subpasses| ==> SubpassRolesInRange(info.subpasses[i])
  }

  // ---------------------------------------------------------------------
  // Builder

  /** Number of slots holding an index, that is, not UINT32_MAX. */
  function BoundSlots(s: seq<nat>): nat
  {
    if s == [] then 0 else BoundSlots(s[..|s| - 1]) + (if s[|s| - 1] != UINT32_MAX then 1 else 0)
  }

  lemma {:induction false} BoundSlotsAtMost(s: seq<nat>)
    ensures BoundSlots(s) <= |s|
  {
    if s != [] {
      BoundSlotsAtMost(s[..|s| - 1]);
    }
  }

  /** Binding a free slot adds one to the count. */
  lemma {:induction false} BoundSlotsBind(s: seq<nat>, k: nat, v: nat)
    requires k < |s| && s[k] == UINT32_MAX && v != UINT32_MAX
    ensures BoundSlots(s[k := v]) == BoundSlots(s) + 1
  {
    var t := s[k := v];
    if k == |s| - 1 {
      assert t[..|t| - 1] == s[..|s| - 1];
    } else {
      assert t[..|t| - 1] == s[..|s| - 1][k := v];
      BoundSlotsBind(s[..|s| - 1], k, v);
    }
  }

  lemma {:induction false} BoundSlotsNone(s: seq<nat>)
    requires forall k :: 0 <= k < |s| ==> s[k] == UINT32_MAX
    ensures BoundSlots(s) == 0
  {
    if s != [] {
      BoundSlotsNone(s[..|s| - 1]);
    }
  }

  /**
   * The index map agrees with the attachment list: a bound slot names the
   * attachment of that role, and every attachment's role slot names it.
   */
  predicate IndexMapMatches(attachments: seq<AttachmentInfo>, indexOf: seq<nat>)
  {
    |indexOf| == ROLE_SLOTS &&
    |attachments| == BoundSlots(indexOf) &&
    (forall k :: 0 <= k < ROLE_SLOTS && indexOf[k] != UINT32_MAX ==>
       indexOf[k] < |attachments| && RoleIndex(attachments[indexOf[k]].role) == k) &&
    (forall j :: 0 <= j < |attachments| ==>
       attachments[j].role != Count && indexOf[RoleIndex(attachments[j].role)] == j)
  }

  /** RenderPass::Builder. */
  class Builder {
    var info: RenderPassCreateInfo
    /** The std::array of ROLE_SLOTS indices; UINT32_MAX marks a free slot. */
    const indexOf: array<nat>

    predicate Valid()
      reads this, indexOf
    {
      IndexMapMatches(info.attachments, indexOf[..])
    }

    /** Every slot starts at static_cast<uint32_t>(-1). */
    constructor ()
      ensures Valid() && fresh(indexOf)
      ensures info == EMPTY_CREATE_INFO
      ensures forall k :: 0 <= k < ROLE_SLOTS ==> indexOf[k] == UINT32_MAX
    {
      info := EMPTY_CREATE_INFO;
      var slots := new nat[ROLE_SLOTS];
      var k := 0;
      while k < ROLE_SLOTS
        invariant 0 <= k <= ROLE_SLOTS
        invariant forall j :: 0 <= j < k ==> slots[j] == UINT32_MAX
      {
        slots[k] := UINT32_MAX;
        k := k + 1;
      }
      indexOf := slots;
      BoundSlotsNone(slots[..]);
    }

    /**
     * addAttachment: the role must have a slot (Count has none; Invalid
     * has one) and must not be bound yet; it gets the next dense index.
     */
    method AddAttachment(role: AttachmentRole, desc: AttachmentDescription)
      requires Valid()
      requires RoleIndex(role) < ROLE_SLOTS
      requires indexOf[RoleIndex(role)] == UINT32_MAX
      modifies this`info, indexOf
      ensures Valid()
      ensures info == old(info).(attachments := old(info.attachments) + [AttachmentInfo(role, desc)])
      ensures indexOf[..] == old(indexOf[..])[RoleIndex(role) := |old(info.attachments)|]
    {
      var key := RoleIndex(role);
      var n := |info.attachments|;
      ghost var before := indexOf[..];
      BoundSlotsAtMost(before);
      indexOf[key] := n;
      info := info.(attachments := info.attachments + [AttachmentInfo(role, desc)]);
      assert indexOf[..] == before[key := n];
      BoundSlotsBind(before, key, n);
      forall k | 0 <= k < ROLE_SLOTS && indexOf[k] != UINT32_MAX
        ensures indexOf[k] < |info.attachments| && RoleIndex(info.attachments[indexOf[k]].role) == k
      {
        if k != key {
          assert before[k] == indexOf[k];
        }
      }
      forall j | 0 <= j < |info.attachments|
        ensures info.attachments[j].role != Count && indexOf[RoleIndex(info.attachments[j].role)] == j
      {
        if j < n {
          var r := info.attachments[j].role;
          assert before[RoleIndex(r)] == j;
          if RoleIndex(r) == key {
            assert false;
          }
        }
      }
    }

    /** addSubpass appends the subpass as given; nothing is checked against the bound roles. */
    method AddSubpass(sub: SubpassInfo)
      requires Valid()
      modifies this`info
      ensures Valid()
      ensures info == old(info).(subpasses := old(info.subpasses) + [sub])
    {
      info := info.(subpasses := info.subpasses + [sub]);
    }

    /** addDependency appends the dependency as given. */
    method AddDependency(dep: SubpassDependency)
      requires Valid()
      modifies this`info
      ensures Valid()
      ensures info == old(info).(dependencies := old(info.dependencies) + [dep])
    {
      info := info.(dependencies := info.dependencies + [dep]);
    }

    /** build: a RenderPass from the builder's create-info and index map, which stay as they are. */
    method Build(extent: Extent2D, views: seq<seq<Handle>>, inFlightFences: seq<Handle>, currentFrame: nat,
                 createResult: VkResult, handle: Handle)
      returns (r: Result<RenderPass>)
      requires Valid() && Translatable(info, indexOf[..]) && ViewsFit(info, views)
      ensures r.Ok? <==> createResult == Success
      ensures r.Ok? ==> fresh(r.value) && r.value.info == info && r.value.indexOf == indexOf[..]
      ensures r.Ok? ==> r.value.frameBuffers == FramebuffersFor(handle, extent, views)
    {
      r := NewRenderPass(info, indexOf[..], extent, views, inFlightFences, currentFrame, createResult, handle);
    }

    /** getAttachmentIndex: the slot of the role; indexOf_[Count] would be out of range. */
    function GetAttachmentIndex(role: AttachmentRole): (index: nat)
      requires Valid()
      requires RoleIndex(role) < ROLE_SLOTS
      reads this, indexOf
      ensures index != UINT32_MAX ==> index < |info.attachments| && info.attachments[index].role == role
      ensures index == UINT32_MAX <==> forall j :: 0 <= j < |info.attachments| ==> info.attachments[j].role != role
    {
      var index := indexOf[RoleIndex(role)];
      if index != UINT32_MAX then
        RoleIndexInjective(info.attachments[index].role, role);
        index
      else
        BoundSlotsAtMost(indexOf[..]);
        index
    }
  }

  /**
   * The G-buffer pass registers position, normal, albedo and depth in that
   * order, so they get indices 0, 1, 2 and 3.
   */
  method GBufferIndices(posDesc: AttachmentDescription, normDesc: AttachmentDescription,
                        albDesc: AttachmentDescription, depthDesc: AttachmentDescription)
    returns (posAtt: nat, normAtt: nat, albedoAtt: nat, depthAtt: nat)
    ensures posAtt == 0 && normAtt == 1 && albedoAtt == 2 && depthAtt == 3
  {
    var b := new Builder();
    b.AddAttachment(GBufferPosition, posDesc);
    posAtt := b.GetAttachmentIndex(GBufferPosition);
    b.AddAttachment(GBufferNormal, normDesc);
    normAtt := b.GetAttachmentIndex(GBufferNormal);
    b.AddAttachment(GBufferAlbedo, albDesc);
    albedoAtt := b.GetAttachmentIndex(GBufferAlbedo);
    b.AddAttachment(DepthStencil, depthDesc);
    depthAtt := b.GetAttachmentIndex(DepthStencil);
  }

  // ---------------------------------------------------------------------
  // Role lists to index lists (createRenderPass)

  /** VkAttachmentReference, as filled for the depth attachment. */
  datatype AttachmentReference = AttachmentReference(attachment: nat, layout: ImageLayout)

  /**
   * The VkSubpassDescription createRenderPass fills for one subpass: index
   * lists for color, input and preserve, a resolve list only when roles
   * were given, a depth reference only for a depth role other than Invalid.
   */
  datatype SubpassDescription = SubpassDescription(
    bindPoint: PipelineBindPoint,
    color: seq<nat>,
    input: seq<nat>,
    resolve: Option<seq<nat>>,
    preserve: seq<nat>,
    depthStencil: Option<AttachmentReference>)

  /** VkRenderPassCreateInfo: the descriptions, the subpasses and the dependencies as given. */
  datatype RenderPassDescription = RenderPassDescription(
    attachments: seq<AttachmentDescription>,
    subpasses: seq<SubpassDescription>,
    dependencies: seq<SubpassDependency>)

  /** The index map applied to a role list. */
  function IndicesOf(indexOf: seq<nat>, roles: seq<AttachmentRole>): seq<nat>
    requires |indexOf| == ROLE_SLOTS
    requires RolesInRange(roles)
  {
    seq(|roles|, k requires 0 <= k < |roles| => indexOf[RoleIndex(roles[k])])
  }

  function SubpassFor(indexOf: seq<nat>, sp: SubpassInfo): SubpassDescription
    requires |indexOf| == ROLE_SLOTS && SubpassRolesInRange(sp)
  {
    SubpassDescription(
      sp.bindPoint,
      IndicesOf(indexOf, sp.colorAttachments),
      IndicesOf(indexOf, sp.inputAttachments),
      if sp.resolveAttachments == [] then None else Some(IndicesOf(indexOf, sp.resolveAttachments)),
      IndicesOf(indexOf, sp.preserveAttachments),
      if sp.depthStencilAttachment == Invalid then None
      else Some(AttachmentReference(indexOf[RoleIndex(sp.depthStencilAttachment)], DepthStencilAttachmentOptimal)))
  }

  function SubpassesFor(indexOf: seq<nat>, subs: seq<SubpassInfo>): seq<SubpassDescription>
    requires |indexOf| == ROLE_SLOTS && forall i :: 0 <= i < |subs| ==> SubpassRolesInRange(subs[i])
  {
    seq(|subs|, i requires 0 <= i < |subs| => SubpassFor(indexOf, subs[i]))
  }

  function DescriptionsOf(attachments: seq<AttachmentInfo>): seq<AttachmentDescription>
  {
    seq(|attachments|, i requires 0 <= i < |attachments| => attachments[i].desc)
  }

  /** The create-info createRenderPass hands to vkCreateRenderPass. */
  function DescribeRenderPass(info: RenderPassCreateInfo, indexOf: seq<nat>): RenderPassDescription
    requires Translatable(info, indexOf)
  {
    RenderPassDescription(DescriptionsOf(info.attachments), SubpassesFor(indexOf, info.subpasses), info.dependencies)
  }

  /** One `for (auto role : roles) idx.push_back(indexOf_[role])` loop. */
  method MapRoles(indexOf: seq<nat>, roles: seq<AttachmentRole>) returns (idx: seq<nat>)
    requires |indexOf| == ROLE_SLOTS
    requires RolesInRange(roles)
    ensures |idx| == |roles|
    ensures forall k :: 0 <= k < |roles| ==> idx[k] == indexOf[RoleIndex(roles[k])]
    ensures idx == IndicesOf(indexOf, roles)
  {
    idx := [];
    for k := 0 to |roles|
      invariant |idx| == k
      invariant forall j :: 0 <= j < k ==> idx[j] == indexOf[RoleIndex(roles[j])]
    {
      idx := idx + [indexOf[RoleIndex(roles[k])]];
    }
  }

  /** The body of createRenderPass's subpass loop for subpass i. */
  method TranslateSubpass(indexOf: seq<nat>, sp: SubpassInfo) returns (sd: SubpassDescription)
    requires |indexOf| == ROLE_SLOTS && SubpassRolesInRange(sp)
    ensures sd == SubpassFor(indexOf, sp)
  {
    var color := MapRoles(indexOf, sp.colorAttachments);
    var input := MapRoles(indexOf, sp.inputAttachments);
    var resolve: Option<seq<nat>> := None;
    if sp.resolveAttachments != [] {
      var idx := MapRoles(indexOf, sp.resolveAttachments);
      resolve := Some(idx);
    }
    var preserve := MapRoles(indexOf, sp.preserveAttachments);
    var depth: Option<AttachmentReference> := None;
    if sp.depthStencilAttachment != Invalid {
      depth := Some(AttachmentReference(indexOf[RoleIndex(sp.depthStencilAttachment)], DepthStencilAttachmentOptimal));
    }
    sd := SubpassDescription(sp.bindPoint, color, input, resolve, preserve, depth);
  }

  /** createRenderPass's loops: the attachment descriptions, then one description per subpass. */
  method TranslateRenderPass(info: RenderPassCreateInfo, indexOf: seq<nat>) returns (rpci: RenderPassDescription)
    requires Translatable(info, indexOf)
    ensures rpci == DescribeRenderPass(info, indexOf)
  {
    var descs: seq<AttachmentDescription> := [];
    for i := 0 to |info.attachments|
      invariant descs == DescriptionsOf(info.attachments[..i])
    {
      descs := descs + [info.attachments[i].desc];
    }
    assert info.attachments[..|info.attachments|] == info.attachments;
    var subs: seq<SubpassDescription> := [];
    for i := 0 to |info.subpasses|
      invariant |subs| == i
      invariant forall j :: 0 <= j < i ==> subs[j] == SubpassFor(indexOf, info.subpasses[j])
    {
      var sd := TranslateSubpass(indexOf, info.subpasses[i]);
      subs := subs + [sd];
    }
    rpci := RenderPassDescription(descs, subs, info.dependencies);
  }

  /**
   * Each translated entry is the index the builder gave that role: a bound
   * role names the attachment registered with it, an unbound one gives
   * UINT32_MAX (the value of VK_ATTACHMENT_UNUSED). The list keeps the
   * roles' length and order.
   */
  lemma IndicesOfRefersToRoles(attachments: seq<AttachmentInfo>, indexOf: seq<nat>, roles: seq<AttachmentRole>, k: nat)
    requires IndexMapMatches(attachments, indexOf)
    requires RolesInRange(roles)
    requires k < |roles|
    ensures |IndicesOf(indexOf, roles)| == |roles|
    ensures var i := IndicesOf(indexOf, roles)[k];
            if exists j :: 0 <= j < |attachments| && attachments[j].role == roles[k]
            then i < |attachments| && attachments[i].role == roles[k]
            else i == UINT32_MAX
  {
    var slot := RoleIndex(roles[k]);
    var i := IndicesOf(indexOf, roles)[k];
    assert i == indexOf[slot];
    if i != UINT32_MAX {
      RoleIndexInjective(attachments[i].role, roles[k]);
    } else {
      forall j | 0 <= j < |attachments| ensures attachments[j].role != roles[k] {
        BoundSlotsAtMost(indexOf);
      }
    }
  }

  /** The optional parts: resolve only when roles were given; depth only for a real role, in depth-attachment layout. */
  lemma SubpassForOptionalParts(indexOf: seq<nat>, sp: SubpassInfo)
    requires |indexOf| == ROLE_SLOTS && SubpassRolesInRange(sp)
    ensures SubpassFor(indexOf, sp).resolve.Some? <==> |sp.resolveAttachments| > 0
    ensures SubpassFor(indexOf, sp).depthStencil.Some? <==> sp.depthStencilAttachment != Invalid
    ensures SubpassFor(indexOf, sp).depthStencil.Some? ==>
              SubpassFor(indexOf, sp).depthStencil.value ==
              AttachmentReference(indexOf[RoleIndex(sp.depthStencilAttachment)], DepthStencilAttachmentOptimal)
  {
  }

  // ---------------------------------------------------------------------
  // RenderPass

  /** A framebuffer: the render pass it was made for, its extent and one view per attachment. */
  datatype Framebuffer = Framebuffer(renderPass: Handle, extent: Extent2D, attachments: seq<Handle>)

  datatype FenceOp = WaitForFence(fence: Handle) | ResetFence(fence: Handle)

  /** VkRenderPassBeginInfo as begin fills it. */
  datatype BeginInfo = BeginInfo(renderPass: Handle, framebuffer: Framebuffer, renderArea: Extent2D, clearValueCount: nat)

  /** createResources' asserts: every per-frame view set has one non-null view per attachment. */
  predicate ViewsFit(info: RenderPassCreateInfo, views: seq<seq<Handle>>)
  {
    forall i :: 0 <= i < |views| ==>
      |views[i]| == |info.attachments| && forall v :: v in views[i] ==> v != NULL_HANDLE
  }

  function FramebuffersFor(renderPass: Handle, extent: Extent2D, views: seq<seq<Handle>>): seq<Framebuffer>
  {
    seq(|views|, i requires 0 <= i < |views| => Framebuffer(renderPass, extent, views[i]))
  }

  /** The handle a `destroy if non-null` step destroys. */
  function Live(h: Handle): seq<Handle>
  {
    if h == NULL_HANDLE then [] else [h]
  }

  /** createResources' loop: one framebuffer per view set, in order. */
  method MakeFramebuffers(renderPass: Handle, extent: Extent2D, views: seq<seq<Handle>>) returns (fbs: seq<Framebuffer>)
    ensures |fbs| == |views|
    ensures forall i :: 0 <= i < |views| ==> fbs[i] == Framebuffer(renderPass, extent, views[i])
  {
    fbs := [];
    for i := 0 to |views|
      invariant |fbs| == i
      invariant forall j :: 0 <= j < i ==> fbs[j] == Framebuffer(renderPass, extent, views[j])
    {
      fbs := fbs + [Framebuffer(renderPass, extent, views[i])];
    }
  }

  class RenderPass {
    const info: RenderPassCreateInfo
    const indexOf: seq<nat>
    var renderPass: Handle
    /** What vkCreateRenderPass was last given. */
    var description: RenderPassDescription
    var extent: Extent2D
    var attachmentViews: seq<seq<Handle>>
    var frameBuffers: seq<Framebuffer>
    const inFlightFences: seq<Handle>
    const currentFrame: nat

    /**
     * The framebuffers are either none (before createResources, or after a
     * recreate whose vkCreateRenderPass failed) or exactly one per view set,
     * each made for the current render pass at the current extent.
     */
    ghost predicate Valid()
      reads this`renderPass, this`extent, this`attachmentViews, this`frameBuffers
    {
      frameBuffers == [] || frameBuffers == FramebuffersFor(renderPass, extent, attachmentViews)
    }

    /** The member initialiser list, before createRenderPass and createResources run. */
    constructor (info: RenderPassCreateInfo, indexOf: seq<nat>, extent: Extent2D, views: seq<seq<Handle>>,
                 inFlightFences: seq<Handle>, currentFrame: nat)
      ensures this.info == info && this.indexOf == indexOf && this.extent == extent
      ensures this.attachmentViews == views && this.inFlightFences == inFlightFences
      ensures this.currentFrame == currentFrame
      ensures renderPass == NULL_HANDLE && frameBuffers == []
      ensures Valid()
    {
      this.info := info;
      this.indexOf := indexOf;
      this.extent := extent;
      this.attachmentViews := views;
      this.inFlightFences := inFlightFences;
      this.currentFrame := currentFrame;
      renderPass := NULL_HANDLE;
      description := RenderPassDescription([], [], []);
      frameBuffers := [];
    }

    /** createRenderPass: translate, then vkCreateRenderPass under VK_CHECK; `handle` is the driver's answer. */
    method CreateRenderPass(createResult: VkResult, handle: Handle) returns (r: Result<()>)
      requires Translatable(info, indexOf)
      modifies this`renderPass, this`description
      ensures description == DescribeRenderPass(info, indexOf)
      ensures r.Ok? <==> createResult == Success
      ensures renderPass == if createResult == Success then handle else old(renderPass)
    {
      description := TranslateRenderPass(info, indexOf);
      r := Checked(createResult, (), "vkCreateRenderPass");
      if r.Ok? {
        renderPass := handle;
      }
    }

    /** cleanupRenderPass: destroy a non-null render pass and null it. */
    method CleanupRenderPass() returns (destroyed: seq<Handle>)
      modifies this`renderPass
      ensures destroyed == Live(old(renderPass)) && renderPass == NULL_HANDLE
    {
      destroyed := Live(renderPass);
      renderPass := NULL_HANDLE;
    }

    /** createResources: drop the old framebuffers, then one per view set. */
    method CreateResources()
      requires ViewsFit(info, attachmentViews)
      modifies this`frameBuffers
      ensures frameBuffers == FramebuffersFor(renderPass, extent, attachmentViews)
      ensures Valid()
    {
      frameBuffers := [];
      frameBuffers := MakeFramebuffers(renderPass, extent, attachmentViews);
    }

    /**
     * recreate: wait for and reset only the current frame's fence, drop the
     * framebuffers and the render pass, take the new views and extent, and
     * build both again.
     */
    method Recreate(views: seq<seq<Handle>>, newExtent: Extent2D, createResult: VkResult, handle: Handle)
      returns (r: Result<()>, fenceOps: seq<FenceOp>, destroyed: seq<Handle>)
      requires currentFrame < |inFlightFences|
      requires Translatable(info, indexOf) && ViewsFit(info, views)
      modifies this`renderPass, this`description, this`extent, this`attachmentViews, this`frameBuffers
      ensures fenceOps == [WaitForFence(inFlightFences[currentFrame]), ResetFence(inFlightFences[currentFrame])]
      ensures destroyed == Live(old(renderPass))
      ensures attachmentViews == views && extent == newExtent
      ensures description == DescribeRenderPass(info, indexOf)
      ensures r.Ok? <==> createResult == Success
      ensures r.Ok? ==> renderPass == handle && frameBuffers == FramebuffersFor(handle, newExtent, views)
      ensures r.Err? ==> renderPass == NULL_HANDLE && frameBuffers == []
      ensures Valid()
    {
      fenceOps := [WaitForFence(inFlightFences[currentFrame]), ResetFence(inFlightFences[currentFrame])];
      frameBuffers := [];
      destroyed := CleanupRenderPass();
      attachmentViews := views;
      extent := newExtent;
      r := CreateRenderPass(createResult, handle);
      if r.Err? {
        return;
      }
      CreateResources();
    }

    /** begin: the render pass, the framebuffer of the acquired image, the whole extent, the clear values' count. */
    function Begin(imageIndex: nat, clearValueCount: nat): (bi: BeginInfo)
      requires Valid() && imageIndex < |frameBuffers|
      reads this`renderPass, this`frameBuffers, this`extent, this`attachmentViews
      ensures imageIndex < |attachmentViews|
      ensures bi.renderPass == renderPass && bi.clearValueCount == clearValueCount && bi.renderArea == extent
      ensures bi.framebuffer == FramebuffersFor(renderPass, extent, attachmentViews)[imageIndex]
      ensures bi.framebuffer.renderPass == renderPass && bi.framebuffer.extent == extent
      ensures bi.framebuffer.attachments == attachmentViews[imageIndex]
    {
      BeginInfo(renderPass, frameBuffers[imageIndex], extent, clearValueCount)
    }
  }

  /**
   * The RenderPass constructor: the member initialisers, createRenderPass,
   * then createResources. A failing vkCreateRenderPass is the exception.
   */
  method NewRenderPass(info: RenderPassCreateInfo, indexOf: seq<nat>, extent: Extent2D, views: seq<seq<Handle>>,
                       inFlightFences: seq<Handle>, currentFrame: nat, createResult: VkResult, handle: Handle)
    returns (r: Result<RenderPass>)
    requires Translatable(info, indexOf) && ViewsFit(info, views)
    ensures r.Ok? <==> createResult == Success
    ensures r.Ok? ==> fresh(r.value)
    ensures r.Ok? ==> r.value.info == info && r.value.indexOf == indexOf && r.value.inFlightFences == inFlightFences
    ensures r.Ok? ==> r.value.renderPass == handle && r.value.description == DescribeRenderPass(info, indexOf)
    ensures r.Ok? ==> r.value.frameBuffers == FramebuffersFor(handle, extent, views) && r.value.extent == extent
    ensures r.Ok? ==> r.value.currentFrame == currentFrame && r.value.attachmentViews == views
    ensures r.Ok? ==> r.value.Valid()
  {
    var rp := new RenderPass(info, indexOf, extent, views, inFlightFences, currentFrame);
    var created := rp.CreateRenderPass(createResult, handle);
    if created.Err? {
      return Err(created.message);
    }
    rp.CreateResources();
    return Ok(rp);
  }
}
