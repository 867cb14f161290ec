// DescriptorBuilder: collects descriptor writes for one set layout, then
// allocates a set and points every write at it.

module DescriptorBuilder {
  import opened Vk
  import DA = DescriptorAllocator
  import DSC = DescriptorSetCache

  /** What a write's pBufferInfo / pImageInfo designates: a place in the builder's info lists. */
  datatype InfoRef = BufferRef(index: nat) | ImageRef(index: nat)

  /** VkWriteDescriptorSet as the builder fills it. */
  datatype Write = Write(dstSet: Handle, dstBinding: nat, descriptorCount: nat, descriptorType: nat, info: InfoRef)

  /** The info a write carries. */
  datatype Info = BufferData(buffer: DSC.BufferInfo) | ImageData(image: DSC.ImageInfo)

  /** One bindBuffer or bindImage call. */
  datatype Bind =
    | BindBufferCall(binding: nat, descriptorType: nat, bufferInfo: DSC.BufferInfo)
    | BindImageCall(binding: nat, descriptorType: nat, imageInfo: DSC.ImageInfo)

  function InfoOf(b: Bind): Info
  {
    match b
    case BindBufferCall(_, _, bi) => BufferData(bi)
    case BindImageCall(_, _, ii) => ImageData(ii)
  }

  /** The builder's lists: writes_, bufferInfos_, imageInfos_. */
  datatype BuilderState = BuilderState(writes: seq<Write>, bufferInfos: seq<DSC.BufferInfo>, imageInfos: seq<DSC.ImageInfo>)

  const EMPTY_BUILDER: BuilderState := BuilderState([], [], [])

  /** One bind call: the info appended to its own list, and a write with one descriptor referring to it. */
  function Apply(s: BuilderState, b: Bind): BuilderState
  {
    match b
    case BindBufferCall(binding, t, bi) =>
      BuilderState(s.writes + [Write(NULL_HANDLE, binding, 1, t, BufferRef(|s.bufferInfos|))],
                   s.bufferInfos + [bi], s.imageInfos)
    case BindImageCall(binding, t, ii) =>
      BuilderState(s.writes + [Write(NULL_HANDLE, binding, 1, t, ImageRef(|s.imageInfos|))],
                   s.bufferInfos, s.imageInfos + [ii])
  }

  /** The builder after a series of bind calls. */
  function Replay(binds: seq<Bind>): BuilderState
  {
    if binds == [] then EMPTY_BUILDER else Apply(Replay(binds[..|binds| - 1]), binds[|binds| - 1])
  }

  /** The info a reference designates, if it designates one. */
  function Resolve(s: BuilderState, r: InfoRef): Option<Info>
  {
    match r
    case BufferRef(i) => if i < |s.bufferInfos| then Some(BufferData(s.bufferInfos[i])) else None
    case ImageRef(i) => if i < |s.imageInfos| then Some(ImageData(s.imageInfos[i])) else None
  }

  function BufferBinds(binds: seq<Bind>): nat
  {
    if binds == [] then 0
    else BufferBinds(binds[..|binds| - 1]) + (if binds[|binds| - 1].BindBufferCall? then 1 else 0)
  }

  /**
   * After any series of binds there is one write per call, in call order;
   * write k binds `binding` of call k with one descriptor of its type and
   * designates exactly the info call k passed; the buffer list holds one
   * info per bindBuffer and the image list one per bindImage.
   */
  lemma {:induction false} WritesReferToOwnInfo(binds: seq<Bind>)
    ensures var s := Replay(binds);
            |s.writes| == |binds| &&
            |s.bufferInfos| == BufferBinds(binds) &&
            |s.imageInfos| == |binds| - BufferBinds(binds) &&
            forall k :: 0 <= k < |binds| ==>
              s.writes[k].dstSet == NULL_HANDLE && s.writes[k].dstBinding == binds[k].binding &&
              s.writes[k].descriptorCount == 1 && s.writes[k].descriptorType == binds[k].descriptorType &&
              Resolve(s, s.writes[k].info) == Some(InfoOf(binds[k]))
  {
    ReplayWritesOk(binds);
    var s := Replay(binds);
    forall k | 0 <= k < |binds|
      ensures s.writes[k].dstSet == NULL_HANDLE && s.writes[k].dstBinding == binds[k].binding &&
              s.writes[k].descriptorCount == 1 && s.writes[k].descriptorType == binds[k].descriptorType &&
              Resolve(s, s.writes[k].info) == Some(InfoOf(binds[k]))
    {
      assert WriteOk(binds, s, k);
    }
  }

  /** Write k of s is the one bind call binds[k] makes, and its reference resolves to that call's info. */
  ghost predicate WriteOk(binds: seq<Bind>, s: BuilderState, k: nat)
    requires k < |binds| && k < |s.writes|
  {
    s.writes[k].dstSet == NULL_HANDLE && s.writes[k].dstBinding == binds[k].binding &&
    s.writes[k].descriptorCount == 1 && s.writes[k].descriptorType == binds[k].descriptorType &&
    Resolve(s, s.writes[k].info) == Some(InfoOf(binds[k]))
  }

  /** The builder state s is what the calls binds leave, as far as the lists' shape and each write go. */
  ghost predicate WritesOk(binds: seq<Bind>, s: BuilderState)
  {
    |s.writes| == |binds| &&
    |s.bufferInfos| == BufferBinds(binds) &&
    |s.imageInfos| == |binds| - BufferBinds(binds) &&
    forall k :: 0 <= k < |binds| ==> WriteOk(binds, s, k)
  }

  lemma {:induction false} ReplayWritesOk(binds: seq<Bind>)
    ensures WritesOk(binds, Replay(binds))
  {
    if binds != [] {
      var prev := binds[..|binds| - 1];
      var b := binds[|binds| - 1];
      ReplayWritesOk(prev);
      ApplyKeepsWrites(prev, Replay(prev), b);
      assert prev + [b] == binds;
    }
  }

  /** One more bind call keeps every earlier write resolving to its own info and adds its own. */
  lemma ApplyKeepsWrites(prev: seq<Bind>, p: BuilderState, b: Bind)
    requires WritesOk(prev, p)
    ensures WritesOk(prev + [b], Apply(p, b))
  {
    var bs := prev + [b];
    var s := Apply(p, b);
    BufferBindsSnoc(prev, b);
    forall k | 0 <= k < |bs| ensures WriteOk(bs, s, k) {
      if k < |prev| {
        EarlierWriteKept(prev, p, b, k);
      } else {
        assert bs[k] == b;
      }
    }
  }

  lemma EarlierWriteKept(prev: seq<Bind>, p: BuilderState, b: Bind, k: nat)
    requires |p.writes| == |prev| && k < |prev| && WriteOk(prev, p, k)
    ensures WriteOk(prev + [b], Apply(p, b), k)
  {
    var s := Apply(p, b);
    assert (prev + [b])[k] == prev[k];
    assert s.writes[k] == p.writes[k];
    match p.writes[k].info
    case BufferRef(i) =>
      assert s.bufferInfos[i] == p.bufferInfos[i];
    case ImageRef(i) =>
      assert s.imageInfos[i] == p.imageInfos[i];
  }

  lemma BufferBindsSnoc(binds: seq<Bind>, b: Bind)
    ensures BufferBinds(binds + [b]) == BufferBinds(binds) + (if b.BindBufferCall? then 1 else 0)
  {
    assert (binds + [b])[..|binds|] == binds;
  }

  /** The writes with dstSet set to `dstSet` and nothing else changed. */
  predicate PatchedTo(ws: seq<Write>, old_ws: seq<Write>, dstSet: Handle)
  {
    |ws| == |old_ws| &&
    forall k :: 0 <= k < |ws| ==> ws[k].dstSet == dstSet && ws[k].(dstSet := old_ws[k].dstSet) == old_ws[k]
  }

  /** build's loop: `w.dstSet = outSet` for every write. */
  method PatchDstSet(ws: seq<Write>, dstSet: Handle) returns (ps: seq<Write>)
    ensures PatchedTo(ps, ws, dstSet)
  {
    ps := [];
    for i := 0 to |ws|
      invariant PatchedTo(ps, ws[..i], dstSet)
    {
      ps := ps + [ws[i].(dstSet := dstSet)];
    }
    assert ws[..|ws|] == ws;
  }

  class DescriptorBuilder {
    const allocator: DA.DescriptorAllocator
    const layout: Handle
    var writes: seq<Write>
    var bufferInfos: seq<DSC.BufferInfo>
    var imageInfos: seq<DSC.ImageInfo>

    function State(): BuilderState
      reads this`writes, this`bufferInfos, this`imageInfos
    {
      BuilderState(writes, bufferInfos, imageInfos)
    }

    constructor (allocator: DA.DescriptorAllocator, layout: Handle)
      ensures this.allocator == allocator && this.layout == layout && State() == EMPTY_BUILDER
    {
      this.allocator := allocator;
      this.layout := layout;
      writes := [];
      bufferInfos := [];
      imageInfos := [];
    }

    /** bindBuffer. */
    method BindBuffer(binding: nat, descriptorType: nat, bufferInfo: DSC.BufferInfo)
      modifies this`writes, this`bufferInfos
      ensures State() == Apply(old(State()), BindBufferCall(binding, descriptorType, bufferInfo))
    {
      var ref := BufferRef(|bufferInfos|);
      bufferInfos := bufferInfos + [bufferInfo];
      writes := writes + [Write(NULL_HANDLE, binding, 1, descriptorType, ref)];
    }

    /** bindImage. */
    method BindImage(binding: nat, descriptorType: nat, imageInfo: DSC.ImageInfo)
      modifies this`writes, this`imageInfos
      ensures State() == Apply(old(State()), BindImageCall(binding, descriptorType, imageInfo))
    {
      var ref := ImageRef(|imageInfos|);
      imageInfos := imageInfos + [imageInfo];
      writes := writes + [Write(NULL_HANDLE, binding, 1, descriptorType, ref)];
    }

    /**
     * build: allocate a set of this layout through the allocator (whose
     * driver answers are passed through); on anything but success return
     * that and leave the writes alone; on success point every write at the
     * new set and submit them all in one vkUpdateDescriptorSets.
     */
    method Build(first: VkResult, retry: VkResult, ans1: DA.PoolAnswer, ans2: DA.PoolAnswer, driverSet: Handle)
      returns (r: Result<VkResult>, outSet: Handle, submitted: seq<Write>)
      modifies allocator`freePools, allocator`created, allocator`usedPools, allocator`currentPool, this`writes
      ensures var a := DA.AllocateSpec(old(allocator.State()), old(allocator.poolSizes), first, retry, ans1, ans2);
              allocator.State() == a.state && r == a.outcome
      ensures r != Ok(Success) ==> writes == old(writes) && submitted == []
      ensures r == Ok(Success) ==> outSet == driverSet && PatchedTo(writes, old(writes), outSet) && submitted == writes
      ensures bufferInfos == old(bufferInfos) && imageInfos == old(imageInfos)
    {
      ghost var attempts;
      r, outSet, attempts := allocator.Allocate(layout, first, retry, ans1, ans2, driverSet);
      if r != Ok(Success) {
        return r, outSet, [];
      }
      writes := PatchDstSet(writes, outSet);
      submitted := writes;
    }
  }

  // ---------------------------------------------------------------------
  // The writes as the source stores them: pointers into the info vectors

  /**
   * A std::vector's size, capacity and storage block. Growing past the
   * capacity moves the elements to a new block (the generation counts
   * blocks); the capacity goes 0, 1, 2, 4, ... as in libstdc++.
   */
  datatype Vector = Vector(size: nat, capacity: nat, generation: nat)

  /** `&v.back()`: the element's place in the block current at the time. */
  datatype Pointer = Pointer(generation: nat, index: nat)

  const EMPTY_VECTOR: Vector := Vector(0, 0, 0)

  function Grow(capacity: nat): nat
  {
    if capacity == 0 then 1 else 2 * capacity
  }

  /** push_back, then `&back()`. */
  function PushBack(v: Vector): (Vector, Pointer)
  {
    if v.size < v.capacity then (v.(size := v.size + 1), Pointer(v.generation, v.size))
    else (Vector(v.size + 1, Grow(v.capacity), v.generation + 1), Pointer(v.generation + 1, v.size))
  }

  /** A pointer into a freed block, or past the end, designates nothing. */
  predicate Dangling(v: Vector, p: Pointer)
  {
    p.generation != v.generation || p.index >= v.size
  }

  /** bindBuffer as written: writes hold `&bufferInfos_.back()`. */
  datatype PointerBuilder = PointerBuilder(bufferWrites: seq<Pointer>, bufferInfos: Vector)

  function BindBufferAsWritten(b: PointerBuilder): PointerBuilder
  {
    var (v, p) := PushBack(b.bufferInfos);
    PointerBuilder(b.bufferWrites + [p], v)
  }

  /** A bindBuffer on a full vector leaves every earlier write's pBufferInfo dangling. */
  lemma FullVectorDanglesEarlierWrites(b: PointerBuilder)
    requires b.bufferInfos.size == b.bufferInfos.capacity
    requires forall k :: 0 <= k < |b.bufferWrites| ==> b.bufferWrites[k].generation <= b.bufferInfos.generation
    ensures var b2 := BindBufferAsWritten(b);
            forall k :: 0 <= k < |b.bufferWrites| ==> Dangling(b2.bufferInfos, b2.bufferWrites[k])
  {
  }

  /**
   * From a new builder, the second bindBuffer already moves the vector, so
   * the first write's pBufferInfo designates freed memory when build hands
   * the writes to vkUpdateDescriptorSets. (bindImage is the same.)
   */
  lemma SecondBindBufferDangles()
    ensures var b := BindBufferAsWritten(BindBufferAsWritten(PointerBuilder([], EMPTY_VECTOR)));
            |b.bufferWrites| == 2 && Dangling(b.bufferInfos, b.bufferWrites[0]) &&
            !Dangling(b.bufferInfos, b.bufferWrites[1])
  {
    var b1 := BindBufferAsWritten(PointerBuilder([], EMPTY_VECTOR));
    assert b1.bufferInfos == Vector(1, 1, 1) && b1.bufferWrites == [Pointer(1, 0)];
    FullVectorDanglesEarlierWrites(b1);
  }
}
