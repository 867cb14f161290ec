// The logical-device wrapper: memory-type lookup, the choice of a physical
// device, the queue families the logical device is created with, and the
// command pools created with it and destroyed with it. What the driver
// reports about each physical device is passed in as a PhysicalDevice value.

module Device {
  import opened Vk
  import opened HelpersStd
  import opened Features
  import opened HelpersVulkan

  /** VK_MAX_MEMORY_TYPES: the size of the memoryTypes array of a device. */
  const MAX_MEMORY_TYPES: nat := 32

  /** Every flag of `props` is set in `flags`. */
  predicate Includes(flags: bv32, props: bv32)
  {
    flags & props == props
  }

  /** Memory type i is allowed by typeBits (bit i set) and has every flag in props. */
  predicate SuitableMemoryType(memoryTypes: seq<bv32>, typeBits: bv32, props: bv32, i: nat)
    requires i < |memoryTypes| <= MAX_MEMORY_TYPES
  {
    typeBits & ((1 as bv32) << i) != 0 && Includes(memoryTypes[i], props)
  }

  /** Reference definition: the first suitable memory type at index i or later. */
  function FirstMemoryType(memoryTypes: seq<bv32>, typeBits: bv32, props: bv32, i: nat): (r: Option<nat>)
    requires i <= |memoryTypes| <= MAX_MEMORY_TYPES
    ensures r.Some? ==> i <= r.value < |memoryTypes| && SuitableMemoryType(memoryTypes, typeBits, props, r.value)
    ensures r.Some? ==> forall j :: i <= j < r.value ==> !SuitableMemoryType(memoryTypes, typeBits, props, j)
    ensures r.None? <==> forall j :: i <= j < |memoryTypes| ==> !SuitableMemoryType(memoryTypes, typeBits, props, j)
    decreases |memoryTypes| - i
  {
    if i == |memoryTypes| then None
    else if SuitableMemoryType(memoryTypes, typeBits, props, i) then Some(i)
    else FirstMemoryType(memoryTypes, typeBits, props, i + 1)
  }

  /**
   * findMemoryType: the smallest index below memoryTypeCount whose bit is set
   * in typeBits and whose property flags include props; an error otherwise.
   */
  method FindMemoryType(memoryTypes: seq<bv32>, typeBits: bv32, props: bv32) returns (r: Result<nat>)
    requires |memoryTypes| <= MAX_MEMORY_TYPES
    ensures r.Ok? <==> FirstMemoryType(memoryTypes, typeBits, props, 0).Some?
    ensures r.Ok? ==> r.value == FirstMemoryType(memoryTypes, typeBits, props, 0).value
    ensures r.Ok? ==> r.value < |memoryTypes| && SuitableMemoryType(memoryTypes, typeBits, props, r.value)
    ensures r.Err? <==> forall j :: 0 <= j < |memoryTypes| ==> !SuitableMemoryType(memoryTypes, typeBits, props, j)
  {
    var i := 0;
    while i < |memoryTypes|
      invariant 0 <= i <= |memoryTypes|
      invariant FirstMemoryType(memoryTypes, typeBits, props, i) == FirstMemoryType(memoryTypes, typeBits, props, 0)
    {
      if typeBits & ((1 as bv32) << i) != 0 && memoryTypes[i] & props == props {
        return Ok(i);
      }
      i := i + 1;
    }
    return Err("Failed to find suitable memory type");
  }

  /** Any suitable type at k or after i bounds the first one found from i. */
  lemma {:induction false} FirstMemoryTypeAtMost(memoryTypes: seq<bv32>, typeBits: bv32, props: bv32, i: nat, k: nat)
    requires i <= k < |memoryTypes| <= MAX_MEMORY_TYPES
    requires SuitableMemoryType(memoryTypes, typeBits, props, k)
    ensures FirstMemoryType(memoryTypes, typeBits, props, i).Some?
    ensures FirstMemoryType(memoryTypes, typeBits, props, i).value <= k
    decreases k - i
  {
    if i < k && !SuitableMemoryType(memoryTypes, typeBits, props, i) {
      FirstMemoryTypeAtMost(memoryTypes, typeBits, props, i + 1, k);
    }
  }

  /** Asking for fewer property flags never moves the answer to a later memory type. */
  lemma FirstMemoryTypeRelaxed(memoryTypes: seq<bv32>, typeBits: bv32, props: bv32, weaker: bv32)
    requires |memoryTypes| <= MAX_MEMORY_TYPES
    requires Includes(props, weaker)
    requires FirstMemoryType(memoryTypes, typeBits, props, 0).Some?
    ensures FirstMemoryType(memoryTypes, typeBits, weaker, 0).Some?
    ensures FirstMemoryType(memoryTypes, typeBits, weaker, 0).value <= FirstMemoryType(memoryTypes, typeBits, props, 0).value
  {
    var k := FirstMemoryType(memoryTypes, typeBits, props, 0).value;
    SuitableRelaxed(memoryTypes, typeBits, props, weaker, k);
    FirstMemoryTypeAtMost(memoryTypes, typeBits, weaker, 0, k);
  }

  /** A memory type suitable for props is suitable for every subset of props. */
  lemma SuitableRelaxed(memoryTypes: seq<bv32>, typeBits: bv32, props: bv32, weaker: bv32, k: nat)
    requires k < |memoryTypes| <= MAX_MEMORY_TYPES
    requires SuitableMemoryType(memoryTypes, typeBits, props, k)
    requires Includes(props, weaker)
    ensures SuitableMemoryType(memoryTypes, typeBits, weaker, k)
  {
    FlagsSubset(memoryTypes[k], props, weaker);
  }

  /** Flags that include props include every subset of props. */
  lemma FlagsSubset(flags: bv32, props: bv32, weaker: bv32)
    requires Includes(flags, props)
    requires Includes(props, weaker)
    ensures Includes(flags, weaker)
  {
  }

  // ---------------------------------------------------------------------------
  // Choosing the physical device

  /**
   * What the engine learns about one physical device: its extension names,
   * its feature structs, per queue family the flags and whether it can
   * present to the surface, the property flags of its memory types, and the
   * value ScorePhysicalDevice gives it.
   */
  datatype PhysicalDevice = PhysicalDevice(
    handle: Handle,
    extensions: seq<string>,
    features: AllFeatures,
    queueFlags: seq<bv32>,
    presentSupport: seq<bool>,
    memoryTypes: seq<bv32>,
    score: int)

  predicate WellFormed(pd: PhysicalDevice)
  {
    |pd.presentSupport| == |pd.queueFlags| <= UINT32_MAX && |pd.memoryTypes| <= MAX_MEMORY_TYPES
  }

  predicate AllWellFormed(devices: seq<PhysicalDevice>)
  {
    forall i :: 0 <= i < |devices| ==> WellFormed(devices[i])
  }

  /** The three checks a device must pass before it is scored. */
  ghost predicate Passes(pd: PhysicalDevice, extSet: set<string>, featSet: set<FeatureName>)
    requires WellFormed(pd)
  {
    (forall e :: e in extSet ==> e in pd.extensions) &&
    (forall f :: f in featSet && f in ALL_VULKAN_FEATURE_NAMES ==> HasFeature(f, pd.features)) &&
    MinimalSupport(pd.queueFlags, pd.presentSupport)
  }

  /**
   * Device k is the choice: it passes, its score is not negative, no passing
   * device scores higher, and every passing device before it scores lower.
   */
  ghost predicate IsChosen(devices: seq<PhysicalDevice>, extSet: set<string>, featSet: set<FeatureName>, k: nat)
    requires AllWellFormed(devices)
  {
    k < |devices| && Passes(devices[k], extSet, featSet) && devices[k].score >= 0 &&
    (forall j :: 0 <= j < |devices| && Passes(devices[j], extSet, featSet) ==> devices[j].score <= devices[k].score) &&
    (forall j :: 0 <= j < k && Passes(devices[j], extSet, featSet) ==> devices[j].score < devices[k].score)
  }

  /**
   * The selection loop of pickPhysicalDevice: skip devices failing a check,
   * keep a device whose score beats the best so far (starting at -1), and
   * fail when no device was kept.
   */
  method SelectPhysicalDevice(devices: seq<PhysicalDevice>, extSet: set<string>, featSet: set<FeatureName>)
    returns (r: Result<nat>)
    requires AllWellFormed(devices)
    ensures r.Ok? ==> IsChosen(devices, extSet, featSet, r.value)
    ensures r.Err? <==> forall j :: 0 <= j < |devices| && Passes(devices[j], extSet, featSet) ==> devices[j].score < 0
  {
    var bestScore := -1;
    var best := 0;
    for i := 0 to |devices|
      invariant bestScore >= -1
      invariant forall j :: 0 <= j < i && Passes(devices[j], extSet, featSet) ==> devices[j].score <= bestScore
      invariant bestScore >= 0 ==> best < i && Passes(devices[best], extSet, featSet) && devices[best].score == bestScore
      invariant bestScore >= 0 ==>
                  forall j :: 0 <= j < best && Passes(devices[j], extSet, featSet) ==> devices[j].score < bestScore
    {
      var pd := devices[i];
      var extOk := CheckExtensionSupport(pd.extensions, extSet);
      if !extOk {
        continue;
      }
      var featOk := CheckFeatureSupport(featSet, pd.features);
      if !featOk {
        continue;
      }
      var queueOk := CheckQueueFamilyMinimalSupport(pd.queueFlags, pd.presentSupport);
      if !queueOk {
        continue;
      }
      if pd.score > bestScore {
        bestScore := pd.score;
        best := i;
      }
    }
    if bestScore < 0 {
      return Err("Failed to find a suitable physical device");
    }
    return Ok(best);
  }

  /** At most one device satisfies the choice rule. */
  lemma ChosenIsUnique(devices: seq<PhysicalDevice>, extSet: set<string>, featSet: set<FeatureName>, k1: nat, k2: nat)
    requires AllWellFormed(devices)
    requires IsChosen(devices, extSet, featSet, k1)
    requires IsChosen(devices, extSet, featSet, k2)
    ensures k1 == k2
  {
  }

  /** The chosen device has a family with graphics and present, so every graphics lookup after it succeeds. */
  lemma ChosenHasGraphicsAndPresent(devices: seq<PhysicalDevice>, extSet: set<string>, featSet: set<FeatureName>, k: nat)
    requires AllWellFormed(devices)
    requires IsChosen(devices, extSet, featSet, k)
    ensures ExpectedQueueFamilies(devices[k].queueFlags, devices[k].presentSupport).IsGraphicsComplete()
  {
    MinimalSupportGivesGraphics(devices[k].queueFlags, devices[k].presentSupport);
  }

  // ---------------------------------------------------------------------------
  // Queue families of the logical device

  predicate StrictlyIncreasing(s: seq<nat>)
  {
    forall i, j :: 0 <= i < j < |s| ==> s[i] < s[j]
  }

  /** std::set<uint32_t>::insert on the set's ascending sequence of elements. */
  function SetInsert(s: seq<nat>, x: nat): (r: seq<nat>)
    requires StrictlyIncreasing(s)
    ensures StrictlyIncreasing(r)
    ensures forall y :: y in r <==> y in s || y == x
    ensures |r| == if x in s then |s| else |s| + 1
  {
    if s == [] then [x]
    else if x < s[0] then [x] + s
    else if x == s[0] then s
    else
      var t := SetInsert(s[1..], x);
      assert forall i :: 0 <= i < |t| ==> t[i] in t;
      [s[0]] + t
  }

  /** Inserting the elements of xs, one after the other, into the set s. */
  function InsertAll(s: seq<nat>, xs: seq<nat>): (r: seq<nat>)
    requires StrictlyIncreasing(s)
    ensures StrictlyIncreasing(r)
    decreases |xs|
  {
    if xs == [] then s else InsertAll(SetInsert(s, xs[0]), xs[1..])
  }

  lemma {:induction false} InsertAllMembers(s: seq<nat>, xs: seq<nat>)
    requires StrictlyIncreasing(s)
    ensures forall f :: f in InsertAll(s, xs) <==> f in s || f in xs
    ensures 1 <= |s| ==> 1 <= |InsertAll(s, xs)| <= |s| + |xs|
    decreases |xs|
  {
    if xs != [] {
      InsertAllMembers(SetInsert(s, xs[0]), xs[1..]);
      assert xs == [xs[0]] + xs[1..];
    }
  }

  /** The present, compute and transfer families that were found, in that order. */
  function FoundFamilies(q: QueueFamilyIndices): seq<nat>
  {
    (if q.presentFamilyFound then [q.presentFamilyIndex] else []) +
    (if q.computeFamilyFound then [q.computeFamilyIndex] else []) +
    (if q.transferFamilyFound then [q.transferFamilyIndex] else [])
  }

  /**
   * The uniqueFamilies set of createLogicalDevice, in its iteration order:
   * the graphics family always, then the present, compute and transfer
   * families that were found.
   */
  function UniqueFamilies(q: QueueFamilyIndices): seq<nat>
  {
    InsertAll([q.graphicsFamilyIndex], FoundFamilies(q))
  }

  /**
   * The set holds the graphics family and every found family, nothing else,
   * each once and in ascending order: at most four queue infos.
   */
  lemma UniqueFamiliesMembers(q: QueueFamilyIndices)
    ensures StrictlyIncreasing(UniqueFamilies(q))
    ensures forall f :: f in UniqueFamilies(q) <==>
                        f == q.graphicsFamilyIndex ||
                        (q.presentFamilyFound && f == q.presentFamilyIndex) ||
                        (q.computeFamilyFound && f == q.computeFamilyIndex) ||
                        (q.transferFamilyFound && f == q.transferFamilyIndex)
    ensures 1 <= |UniqueFamilies(q)| <= 4
  {
    InsertAllMembers([q.graphicsFamilyIndex], FoundFamilies(q));
  }

  /** One queue of one family. */
  datatype QueueCreateInfo = QueueCreateInfo(queueFamilyIndex: nat, queueCount: nat)

  /**
   * What createLogicalDevice hands to vkCreateDevice: the queue infos, the
   * requested feature chain (behind the memory-priority struct, whose
   * memoryPriority is set) and the merged extension list.
   */
  datatype DeviceCreateInfo = DeviceCreateInfo(queueInfos: seq<QueueCreateInfo>, enabledFeatures: AllFeatures,
                                               memoryPriority: bool, enabledExtensions: seq<CStr<string>>)

  /** One queue, of priority 1.0, per family, in the given order. */
  function QueueInfosFor(families: seq<nat>): seq<QueueCreateInfo>
  {
    if families == [] then []
    else QueueInfosFor(families[..|families| - 1]) + [QueueCreateInfo(families[|families| - 1], 1)]
  }

  /** Entry k asks for one queue of family k, so the logical device gets one queue per distinct family. */
  lemma {:induction false} QueueInfosForEntries(families: seq<nat>)
    ensures |QueueInfosFor(families)| == |families|
    ensures forall k :: 0 <= k < |families| ==> QueueInfosFor(families)[k] == QueueCreateInfo(families[k], 1)
  {
    if families != [] {
      QueueInfosForEntries(families[..|families| - 1]);
    }
  }

  /** One VkCommandPoolCreateInfo: the family and the flags. */
  datatype CommandPoolCreateInfo = CommandPoolCreateInfo(queueFamilyIndex: nat, flags: bv32)

  /** VK_COMMAND_POOL_CREATE_TRANSIENT_BIT | VK_COMMAND_POOL_CREATE_RESET_COMMAND_BUFFER_BIT */
  const TRANSIENT_RESET_POOL_FLAGS: bv32 := 0x1 | 0x2

  /** The default extension list of a device before the requested ones are merged in. */
  const DEFAULT_DEVICE_EXTENSIONS: seq<CStr<string>> :=
    [Ptr(1, "VK_EXT_memory_budget"), Ptr(2, "VK_EXT_memory_priority"), Ptr(3, "VK_EXT_hdr_metadata")]

  /** The default feature list of a device before the requested ones are merged in. */
  const DEFAULT_DEVICE_FEATURES: seq<CStr<FeatureName>> :=
    [Ptr(4, Known(bufferDeviceAddress)), Ptr(5, Known(timelineSemaphore))]

  /** The texts of the non-null entries, in order: the names as the feature chain reads them. */
  function CStrNames(s: seq<CStr<FeatureName>>): (names: seq<FeatureName>)
    ensures forall n :: n in names <==> n in Texts(s)
    ensures |names| <= |s|
  {
    if s == [] then []
    else CStrNames(s[..|s| - 1]) + (if s[|s| - 1].Ptr? then [s[|s| - 1].text] else [])
  }

  /** The pools the constructor creates for the families found, in creation order. */
  function PoolsFor(q: QueueFamilyIndices): seq<CommandPoolCreateInfo>
  {
    (if q.presentFamilyFound then [CommandPoolCreateInfo(q.graphicsFamilyIndex, TRANSIENT_RESET_POOL_FLAGS)] else []) +
    (if q.computeFamilyFound then [CommandPoolCreateInfo(q.computeFamilyIndex, TRANSIENT_RESET_POOL_FLAGS)] else []) +
    (if q.transferFamilyFound
     then [CommandPoolCreateInfo(q.transferFamilyIndex, TRANSIENT_RESET_POOL_FLAGS),
           CommandPoolCreateInfo(q.transferFamilyIndex, 0)]
     else [])
  }

  /** A handle as a list of at most one destroyed object: empty for VK_NULL_HANDLE. */
  function Keep(h: Handle): seq<Handle>
  {
    if h != NULL_HANDLE then [h] else []
  }

  /** The handles 1, 2, ..., n: pool k + 1 is the k-th pool created. */
  function Handles(n: nat): (r: seq<Handle>)
    ensures |r| == n
    ensures forall k :: 0 <= k < n ==> r[k] == k + 1
  {
    if n == 0 then [] else Handles(n - 1) + [n]
  }

  /** The four command-pool fields of a device. */
  datatype PoolHandles = PoolHandles(graphics: Handle, compute: Handle, transfer: Handle, staticTransfer: Handle)
  {
    /** The non-null pools, in the order the destructor visits them. */
    function Live(): seq<Handle>
    {
      Keep(graphics) + Keep(compute) + Keep(transfer) + Keep(staticTransfer)
    }
  }

  /** The pool fields after the constructor: pool k + 1 is the k-th entry of PoolsFor(q). */
  function ExpectedPools(q: QueueFamilyIndices): PoolHandles
  {
    var afterGraphics: nat := if q.presentFamilyFound then 1 else 0;
    var afterCompute: nat := afterGraphics + if q.computeFamilyFound then 1 else 0;
    PoolHandles(
      if q.presentFamilyFound then 1 else NULL_HANDLE,
      if q.computeFamilyFound then afterCompute else NULL_HANDLE,
      if q.transferFamilyFound then afterCompute + 1 else NULL_HANDLE,
      if q.transferFamilyFound then afterCompute + 2 else NULL_HANDLE)
  }

  /** Does pool handle h name a created pool for this family with these flags? */
  predicate CreatedFor(pools: seq<CommandPoolCreateInfo>, h: Handle, family: nat, flags: bv32)
  {
    1 <= h <= |pools| && pools[h - 1] == CommandPoolCreateInfo(family, flags)
  }

  /**
   * What the constructor's pools promise: a pool exists exactly for the
   * roles it is created for, each names a pool created for its role's family
   * with its role's flags, and the destructor visits the created pools once
   * each, in creation order.
   */
  lemma ExpectedPoolsAgree(q: QueueFamilyIndices)
    ensures var p := ExpectedPools(q);
            (p.graphics != NULL_HANDLE <==> q.presentFamilyFound) &&
            (p.compute != NULL_HANDLE <==> q.computeFamilyFound) &&
            (p.transfer != NULL_HANDLE <==> q.transferFamilyFound) &&
            (p.staticTransfer != NULL_HANDLE <==> q.transferFamilyFound)
    ensures var p := ExpectedPools(q);
            (p.graphics != NULL_HANDLE ==>
               CreatedFor(PoolsFor(q), p.graphics, q.graphicsFamilyIndex, TRANSIENT_RESET_POOL_FLAGS)) &&
            (p.compute != NULL_HANDLE ==>
               CreatedFor(PoolsFor(q), p.compute, q.computeFamilyIndex, TRANSIENT_RESET_POOL_FLAGS)) &&
            (p.transfer != NULL_HANDLE ==>
               CreatedFor(PoolsFor(q), p.transfer, q.transferFamilyIndex, TRANSIENT_RESET_POOL_FLAGS)) &&
            (p.staticTransfer != NULL_HANDLE ==>
               CreatedFor(PoolsFor(q), p.staticTransfer, q.transferFamilyIndex, 0))
    ensures ExpectedPools(q).Live() == Handles(|PoolsFor(q)|)
  {
    var g := if q.presentFamilyFound then [CommandPoolCreateInfo(q.graphicsFamilyIndex, TRANSIENT_RESET_POOL_FLAGS)] else [];
    var c := if q.computeFamilyFound then [CommandPoolCreateInfo(q.computeFamilyIndex, TRANSIENT_RESET_POOL_FLAGS)] else [];
    assert |PoolsFor(q)| == |g| + |c| + if q.transferFamilyFound then 2 else 0;
    var live := ExpectedPools(q).Live();
    assert |live| == |PoolsFor(q)|;
    forall k | 0 <= k < |live| ensures live[k] == k + 1 {
    }
  }

  /** The queue-create-info loop of createLogicalDevice: one queue of each family, in order. */
  method MakeQueueCreateInfos(families: seq<nat>) returns (infos: seq<QueueCreateInfo>)
    ensures infos == QueueInfosFor(families)
  {
    infos := [];
    for k := 0 to |families|
      invariant infos == QueueInfosFor(families[..k])
    {
      assert families[..k + 1][..k] == families[..k];
      infos := infos + [QueueCreateInfo(families[k], 1)];
    }
    assert families[..|families|] == families;
  }

  class Device {
    var deviceExtensions: seq<CStr<string>>
    var deviceFeatures: seq<CStr<FeatureName>>
    var physicalDevice: Handle
    var memoryTypes: seq<bv32>
    var availableFeatures: AllFeatures
    var queueIndices: QueueFamilyIndices
    var device: Handle
    var graphicsCommandPool: Handle
    var computeCommandPool: Handle
    var transferCommandPool: Handle
    var staticTransferCommandPool: Handle
    /** Every pool created so far; the driver hands out handle k + 1 for entry k. */
    var commandPools: seq<CommandPoolCreateInfo>

    /**
     * The in-class member initialisers, then the first step of the
     * constructor body: the requested names are merged into the defaults.
     */
    constructor (requestedExtensions: seq<CStr<string>>, requestedFeatures: seq<CStr<FeatureName>>)
      ensures deviceExtensions == InsertedUnique(DEFAULT_DEVICE_EXTENSIONS, requestedExtensions)
      ensures deviceFeatures == InsertedUnique(DEFAULT_DEVICE_FEATURES, requestedFeatures)
      ensures physicalDevice == NULL_HANDLE && device == NULL_HANDLE
      ensures availableFeatures == NO_FEATURES && queueIndices == NO_QUEUE_FAMILIES
      ensures NoPools()
    {
      var extensions := InsertUniqueCStrings(DEFAULT_DEVICE_EXTENSIONS, requestedExtensions);
      var features := InsertUniqueCStrings(DEFAULT_DEVICE_FEATURES, requestedFeatures);
      deviceExtensions := extensions;
      deviceFeatures := features;
      physicalDevice := NULL_HANDLE;
      memoryTypes := [];
      availableFeatures := NO_FEATURES;
      queueIndices := NO_QUEUE_FAMILIES;
      device := NULL_HANDLE;
      graphicsCommandPool := NULL_HANDLE;
      computeCommandPool := NULL_HANDLE;
      transferCommandPool := NULL_HANDLE;
      staticTransferCommandPool := NULL_HANDLE;
      commandPools := [];
    }

    /** The four pool fields. */
    function Pools(): PoolHandles
      reads this`graphicsCommandPool, this`computeCommandPool, this`transferCommandPool, this`staticTransferCommandPool
    {
      PoolHandles(graphicsCommandPool, computeCommandPool, transferCommandPool, staticTransferCommandPool)
    }

    /** The non-null pool fields, in the order the destructor visits them. */
    function LivePools(): seq<Handle>
      reads this`graphicsCommandPool, this`computeCommandPool, this`transferCommandPool, this`staticTransferCommandPool
    {
      Pools().Live()
    }

    /** No pool created yet and every pool field VK_NULL_HANDLE, as after the member initialisers. */
    predicate NoPools()
      reads this`commandPools
      reads this`graphicsCommandPool, this`computeCommandPool, this`transferCommandPool, this`staticTransferCommandPool
    {
      commandPools == [] && Pools() == PoolHandles(NULL_HANDLE, NULL_HANDLE, NULL_HANDLE, NULL_HANDLE)
    }

    /** The pools are the ones the constructor creates for the families found (see ExpectedPoolsAgree). */
    predicate PoolsMatchFamilies()
      reads this`commandPools, this`queueIndices
      reads this`graphicsCommandPool, this`computeCommandPool, this`transferCommandPool, this`staticTransferCommandPool
    {
      commandPools == PoolsFor(queueIndices) && Pools() == ExpectedPools(queueIndices)
    }

    /**
     * pickPhysicalDevice: the required extension and feature names become
     * sets, the selection loop runs, and the chosen device's features are
     * queried.
     */
    method PickPhysicalDevice(devices: seq<PhysicalDevice>) returns (r: Result<nat>)
      requires AllWellFormed(devices)
      modifies this`physicalDevice, this`availableFeatures
      ensures r.Ok? ==> IsChosen(devices, Texts(deviceExtensions), Texts(deviceFeatures), r.value)
      ensures r.Ok? ==> physicalDevice == devices[r.value].handle && availableFeatures == devices[r.value].features
      ensures r.Err? <==>
                forall j :: 0 <= j < |devices| && Passes(devices[j], Texts(deviceExtensions), Texts(deviceFeatures)) ==>
                  devices[j].score < 0
    {
      r := SelectPhysicalDevice(devices, Texts(deviceExtensions), Texts(deviceFeatures));
      if r.Ok? {
        physicalDevice := devices[r.value].handle;
        availableFeatures := devices[r.value].features;
      }
    }

    /**
     * createLogicalDevice: one queue per distinct family, the requested
     * feature chain, and vkCreateDevice under VK_CHECK; `handle` is what the
     * driver returns on success, `info` what it was given.
     */
    method CreateLogicalDevice(createResult: VkResult, handle: Handle) returns (r: Result<()>, info: DeviceCreateInfo)
      requires handle != NULL_HANDLE
      modifies this`device
      ensures info.queueInfos == QueueInfosFor(UniqueFamilies(queueIndices))
      ensures info.enabledFeatures == RequestedChain(availableFeatures, CStrNames(deviceFeatures))
      ensures info.memoryPriority && info.enabledExtensions == deviceExtensions
      ensures r.Ok? <==> createResult == Success
      ensures device == if createResult == Success then handle else old(device)
    {
      var queueInfos := MakeQueueCreateInfos(UniqueFamilies(queueIndices));
      var reqChain := BuildRequiredFeatureChain(availableFeatures, CStrNames(deviceFeatures));
      info := DeviceCreateInfo(queueInfos, reqChain, true, deviceExtensions);
      r := Checked(createResult, (), "vkCreateDevice");
      if r.Ok? {
        device := handle;
      }
    }

    /** vkCreateCommandPool for one family; the driver's handle is the pool's creation number. */
    method CreateCommandPool(family: nat, flags: bv32) returns (pool: Handle)
      modifies this`commandPools
      ensures commandPools == old(commandPools) + [CommandPoolCreateInfo(family, flags)]
      ensures pool == |commandPools|
    {
      commandPools := commandPools + [CommandPoolCreateInfo(family, flags)];
      pool := |commandPools|;
    }

    /**
     * The pool part of the constructor: the graphics pool when a present
     * family was found, the compute pool when a compute family was found,
     * and both transfer pools when a transfer family was found.
     */
    method CreateDefaultPools()
      requires NoPools()
      modifies this`commandPools, this`graphicsCommandPool, this`computeCommandPool
      modifies this`transferCommandPool, this`staticTransferCommandPool
      ensures PoolsMatchFamilies()
    {
      assert Pools() == PoolHandles(NULL_HANDLE, NULL_HANDLE, NULL_HANDLE, NULL_HANDLE);
      if queueIndices.presentFamilyFound {
        graphicsCommandPool := CreateCommandPool(queueIndices.graphicsFamilyIndex, TRANSIENT_RESET_POOL_FLAGS);
      }
      if queueIndices.computeFamilyFound {
        computeCommandPool := CreateCommandPool(queueIndices.computeFamilyIndex, TRANSIENT_RESET_POOL_FLAGS);
      }
      if queueIndices.transferFamilyFound {
        transferCommandPool := CreateCommandPool(queueIndices.transferFamilyIndex, TRANSIENT_RESET_POOL_FLAGS);
        staticTransferCommandPool := CreateCommandPool(queueIndices.transferFamilyIndex, 0);
      }
    }

    /**
     * The rest of the constructor once the device is picked: its memory
     * types, its queue families, the logical device and the default pools.
     */
    method SetUpQueues(pd: PhysicalDevice, createResult: VkResult, deviceHandle: Handle) returns (r: Result<()>)
      requires WellFormed(pd)
      requires deviceHandle != NULL_HANDLE
      requires NoPools()
      modifies this`memoryTypes, this`queueIndices, this`device
      modifies this`commandPools, this`graphicsCommandPool, this`computeCommandPool
      modifies this`transferCommandPool, this`staticTransferCommandPool
      ensures r.Ok? <==> createResult == Success
      ensures memoryTypes == pd.memoryTypes
      ensures queueIndices == ExpectedQueueFamilies(pd.queueFlags, pd.presentSupport)
      ensures r.Ok? ==> device == deviceHandle && PoolsMatchFamilies()
    {
      memoryTypes := pd.memoryTypes;
      queueIndices := FindQueueFamilyIndices(pd.queueFlags, pd.presentSupport);
      r := CreateLogicalDeviceAndPools(createResult, deviceHandle);
    }

    /**
     * The constructor after the name merge: pickPhysicalDevice, then the
     * chosen device's queue families, the logical device and the default
     * pools. The result is the chosen device's index.
     */
    method PickAndSetUp(devices: seq<PhysicalDevice>, createResult: VkResult, deviceHandle: Handle)
      returns (r: Result<nat>)
      requires AllWellFormed(devices)
      requires deviceHandle != NULL_HANDLE
      requires NoPools()
      modifies this`physicalDevice, this`availableFeatures, this`memoryTypes, this`queueIndices, this`device
      modifies this`commandPools, this`graphicsCommandPool, this`computeCommandPool
      modifies this`transferCommandPool, this`staticTransferCommandPool
      ensures r.Ok? ==> IsChosen(devices, Texts(deviceExtensions), Texts(deviceFeatures), r.value)
      ensures r.Ok? ==> physicalDevice == devices[r.value].handle &&
                        queueIndices == ExpectedQueueFamilies(devices[r.value].queueFlags, devices[r.value].presentSupport)
      ensures r.Ok? ==> queueIndices.IsGraphicsComplete() && graphicsCommandPool != NULL_HANDLE
      ensures r.Ok? ==> device == deviceHandle && PoolsMatchFamilies()
      ensures r.Err? <==>
                createResult != Success || NoUsableDevice(devices, Texts(deviceExtensions), Texts(deviceFeatures))
    {
      r := PickPhysicalDevice(devices);
      if r.Err? {
        return;
      }
      var k := r.value;
      ChosenHasGraphicsAndPresent(devices, Texts(deviceExtensions), Texts(deviceFeatures), k);
      var created := SetUpQueues(devices[k], createResult, deviceHandle);
      if created.Err? {
        return Err(created.message);
      }
    }

    /** createLogicalDevice, then, when it succeeded, the default pools. */
    method CreateLogicalDeviceAndPools(createResult: VkResult, deviceHandle: Handle) returns (r: Result<()>)
      requires deviceHandle != NULL_HANDLE
      requires NoPools()
      modifies this`device, this`commandPools, this`graphicsCommandPool, this`computeCommandPool
      modifies this`transferCommandPool, this`staticTransferCommandPool
      ensures r.Ok? <==> createResult == Success
      ensures r.Ok? ==> device == deviceHandle && PoolsMatchFamilies()
    {
      var info;
      r, info := CreateLogicalDevice(createResult, deviceHandle);
      if r.Ok? {
        CreateDefaultPools();
      }
    }

    /**
     * The destructor's teardown: each non-null pool is destroyed and nulled,
     * in field order, then the device itself.
     */
    method Destroy() returns (destroyed: seq<Handle>)
      modifies this`graphicsCommandPool, this`computeCommandPool
      modifies this`transferCommandPool, this`staticTransferCommandPool, this`device
      ensures destroyed == old(LivePools()) + Keep(old(device))
      ensures LivePools() == [] && device == NULL_HANDLE
    {
      var graphics, compute, transfer, staticTransfer, dev;
      graphics, graphicsCommandPool := DestroyIfLive(graphicsCommandPool);
      compute, computeCommandPool := DestroyIfLive(computeCommandPool);
      transfer, transferCommandPool := DestroyIfLive(transferCommandPool);
      staticTransfer, staticTransferCommandPool := DestroyIfLive(staticTransferCommandPool);
      dev, device := DestroyIfLive(device);
      destroyed := graphics + compute + transfer + staticTransfer + dev;
    }
  }

  /** One `if (h != VK_NULL_HANDLE) { destroy h; h = VK_NULL_HANDLE; }` step of the destructor. */
  method DestroyIfLive(h: Handle) returns (destroyed: seq<Handle>, after: Handle)
    ensures destroyed == Keep(h)
    ensures after == NULL_HANDLE
  {
    destroyed := [];
    after := h;
    if h != NULL_HANDLE {
      destroyed := [h];
      after := NULL_HANDLE;
    }
  }

  /** No device that meets the requirements scores 0 or more, so pickPhysicalDevice throws. */
  ghost predicate NoUsableDevice(devices: seq<PhysicalDevice>, extSet: set<string>, featSet: set<FeatureName>)
    requires AllWellFormed(devices)
  {
    forall j :: 0 <= j < |devices| && Passes(devices[j], extSet, featSet) ==> devices[j].score < 0
  }

  /**
   * The Device constructor: merge the requested names into the defaults,
   * pick the physical device, find its queue families, create the logical
   * device and the default pools. Errors are the exceptions it throws.
   */
  method CreateDevice(devices: seq<PhysicalDevice>, deviceExtensions: seq<CStr<string>>, deviceFeatures: seq<CStr<FeatureName>>,
                      createResult: VkResult, deviceHandle: Handle)
    returns (r: Result<Device>)
    requires AllWellFormed(devices)
    requires deviceHandle != NULL_HANDLE
    ensures r.Ok? ==> fresh(r.value)
    ensures r.Ok? ==> r.value.deviceExtensions == InsertedUnique(DEFAULT_DEVICE_EXTENSIONS, deviceExtensions)
    ensures r.Ok? ==> r.value.deviceFeatures == InsertedUnique(DEFAULT_DEVICE_FEATURES, deviceFeatures)
    ensures r.Ok? ==>
              exists k: nat :: IsChosen(devices, Texts(r.value.deviceExtensions), Texts(r.value.deviceFeatures), k) &&
                          r.value.physicalDevice == devices[k].handle &&
                          r.value.queueIndices == ExpectedQueueFamilies(devices[k].queueFlags, devices[k].presentSupport)
    ensures r.Ok? ==> r.value.queueIndices.IsGraphicsComplete() && r.value.graphicsCommandPool != NULL_HANDLE
    ensures r.Ok? ==> r.value.device == deviceHandle && r.value.PoolsMatchFamilies()
    ensures r.Err? <==>
              createResult != Success ||
              NoUsableDevice(devices, Texts(InsertedUnique(DEFAULT_DEVICE_EXTENSIONS, deviceExtensions)),
                             Texts(InsertedUnique(DEFAULT_DEVICE_FEATURES, deviceFeatures)))
  {
    var d := new Device(deviceExtensions, deviceFeatures);
    var picked := d.PickAndSetUp(devices, createResult, deviceHandle);
    if picked.Err? {
      return Err(picked.message);
    }
    r := Ok(d);
    assert IsChosen(devices, Texts(r.value.deviceExtensions), Texts(r.value.deviceFeatures), picked.value);
  }
}
