// The named device-feature table and the queries built on it: which of the
// Vulkan 1.0-1.4 feature flags a name denotes, whether a feature set has it,
// and how a request chain is assembled from a list of names.

module Features {
  import opened Vk

  /** The five feature structures chained behind VkPhysicalDeviceFeatures2. */
  datatype FeatureStruct = Core | V11 | V12 | V13 | V14

  /** The feature names the table knows, spelled as the header spells them. */
  datatype KnownFeature =
    // VkPhysicalDeviceFeatures
    | robustBufferAccess | fullDrawIndexUint32 | imageCubeArray | independentBlend | geometryShader
    | tessellationShader | sampleRateShading | dualSrcBlend | logicOp | multiDrawIndirect
    | drawIndirectFirstInstance | depthClamp | depthBiasClamp | fillModeNonSolid | depthBounds
    | wideLines | largePoints | alphaToOne | multiViewport | samplerAnisotropy
    | textureCompressionETC2 | textureCompressionASTC_LDR | textureCompressionBC
    | occlusionQueryPrecise | pipelineStatisticsQuery | vertexPipelineStoresAndAtomics
    | fragmentStoresAndAtomics | shaderTessellationAndGeometryPointSize | shaderImageGatherExtended
    | shaderStorageImageExtendedFormats | shaderStorageImageMultisample
    | shaderStorageImageReadWithoutFormat | shaderStorageImageWriteWithoutFormat
    | shaderUniformBufferArrayDynamicIndexing | shaderSampledImageArrayDynamicIndexing
    | shaderStorageBufferArrayDynamicIndexing | shaderStorageImageArrayDynamicIndexing
    | shaderClipDistance | shaderCullDistance | shaderFloat64 | shaderInt64 | shaderInt16
    | shaderResourceResidency | shaderResourceMinLod | sparseBinding | sparseResidencyBuffer
    | sparseResidencyImage2D | sparseResidencyImage3D | sparseResidency2Samples
    | sparseResidency4Samples | sparseResidency8Samples | sparseResidency16Samples
    | sparseResidencyAliased | variableMultisampleRate | inheritedQueries
    // VkPhysicalDeviceVulkan11Features
    | storageBuffer16BitAccess | uniformAndStorageBuffer16BitAccess | storagePushConstant16
    | storageInputOutput16 | multiview | multiviewGeometryShader | multiviewTessellationShader
    | variablePointersStorageBuffer | variablePointers | protectedMemory | samplerYcbcrConversion
    | shaderDrawParameters
    // VkPhysicalDeviceVulkan12Features
    | samplerMirrorClampToEdge | drawIndirectCount | storageBuffer8BitAccess
    | uniformAndStorageBuffer8BitAccess | storagePushConstant8 | shaderBufferInt64Atomics
    | shaderSharedInt64Atomics | shaderFloat16 | shaderInt8 | descriptorIndexing
    | shaderInputAttachmentArrayDynamicIndexing | shaderUniformTexelBufferArrayDynamicIndexing
    | shaderStorageTexelBufferArrayDynamicIndexing | shaderUniformBufferArrayNonUniformIndexing
    | shaderSampledImageArrayNonUniformIndexing | shaderStorageBufferArrayNonUniformIndexing
    | shaderStorageImageArrayNonUniformIndexing | shaderInputAttachmentArrayNonUniformIndexing
    | descriptorBindingUniformBufferUpdateAfterBind | descriptorBindingSampledImageUpdateAfterBind
    | descriptorBindingStorageImageUpdateAfterBind | descriptorBindingStorageBufferUpdateAfterBind
    | descriptorBindingUniformTexelBufferUpdateAfterBind
    | descriptorBindingStorageTexelBufferUpdateAfterBind | descriptorBindingUpdateUnusedWhilePending
    | descriptorBindingPartiallyBound | descriptorBindingVariableDescriptorCount
    | runtimeDescriptorArray | samplerFilterMinmax | scalarBlockLayout | imagelessFramebuffer
    | uniformBufferStandardLayout | shaderSubgroupExtendedTypes | separateDepthStencilLayouts
    | hostQueryReset | timelineSemaphore | bufferDeviceAddress | bufferDeviceAddressCaptureReplay
    | bufferDeviceAddressMultiDevice | vulkanMemoryModel | vulkanMemoryModelDeviceScope
    | vulkanMemoryModelAvailabilityVisibilityChains | shaderOutputViewportIndex | shaderOutputLayer
    | subgroupBroadcastDynamicId
    // VkPhysicalDeviceVulkan13Features
    | robustImageAccess | inlineUniformBlock | descriptorBindingInlineUniformBlockUpdateAfterBind
    | pipelineCreationCacheControl | privateData | shaderDemoteToHelperInvocation
    | shaderTerminateInvocation | subgroupSizeControl | computeFullSubgroups | synchronization2
    | textureCompressionASTC_HDR | shaderZeroInitializeWorkgroupMemory | dynamicRendering
    | shaderIntegerDotProduct | maintenance4
    // VkPhysicalDeviceVulkan14Features
    | globalPriorityQuery | shaderSubgroupRotate | shaderSubgroupRotateClustered
    | shaderFloatControls2 | shaderExpectAssume | rectangularLines | bresenhamLines | smoothLines
    | stippledRectangularLines | stippledBresenhamLines | stippledSmoothLines
    | vertexAttributeInstanceRateDivisor | vertexAttributeInstanceRateZeroDivisor | indexTypeUint8
    | dynamicRenderingLocalRead | maintenance5 | maintenance6 | pipelineProtectedAccess
    | pipelineRobustness | hostImageCopy | pushDescriptor

  /**
   * A feature name as text: one the table knows, or any other text. By
   * convention `Unknown` never spells a name of the table; such a text is
   * written as `Known`, so that comparing names compares their texts.
   */
  datatype FeatureName = Known(feature: KnownFeature) | Unknown(text: string)

  /**
   * One FEATURE_TABLE row. Of its five member pointers exactly one is set,
   * and it points at the member called like the row; the row therefore
   * records the name and the structure whose member is pointed at.
   */
  datatype FeatureMap = FeatureMap(name: FeatureName, member: FeatureStruct)

  /**
   * AllFeatures: for each structure, the names of its VkBool32 members that
   * are VK_TRUE.
   */
  datatype AllFeatures = AllFeatures(
    core: set<FeatureName>,
    v11: set<FeatureName>,
    v12: set<FeatureName>,
    v13: set<FeatureName>,
    v14: set<FeatureName>)

  /** `AllFeatures req{}`: every flag VK_FALSE. */
  const NO_FEATURES: AllFeatures := AllFeatures({}, {}, {}, {}, {})

  function Names(table: seq<FeatureMap>): seq<FeatureName>
  {
    if table == [] then [] else [table[0].name] + Names(table[1..])
  }

  // FEATURE_TABLE in the header's order (the VkPhysicalDeviceFeatures rows,
  // then the Vulkan 1.1, 1.2, 1.3 and 1.4 rows), kept in parts of ten rows so
  // that the verifier never has to unfold the whole list at once.

  const TABLE_PART_1: seq<FeatureMap> := [
    FeatureMap(Known(robustBufferAccess), Core),
    FeatureMap(Known(fullDrawIndexUint32), Core),
    FeatureMap(Known(imageCubeArray), Core),
    FeatureMap(Known(independentBlend), Core),
    FeatureMap(Known(geometryShader), Core),
    FeatureMap(Known(tessellationShader), Core),
    FeatureMap(Known(sampleRateShading), Core),
    FeatureMap(Known(dualSrcBlend), Core),
    FeatureMap(Known(logicOp), Core),
    FeatureMap(Known(multiDrawIndirect), Core)
  ]

  const TABLE_PART_2: seq<FeatureMap> := [
    FeatureMap(Known(drawIndirectFirstInstance), Core),
    FeatureMap(Known(depthClamp), Core),
    FeatureMap(Known(depthBiasClamp), Core),
    FeatureMap(Known(fillModeNonSolid), Core),
    FeatureMap(Known(depthBounds), Core),
    FeatureMap(Known(wideLines), Core),
    FeatureMap(Known(largePoints), Core),
    FeatureMap(Known(alphaToOne), Core),
    FeatureMap(Known(multiViewport), Core),
    FeatureMap(Known(samplerAnisotropy), Core)
  ]

  const TABLE_PART_3: seq<FeatureMap> := [
    FeatureMap(Known(textureCompressionETC2), Core),
    FeatureMap(Known(textureCompressionASTC_LDR), Core),
    FeatureMap(Known(textureCompressionBC), Core),
    FeatureMap(Known(occlusionQueryPrecise), Core),
    FeatureMap(Known(pipelineStatisticsQuery), Core),
    FeatureMap(Known(vertexPipelineStoresAndAtomics), Core),
    FeatureMap(Known(fragmentStoresAndAtomics), Core),
    FeatureMap(Known(shaderTessellationAndGeometryPointSize), Core),
    FeatureMap(Known(shaderImageGatherExtended), Core),
    FeatureMap(Known(shaderStorageImageExtendedFormats), Core)
  ]

  const TABLE_PART_4: seq<FeatureMap> := [
    FeatureMap(Known(shaderStorageImageMultisample), Core),
    FeatureMap(Known(shaderStorageImageReadWithoutFormat), Core),
    FeatureMap(Known(shaderStorageImageWriteWithoutFormat), Core),
    FeatureMap(Known(shaderUniformBufferArrayDynamicIndexing), Core),
    FeatureMap(Known(shaderSampledImageArrayDynamicIndexing), Core),
    FeatureMap(Known(shaderStorageBufferArrayDynamicIndexing), Core),
    FeatureMap(Known(shaderStorageImageArrayDynamicIndexing), Core),
    FeatureMap(Known(shaderClipDistance), Core),
    FeatureMap(Known(shaderCullDistance), Core),
    FeatureMap(Known(shaderFloat64), Core)
  ]

  const TABLE_PART_5: seq<FeatureMap> := [
    FeatureMap(Known(shaderInt64), Core),
    FeatureMap(Known(shaderInt16), Core),
    FeatureMap(Known(shaderResourceResidency), Core),
    FeatureMap(Known(shaderResourceMinLod), Core),
    FeatureMap(Known(sparseBinding), Core),
    FeatureMap(Known(sparseResidencyBuffer), Core),
    FeatureMap(Known(sparseResidencyImage2D), Core),
    FeatureMap(Known(sparseResidencyImage3D), Core),
    FeatureMap(Known(sparseResidency2Samples), Core),
    FeatureMap(Known(sparseResidency4Samples), Core)
  ]

  const TABLE_PART_6: seq<FeatureMap> := [
    FeatureMap(Known(sparseResidency8Samples), Core),
    FeatureMap(Known(sparseResidency16Samples), Core),
    FeatureMap(Known(sparseResidencyAliased), Core),
    FeatureMap(Known(variableMultisampleRate), Core),
    FeatureMap(Known(inheritedQueries), Core),
    FeatureMap(Known(storageBuffer16BitAccess), V11),
    FeatureMap(Known(uniformAndStorageBuffer16BitAccess), V11),
    FeatureMap(Known(storagePushConstant16), V11),
    FeatureMap(Known(storageInputOutput16), V11),
    FeatureMap(Known(multiview), V11)
  ]

  const TABLE_PART_7: seq<FeatureMap> := [
    FeatureMap(Known(multiviewGeometryShader), V11),
    FeatureMap(Known(multiviewTessellationShader), V11),
    FeatureMap(Known(variablePointersStorageBuffer), V11),
    FeatureMap(Known(variablePointers), V11),
    FeatureMap(Known(protectedMemory), V11),
    FeatureMap(Known(samplerYcbcrConversion), V11),
    FeatureMap(Known(shaderDrawParameters), V11),
    FeatureMap(Known(samplerMirrorClampToEdge), V12),
    FeatureMap(Known(drawIndirectCount), V12),
    FeatureMap(Known(storageBuffer8BitAccess), V12)
  ]

  const TABLE_PART_8: seq<FeatureMap> := [
    FeatureMap(Known(uniformAndStorageBuffer8BitAccess), V12),
    FeatureMap(Known(storagePushConstant8), V12),
    FeatureMap(Known(shaderBufferInt64Atomics), V12),
    FeatureMap(Known(shaderSharedInt64Atomics), V12),
    FeatureMap(Known(shaderFloat16), V12),
    FeatureMap(Known(shaderInt8), V12),
    FeatureMap(Known(descriptorIndexing), V12),
    FeatureMap(Known(shaderInputAttachmentArrayDynamicIndexing), V12),
    FeatureMap(Known(shaderUniformTexelBufferArrayDynamicIndexing), V12),
    FeatureMap(Known(shaderStorageTexelBufferArrayDynamicIndexing), V12)
  ]

  const TABLE_PART_9: seq<FeatureMap> := [
    FeatureMap(Known(shaderUniformBufferArrayNonUniformIndexing), V12),
    FeatureMap(Known(shaderSampledImageArrayNonUniformIndexing), V12),
    FeatureMap(Known(shaderStorageBufferArrayNonUniformIndexing), V12),
    FeatureMap(Known(shaderStorageImageArrayNonUniformIndexing), V12),
    FeatureMap(Known(shaderInputAttachmentArrayNonUniformIndexing), V12),
    FeatureMap(Known(descriptorBindingUniformBufferUpdateAfterBind), V12),
    FeatureMap(Known(descriptorBindingSampledImageUpdateAfterBind), V12),
    FeatureMap(Known(descriptorBindingStorageImageUpdateAfterBind), V12),
    FeatureMap(Known(descriptorBindingStorageBufferUpdateAfterBind), V12),
    FeatureMap(Known(descriptorBindingUniformTexelBufferUpdateAfterBind), V12)
  ]

  const TABLE_PART_10: seq<FeatureMap> := [
    FeatureMap(Known(descriptorBindingStorageTexelBufferUpdateAfterBind), V12),
    FeatureMap(Known(descriptorBindingUpdateUnusedWhilePending), V12),
    FeatureMap(Known(descriptorBindingPartiallyBound), V12),
    FeatureMap(Known(descriptorBindingVariableDescriptorCount), V12),
    FeatureMap(Known(runtimeDescriptorArray), V12),
    FeatureMap(Known(samplerFilterMinmax), V12),
    FeatureMap(Known(scalarBlockLayout), V12),
    FeatureMap(Known(imagelessFramebuffer), V12),
    FeatureMap(Known(uniformBufferStandardLayout), V12),
    FeatureMap(Known(shaderSubgroupExtendedTypes), V12)
  ]

  const TABLE_PART_11: seq<FeatureMap> := [
    FeatureMap(Known(separateDepthStencilLayouts), V12),
    FeatureMap(Known(hostQueryReset), V12),
    FeatureMap(Known(timelineSemaphore), V12),
    FeatureMap(Known(bufferDeviceAddress), V12),
    FeatureMap(Known(bufferDeviceAddressCaptureReplay), V12),
    FeatureMap(Known(bufferDeviceAddressMultiDevice), V12),
    FeatureMap(Known(vulkanMemoryModel), V12),
    FeatureMap(Known(vulkanMemoryModelDeviceScope), V12),
    FeatureMap(Known(vulkanMemoryModelAvailabilityVisibilityChains), V12),
    FeatureMap(Known(shaderOutputViewportIndex), V12)
  ]

  const TABLE_PART_12: seq<FeatureMap> := [
    FeatureMap(Known(shaderOutputLayer), V12),
    FeatureMap(Known(subgroupBroadcastDynamicId), V12),
    FeatureMap(Known(robustImageAccess), V13),
    FeatureMap(Known(inlineUniformBlock), V13),
    FeatureMap(Known(descriptorBindingInlineUniformBlockUpdateAfterBind), V13),
    FeatureMap(Known(pipelineCreationCacheControl), V13),
    FeatureMap(Known(privateData), V13),
    FeatureMap(Known(shaderDemoteToHelperInvocation), V13),
    FeatureMap(Known(shaderTerminateInvocation), V13),
    FeatureMap(Known(subgroupSizeControl), V13)
  ]

  const TABLE_PART_13: seq<FeatureMap> := [
    FeatureMap(Known(computeFullSubgroups), V13),
    FeatureMap(Known(synchronization2), V13),
    FeatureMap(Known(textureCompressionASTC_HDR), V13),
    FeatureMap(Known(shaderZeroInitializeWorkgroupMemory), V13),
    FeatureMap(Known(dynamicRendering), V13),
    FeatureMap(Known(shaderIntegerDotProduct), V13),
    FeatureMap(Known(maintenance4), V13),
    FeatureMap(Known(globalPriorityQuery), V14),
    FeatureMap(Known(shaderSubgroupRotate), V14),
    FeatureMap(Known(shaderSubgroupRotateClustered), V14)
  ]

  const TABLE_PART_14: seq<FeatureMap> := [
    FeatureMap(Known(shaderFloatControls2), V14),
    FeatureMap(Known(shaderExpectAssume), V14),
    FeatureMap(Known(rectangularLines), V14),
    FeatureMap(Known(bresenhamLines), V14),
    FeatureMap(Known(smoothLines), V14),
    FeatureMap(Known(stippledRectangularLines), V14),
    FeatureMap(Known(stippledBresenhamLines), V14),
    FeatureMap(Known(stippledSmoothLines), V14),
    FeatureMap(Known(vertexAttributeInstanceRateDivisor), V14),
    FeatureMap(Known(vertexAttributeInstanceRateZeroDivisor), V14)
  ]

  const TABLE_PART_15: seq<FeatureMap> := [
    FeatureMap(Known(indexTypeUint8), V14),
    FeatureMap(Known(dynamicRenderingLocalRead), V14),
    FeatureMap(Known(maintenance5), V14),
    FeatureMap(Known(maintenance6), V14),
    FeatureMap(Known(pipelineProtectedAccess), V14),
    FeatureMap(Known(pipelineRobustness), V14),
    FeatureMap(Known(hostImageCopy), V14),
    FeatureMap(Known(pushDescriptor), V14)
  ]

  /** FEATURE_TABLE: one row per known name. */
  const FEATURE_TABLE: seq<FeatureMap> :=
    TABLE_PART_1 + TABLE_PART_2 + TABLE_PART_3 + TABLE_PART_4 + TABLE_PART_5 + TABLE_PART_6 + TABLE_PART_7 +
    TABLE_PART_8 + TABLE_PART_9 + TABLE_PART_10 + TABLE_PART_11 + TABLE_PART_12 + TABLE_PART_13 +
    TABLE_PART_14 + TABLE_PART_15


  /**
   * ALL_VULKAN_FEATURE_NAMES: the known names in table order. The header
   * spells this list out separately, with the same names in the same order.
   */
  const ALL_VULKAN_FEATURE_NAMES: seq<FeatureName> := Names(FEATURE_TABLE)

  /** std::find_if over the table by name: the first row carrying that name. */
  function Lookup(table: seq<FeatureMap>, name: FeatureName): Option<FeatureMap>
  {
    if table == [] then None
    else if table[0].name == name then Some(table[0])
    else Lookup(table[1..], name)
  }

  /** The row found carries the name and comes from the table; no row is found exactly when no row has the name. */
  lemma {:induction false} LookupFinds(table: seq<FeatureMap>, name: FeatureName)
    ensures Lookup(table, name).Some? ==> Lookup(table, name).value in table && Lookup(table, name).value.name == name
    ensures Lookup(table, name).None? <==> name !in Names(table)
  {
    if table != [] && table[0].name != name {
      LookupFinds(table[1..], name);
    }
  }

  /** The flag named `name` of structure `s`. */
  function IsSet(f: AllFeatures, s: FeatureStruct, name: FeatureName): bool
  {
    match s
    case Core => name in f.core
    case V11 => name in f.v11
    case V12 => name in f.v12
    case V13 => name in f.v13
    case V14 => name in f.v14
  }

  /** HasFeature: the flag of the named feature; false for a name outside the table. */
  function HasFeature(name: FeatureName, f: AllFeatures): bool
  {
    match Lookup(FEATURE_TABLE, name)
    case None => false
    case Some(e) => IsSet(f, e.member, e.name)
  }

  /** The structure a known name belongs to. */
  function StructOf(name: FeatureName): FeatureStruct
  {
    match Lookup(FEATURE_TABLE, name)
    case Some(e) => e.member
    case None => Core
  }

  /** HasFeature reads exactly the member called like the feature, in the structure it belongs to. */
  lemma HasFeatureReadsOwnMember(name: FeatureName, f: AllFeatures)
    ensures HasFeature(name, f) <==> name in ALL_VULKAN_FEATURE_NAMES && IsSet(f, StructOf(name), name)
  {
    LookupFinds(FEATURE_TABLE, name);
  }

  /** `f` with the flag `name` of structure `s` set. */
  function Set(f: AllFeatures, s: FeatureStruct, name: FeatureName): (r: AllFeatures)
    ensures forall t, m :: IsSet(r, t, m) <==> IsSet(f, t, m) || (t == s && m == name)
  {
    match s
    case Core => f.(core := f.core + {name})
    case V11 => f.(v11 := f.v11 + {name})
    case V12 => f.(v12 := f.v12 + {name})
    case V13 => f.(v13 := f.v13 + {name})
    case V14 => f.(v14 := f.v14 + {name})
  }

  /** The request-side update of BuildRequiredFeatureChain for one row: copy its flag when avail has it. */
  function Request(req: AllFeatures, avail: AllFeatures, e: FeatureMap): AllFeatures
  {
    if IsSet(avail, e.member, e.name) then Set(req, e.member, e.name) else req
  }

  /** The chain BuildRequiredFeatureChain returns after the first |names| names. */
  function RequestedChain(avail: AllFeatures, names: seq<FeatureName>): AllFeatures
  {
    if names == [] then NO_FEATURES
    else RequestStep(RequestedChain(avail, names[..|names| - 1]), avail, Lookup(FEATURE_TABLE, names[|names| - 1]))
  }

  /** One name of the chain: nothing for a name the table lacks, its row's copy otherwise. */
  function RequestStep(req: AllFeatures, avail: AllFeatures, it: Option<FeatureMap>): AllFeatures
  {
    match it
    case None => req
    case Some(e) => Request(req, avail, e)
  }

  /** The chain after i + 1 names is one step past the chain after i names. */
  lemma RequestedChainPrefix(avail: AllFeatures, names: seq<FeatureName>, i: nat)
    requires i < |names|
    ensures RequestedChain(avail, names[..i + 1]) ==
            RequestStep(RequestedChain(avail, names[..i]), avail, Lookup(FEATURE_TABLE, names[i]))
  {
    assert names[..i + 1][..i] == names[..i];
  }

  /**
   * BuildRequiredFeatureChain: start from all-false and, for each requested
   * name found in the table, copy every flag its row points at that is set
   * in `avail`. Unknown names are skipped.
   */
  method BuildRequiredFeatureChain(avail: AllFeatures, requiredFeatureNames: seq<FeatureName>) returns (req: AllFeatures)
    ensures req == RequestedChain(avail, requiredFeatureNames)
  {
    req := NO_FEATURES;
    var i := 0;
    while i < |requiredFeatureNames|
      invariant 0 <= i <= |requiredFeatureNames|
      invariant req == RequestedChain(avail, requiredFeatureNames[..i])
    {
      var name := requiredFeatureNames[i];
      var it := Lookup(FEATURE_TABLE, name);
      ghost var before := req;
      if it.Some? {
        var e := it.value;
        if e.member == Core && e.name in avail.core {
          req := req.(core := req.core + {e.name});
        }
        if e.member == V11 && e.name in avail.v11 {
          req := req.(v11 := req.v11 + {e.name});
        }
        if e.member == V12 && e.name in avail.v12 {
          req := req.(v12 := req.v12 + {e.name});
        }
        if e.member == V13 && e.name in avail.v13 {
          req := req.(v13 := req.v13 + {e.name});
        }
        if e.member == V14 && e.name in avail.v14 {
          req := req.(v14 := req.v14 + {e.name});
        }
      }
      assert req == RequestStep(before, avail, it) by {
        if it.Some? {
          match it.value.member
          case Core =>
          case V11 =>
          case V12 =>
          case V13 =>
          case V14 =>
        }
      }
      RequestedChainPrefix(avail, requiredFeatureNames, i);
      i := i + 1;
    }
    assert requiredFeatureNames[..i] == requiredFeatureNames;
  }

  /** The request holds a flag exactly when some requested, known name designates it and avail has it. */
  lemma {:induction false} RequestedChainIsSet(avail: AllFeatures, names: seq<FeatureName>, s: FeatureStruct, m: FeatureName)
    ensures IsSet(RequestedChain(avail, names), s, m) <==>
      m in names && m in ALL_VULKAN_FEATURE_NAMES && StructOf(m) == s && IsSet(avail, s, m)
  {
    if names != [] {
      var init := names[..|names| - 1];
      var last := names[|names| - 1];
      assert names == init + [last];
      RequestedChainIsSet(avail, init, s, m);
      LookupFinds(FEATURE_TABLE, last);
      LookupFinds(FEATURE_TABLE, m);
      match Lookup(FEATURE_TABLE, last)
      case None =>
      case Some(e) =>
    }
  }

  /** A requested feature ends up in the chain exactly when the device has it. */
  lemma RequestedChainHas(avail: AllFeatures, names: seq<FeatureName>, n: FeatureName)
    ensures HasFeature(n, RequestedChain(avail, names)) <==> n in names && HasFeature(n, avail)
  {
    HasFeatureReadsOwnMember(n, RequestedChain(avail, names));
    HasFeatureReadsOwnMember(n, avail);
    RequestedChainIsSet(avail, names, StructOf(n), n);
  }

  /** Names of the table whose flag is set in f, in table order. */
  function EnabledNames(names: seq<FeatureName>, f: AllFeatures): seq<FeatureName>
  {
    if names == [] then []
    else EnabledNames(names[..|names| - 1], f) + (if HasFeature(names[|names| - 1], f) then [names[|names| - 1]] else [])
  }

  lemma {:induction false} EnabledNamesMember(names: seq<FeatureName>, f: AllFeatures, n: FeatureName)
    ensures n in EnabledNames(names, f) <==> n in names && HasFeature(n, f)
  {
    if names != [] {
      assert names == names[..|names| - 1] + [names[|names| - 1]];
      EnabledNamesMember(names[..|names| - 1], f, n);
    }
  }

  /**
   * GetPhysicalDeviceFeaturesName: appends to `out`, in table order, every
   * known name whose flag `features` sets.
   */
  method GetPhysicalDeviceFeaturesName(features: AllFeatures, out: seq<FeatureName>) returns (result: seq<FeatureName>)
    ensures result == out + EnabledNames(ALL_VULKAN_FEATURE_NAMES, features)
    ensures forall n :: n in result[|out|..] <==> n in ALL_VULKAN_FEATURE_NAMES && HasFeature(n, features)
  {
    result := out;
    var i := 0;
    while i < |ALL_VULKAN_FEATURE_NAMES|
      invariant 0 <= i <= |ALL_VULKAN_FEATURE_NAMES|
      invariant result == out + EnabledNames(ALL_VULKAN_FEATURE_NAMES[..i], features)
    {
      var name := ALL_VULKAN_FEATURE_NAMES[i];
      assert ALL_VULKAN_FEATURE_NAMES[..i + 1][..i] == ALL_VULKAN_FEATURE_NAMES[..i];
      if HasFeature(name, features) {
        result := result + [name];
      }
      i := i + 1;
    }
    assert ALL_VULKAN_FEATURE_NAMES[..i] == ALL_VULKAN_FEATURE_NAMES;
    assert result[|out|..] == EnabledNames(ALL_VULKAN_FEATURE_NAMES, features);
    forall n ensures n in result[|out|..] <==> n in ALL_VULKAN_FEATURE_NAMES && HasFeature(n, features) {
      EnabledNamesMember(ALL_VULKAN_FEATURE_NAMES, features, n);
    }
  }

  /** FilterRequiredFeatures: the requested names that appear in the table; the rest are dropped. */
  method FilterRequiredFeatures(requiredFeatures: set<FeatureName>) returns (result: set<FeatureName>)
    ensures forall f :: f in result <==> f in requiredFeatures && f in ALL_VULKAN_FEATURE_NAMES
  {
    result := {};
    var rest := requiredFeatures;
    while rest != {}
      invariant rest <= requiredFeatures
      invariant forall f :: f in result <==> f in requiredFeatures - rest && f in ALL_VULKAN_FEATURE_NAMES
      decreases rest
    {
      var f :| f in rest;
      if f in ALL_VULKAN_FEATURE_NAMES {
        result := result + {f};
      }
      rest := rest - {f};
    }
  }

  /**
   * CheckFeatureSupport, with `features` standing for what the driver
   * reports for the device: every requested known feature is available.
   * Requested names outside the table are ignored, not treated as missing.
   */
  method CheckFeatureSupport(requiredFeatures: set<FeatureName>, features: AllFeatures) returns (ok: bool)
    ensures ok <==> forall f :: f in requiredFeatures && f in ALL_VULKAN_FEATURE_NAMES ==> HasFeature(f, features)
  {
    var requiredF := FilterRequiredFeatures(requiredFeatures);
    var availableFeatures := GetPhysicalDeviceFeaturesName(features, []);
    assert availableFeatures[0..] == availableFeatures;
    var missingFeatures := EraseAll(requiredF, availableFeatures);
    ok := missingFeatures == {};
    if !ok {
      var f :| f in missingFeatures;
      assert f in requiredFeatures && f in ALL_VULKAN_FEATURE_NAMES && !HasFeature(f, features);
    } else {
      forall f | f in requiredFeatures && f in ALL_VULKAN_FEATURE_NAMES ensures HasFeature(f, features) {
        assert f in requiredF && f !in missingFeatures;
        assert f in availableFeatures[0..];
      }
    }
  }

  /** `missing = required; for (f : available) missing.erase(f);` */
  method EraseAll(required: set<FeatureName>, available: seq<FeatureName>) returns (missing: set<FeatureName>)
    ensures missing == required - set f | f in available
  {
    missing := required;
    for i := 0 to |available|
      invariant missing == required - set f | f in available[..i]
    {
      assert available[..i + 1] == available[..i] + [available[i]];
      missing := missing - {available[i]};
    }
    assert available[..|available|] == available;
  }


}
