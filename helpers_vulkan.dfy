// Physical-device queries: queue-family selection, extension support and the
// amount of device-local memory. What the driver reports is passed in as
// plain sequences (one entry per queue family, extension or memory heap).

module HelpersVulkan {
  import opened Vk

  const QUEUE_GRAPHICS_BIT: bv32 := 0x1
  const QUEUE_COMPUTE_BIT: bv32 := 0x2
  const QUEUE_TRANSFER_BIT: bv32 := 0x4
  const MEMORY_HEAP_DEVICE_LOCAL_BIT: bv32 := 0x1

  /**
   * QueueFamilyIndices: the chosen family per role; an index stays
   * UINT32_MAX and its flag false until a family is found.
   */
  datatype QueueFamilyIndices = QueueFamilyIndices(
    graphicsFamilyIndex: nat,
    presentFamilyIndex: nat,
    computeFamilyIndex: nat,
    transferFamilyIndex: nat,
    graphicsFamilyFound: bool,
    presentFamilyFound: bool,
    computeFamilyFound: bool,
    transferFamilyFound: bool)
  {
    predicate IsGraphicsComplete() { graphicsFamilyFound && presentFamilyFound }
    predicate HasCompute() { computeFamilyFound }
    predicate HasTransfer() { transferFamilyFound }
  }

  const NO_QUEUE_FAMILIES: QueueFamilyIndices :=
    QueueFamilyIndices(UINT32_MAX, UINT32_MAX, UINT32_MAX, UINT32_MAX, false, false, false, false)

  predicate HasBit(flags: bv32, bit: bv32)
  {
    flags & bit != 0
  }

  /** The first family index whose flags have `bit` and (when `needPresent`) that can present. */
  function FirstFamily(queueFlags: seq<bv32>, presentSupport: seq<bool>, bit: bv32, needPresent: bool): (r: Option<nat>)
    requires |presentSupport| == |queueFlags|
    ensures r.Some? ==>
              r.value < |queueFlags| && HasBit(queueFlags[r.value], bit) && (needPresent ==> presentSupport[r.value])
    ensures r.Some? ==> forall j :: 0 <= j < r.value ==> !(HasBit(queueFlags[j], bit) && (needPresent ==> presentSupport[j]))
    ensures r.None? ==> forall j :: 0 <= j < |queueFlags| ==> !(HasBit(queueFlags[j], bit) && (needPresent ==> presentSupport[j]))
  {
    if queueFlags == [] then None
    else if HasBit(queueFlags[0], bit) && (needPresent ==> presentSupport[0]) then Some(0)
    else match FirstFamily(queueFlags[1..], presentSupport[1..], bit, needPresent)
      case None => None
      case Some(k) => Some(k + 1)
  }

  /**
   * The selection FindQueueFamilyIndices makes: graphics and present share
   * the first family that has the graphics bit and can present; compute and
   * transfer take the first family with their bit.
   */
  function ExpectedQueueFamilies(queueFlags: seq<bv32>, presentSupport: seq<bool>): QueueFamilyIndices
    requires |presentSupport| == |queueFlags|
  {
    var g := FirstFamily(queueFlags, presentSupport, QUEUE_GRAPHICS_BIT, true);
    var c := FirstFamily(queueFlags, presentSupport, QUEUE_COMPUTE_BIT, false);
    var t := FirstFamily(queueFlags, presentSupport, QUEUE_TRANSFER_BIT, false);
    QueueFamilyIndices(
      if g.Some? then g.value else UINT32_MAX,
      if g.Some? then g.value else UINT32_MAX,
      if c.Some? then c.value else UINT32_MAX,
      if t.Some? then t.value else UINT32_MAX,
      g.Some?, g.Some?, c.Some?, t.Some?)
  }

  /**
   * FindQueueFamilyIndices. presentSupport[i] is what the surface-support
   * query answers for family i; the loop stops once all three roles are found.
   */
  method FindQueueFamilyIndices(queueFlags: seq<bv32>, presentSupport: seq<bool>) returns (indices: QueueFamilyIndices)
    requires |presentSupport| == |queueFlags|
    requires |queueFlags| <= UINT32_MAX
    ensures indices == ExpectedQueueFamilies(queueFlags, presentSupport)
    ensures indices.graphicsFamilyFound == indices.presentFamilyFound
    ensures indices.graphicsFamilyIndex == indices.presentFamilyIndex
    ensures indices.graphicsFamilyFound ==> indices.graphicsFamilyIndex < |queueFlags|
    ensures !indices.graphicsFamilyFound ==> indices.graphicsFamilyIndex == UINT32_MAX
  {
    indices := NO_QUEUE_FAMILIES;
    var i := 0;
    while i < |queueFlags|
      invariant 0 <= i <= |queueFlags|
      invariant RoleSoFar(queueFlags, presentSupport, QUEUE_GRAPHICS_BIT, true, i, indices.graphicsFamilyFound, indices.graphicsFamilyIndex)
      invariant RoleSoFar(queueFlags, presentSupport, QUEUE_COMPUTE_BIT, false, i, indices.computeFamilyFound, indices.computeFamilyIndex)
      invariant RoleSoFar(queueFlags, presentSupport, QUEUE_TRANSFER_BIT, false, i, indices.transferFamilyFound, indices.transferFamilyIndex)
      invariant indices.presentFamilyFound == indices.graphicsFamilyFound
      invariant indices.presentFamilyIndex == indices.graphicsFamilyIndex
    {
      var flags := queueFlags[i];
      ghost var before := indices;
      if !indices.graphicsFamilyFound && HasBit(flags, QUEUE_GRAPHICS_BIT) {
        if presentSupport[i] {
          indices := indices.(graphicsFamilyIndex := i, presentFamilyIndex := i,
                              graphicsFamilyFound := true, presentFamilyFound := true);
        }
      }
      RoleStep(queueFlags, presentSupport, QUEUE_GRAPHICS_BIT, true, i, before.graphicsFamilyFound,
        before.graphicsFamilyIndex, indices.graphicsFamilyFound, indices.graphicsFamilyIndex);
      if !indices.computeFamilyFound && HasBit(flags, QUEUE_COMPUTE_BIT) {
        indices := indices.(computeFamilyIndex := i, computeFamilyFound := true);
      }
      RoleStep(queueFlags, presentSupport, QUEUE_COMPUTE_BIT, false, i, before.computeFamilyFound,
        before.computeFamilyIndex, indices.computeFamilyFound, indices.computeFamilyIndex);
      if !indices.transferFamilyFound && HasBit(flags, QUEUE_TRANSFER_BIT) {
        indices := indices.(transferFamilyIndex := i, transferFamilyFound := true);
      }
      RoleStep(queueFlags, presentSupport, QUEUE_TRANSFER_BIT, false, i, before.transferFamilyFound,
        before.transferFamilyIndex, indices.transferFamilyFound, indices.transferFamilyIndex);
      i := i + 1;
      if indices.graphicsFamilyFound && indices.computeFamilyFound && indices.transferFamilyFound {
        break;
      }
    }
    ScanComplete(queueFlags, presentSupport, i, indices);
  }

  /** The scan's result, once it has stopped (at the end, or early with every role found), is the expected selection. */
  lemma ScanComplete(queueFlags: seq<bv32>, presentSupport: seq<bool>, i: nat, indices: QueueFamilyIndices)
    requires |presentSupport| == |queueFlags| && i <= |queueFlags|
    requires RoleSoFar(queueFlags, presentSupport, QUEUE_GRAPHICS_BIT, true, i, indices.graphicsFamilyFound, indices.graphicsFamilyIndex)
    requires RoleSoFar(queueFlags, presentSupport, QUEUE_COMPUTE_BIT, false, i, indices.computeFamilyFound, indices.computeFamilyIndex)
    requires RoleSoFar(queueFlags, presentSupport, QUEUE_TRANSFER_BIT, false, i, indices.transferFamilyFound, indices.transferFamilyIndex)
    requires indices.presentFamilyFound == indices.graphicsFamilyFound
    requires indices.presentFamilyIndex == indices.graphicsFamilyIndex
    requires i == |queueFlags| || (indices.graphicsFamilyFound && indices.computeFamilyFound && indices.transferFamilyFound)
    ensures indices == ExpectedQueueFamilies(queueFlags, presentSupport)
  {
    RoleAfterScan(queueFlags, presentSupport, QUEUE_GRAPHICS_BIT, true, i,
      indices.graphicsFamilyFound, indices.graphicsFamilyIndex);
    RoleAfterScan(queueFlags, presentSupport, QUEUE_COMPUTE_BIT, false, i,
      indices.computeFamilyFound, indices.computeFamilyIndex);
    RoleAfterScan(queueFlags, presentSupport, QUEUE_TRANSFER_BIT, false, i,
      indices.transferFamilyFound, indices.transferFamilyIndex);
  }

  /** Whether family j qualifies for a role. */
  predicate Matches(queueFlags: seq<bv32>, presentSupport: seq<bool>, bit: bv32, needPresent: bool, j: nat)
    requires |presentSupport| == |queueFlags| && j < |queueFlags|
  {
    HasBit(queueFlags[j], bit) && (needPresent ==> presentSupport[j])
  }

  /** Extending the scanned prefix by one family: the first match stays, or family i becomes it. */
  lemma {:induction false} FirstFamilyExtend(queueFlags: seq<bv32>, presentSupport: seq<bool>, bit: bv32,
                                             needPresent: bool, i: nat)
    requires |presentSupport| == |queueFlags| && i < |queueFlags|
    ensures var before := FirstFamily(queueFlags[..i], presentSupport[..i], bit, needPresent);
      FirstFamily(queueFlags[..i + 1], presentSupport[..i + 1], bit, needPresent) ==
        if before.Some? then before
        else if Matches(queueFlags, presentSupport, bit, needPresent, i) then Some(i) else None
  {
    var before := FirstFamily(queueFlags[..i], presentSupport[..i], bit, needPresent);
    var after := FirstFamily(queueFlags[..i + 1], presentSupport[..i + 1], bit, needPresent);
    assert forall j :: 0 <= j < i ==> queueFlags[..i + 1][j] == queueFlags[..i][j] && presentSupport[..i + 1][j] == presentSupport[..i][j];
    if before.Some? {
      assert after.Some?;
      assert !(after.value < before.value);
      assert !(before.value < after.value);
    } else if after.Some? {
      assert after.value == i;
    }
  }

  /** One iteration for one role: take family i if the role is still open and i qualifies. */
  lemma RoleStep(queueFlags: seq<bv32>, presentSupport: seq<bool>, bit: bv32, needPresent: bool,
                 i: nat, found: bool, index: nat, found': bool, index': nat)
    requires |presentSupport| == |queueFlags| && i < |queueFlags|
    requires RoleSoFar(queueFlags, presentSupport, bit, needPresent, i, found, index)
    requires var m := Matches(queueFlags, presentSupport, bit, needPresent, i);
      found' == (found || m) && index' == (if !found && m then i else index)
    ensures RoleSoFar(queueFlags, presentSupport, bit, needPresent, i + 1, found', index')
  {
    FirstFamilyExtend(queueFlags, presentSupport, bit, needPresent, i);
  }

  /** After scanning families 0..i-1 a role holds the first match among them, or nothing. */
  ghost predicate RoleSoFar(queueFlags: seq<bv32>, presentSupport: seq<bool>, bit: bv32, needPresent: bool,
                            i: nat, found: bool, index: nat)
    requires |presentSupport| == |queueFlags| && i <= |queueFlags|
  {
    var r := FirstFamily(queueFlags[..i], presentSupport[..i], bit, needPresent);
    found == r.Some? && index == (if r.Some? then r.value else UINT32_MAX)
  }

  /**
   * Once the scan has stopped (at the end, or early with the role found),
   * the role's state is what the first-match function says of all families.
   */
  lemma RoleAfterScan(queueFlags: seq<bv32>, presentSupport: seq<bool>, bit: bv32, needPresent: bool,
                      i: nat, found: bool, index: nat)
    requires |presentSupport| == |queueFlags| && i <= |queueFlags|
    requires RoleSoFar(queueFlags, presentSupport, bit, needPresent, i, found, index)
    requires i == |queueFlags| || found
    ensures var r := FirstFamily(queueFlags, presentSupport, bit, needPresent);
      found == r.Some? && index == (if r.Some? then r.value else UINT32_MAX)
  {
    var pre := FirstFamily(queueFlags[..i], presentSupport[..i], bit, needPresent);
    var r := FirstFamily(queueFlags, presentSupport, bit, needPresent);
    if i == |queueFlags| {
      assert queueFlags[..i] == queueFlags && presentSupport[..i] == presentSupport;
    } else {
      assert forall j :: 0 <= j < i ==> queueFlags[..i][j] == queueFlags[j] && presentSupport[..i][j] == presentSupport[j];
      assert r.Some?;
      assert !(r.value < pre.value);
      assert !(pre.value < r.value);
    }
  }

  /**
   * When the first graphics family can present, FindQueueFamilyIndices finds
   * a complete graphics/present pair: the minimal-support check is enough
   * for the device constructor's graphics queue.
   */
  lemma MinimalSupportGivesGraphics(queueFlags: seq<bv32>, presentSupport: seq<bool>)
    requires |presentSupport| == |queueFlags|
    requires MinimalSupport(queueFlags, presentSupport)
    ensures ExpectedQueueFamilies(queueFlags, presentSupport).IsGraphicsComplete()
  {
  }

  /** Specification of CheckQueueFamilyMinimalSupport: the first graphics family can present. */
  ghost predicate MinimalSupport(queueFlags: seq<bv32>, presentSupport: seq<bool>)
    requires |presentSupport| == |queueFlags|
  {
    var g := FirstFamily(queueFlags, presentSupport, QUEUE_GRAPHICS_BIT, false);
    g.Some? && presentSupport[g.value]
  }

  /**
   * CheckQueueFamilyMinimalSupport: skip families without the graphics bit;
   * the first graphics family decides, by whether it can present; false if
   * there is none.
   */
  method CheckQueueFamilyMinimalSupport(queueFlags: seq<bv32>, presentSupport: seq<bool>) returns (ok: bool)
    requires |presentSupport| == |queueFlags|
    ensures ok <==> MinimalSupport(queueFlags, presentSupport)
    ensures ok ==> exists i :: 0 <= i < |queueFlags| && HasBit(queueFlags[i], QUEUE_GRAPHICS_BIT) && presentSupport[i]
  {
    var i := 0;
    while i < |queueFlags|
      invariant 0 <= i <= |queueFlags|
      invariant forall j :: 0 <= j < i ==> !HasBit(queueFlags[j], QUEUE_GRAPHICS_BIT)
    {
      if !HasBit(queueFlags[i], QUEUE_GRAPHICS_BIT) {
        i := i + 1;
        continue;
      }
      ok := presentSupport[i];
      FirstFamilyIs(queueFlags, presentSupport, QUEUE_GRAPHICS_BIT, i);
      return;
    }
    ok := false;
  }

  /** A family with the bit preceded by none is the first-match result (present not required). */
  lemma FirstFamilyIs(queueFlags: seq<bv32>, presentSupport: seq<bool>, bit: bv32, i: nat)
    requires |presentSupport| == |queueFlags| && i < |queueFlags|
    requires HasBit(queueFlags[i], bit)
    requires forall j :: 0 <= j < i ==> !HasBit(queueFlags[j], bit)
    ensures FirstFamily(queueFlags, presentSupport, bit, false) == Some(i)
  {
    var r := FirstFamily(queueFlags, presentSupport, bit, false);
    assert r.Some?;
    assert !(r.value < i);
  }

  /**
   * CheckExtensionSupport: erase every available name from the required set;
   * the device qualifies when nothing is left.
   */
  method CheckExtensionSupport(availableExtensions: seq<string>, requiredExtensions: set<string>) returns (ok: bool)
    ensures ok <==> forall e :: e in requiredExtensions ==> e in availableExtensions
  {
    var missing := requiredExtensions;
    var i := 0;
    while i < |availableExtensions|
      invariant 0 <= i <= |availableExtensions|
      invariant forall e :: e in missing <==> e in requiredExtensions && e !in availableExtensions[..i]
    {
      assert availableExtensions[..i + 1] == availableExtensions[..i] + [availableExtensions[i]];
      missing := missing - {availableExtensions[i]};
      i := i + 1;
    }
    assert availableExtensions[..i] == availableExtensions;
    ok := missing == {};
    if !ok {
      var e :| e in missing;
    }
  }

  /** A memory heap: its flags and its size in bytes. */
  datatype MemoryHeap = MemoryHeap(flags: bv32, size: nat)

  /** size_t holds values below 2^64; adding past it wraps around. */
  const SIZE_T_MODULUS: nat := 0x1_0000_0000_0000_0000
  const MIB: nat := 1024 * 1024

  /** Exact total size of the device-local heaps. */
  function DeviceLocalBytes(heaps: seq<MemoryHeap>): nat
  {
    if heaps == [] then 0
    else
      var last := heaps[|heaps| - 1];
      DeviceLocalBytes(heaps[..|heaps| - 1]) + (if HasBit(last.flags, MEMORY_HEAP_DEVICE_LOCAL_BIT) then last.size else 0)
  }

  /** The same sum accumulated in a size_t, wrapping at 2^64 after each addition. */
  function DeviceLocalBytesWrapped(heaps: seq<MemoryHeap>): nat
  {
    if heaps == [] then 0
    else
      var last := heaps[|heaps| - 1];
      var acc := DeviceLocalBytesWrapped(heaps[..|heaps| - 1]);
      if HasBit(last.flags, MEMORY_HEAP_DEVICE_LOCAL_BIT) then (acc + last.size) % SIZE_T_MODULUS else acc
  }

  /**
   * GetDeviceVRAM_MB: the device-local heap sizes summed in a size_t, then
   * divided by 1 MiB (rounding down).
   */
  method GetDeviceVRAM_MB(heaps: seq<MemoryHeap>) returns (mb: nat)
    ensures mb == DeviceLocalBytesWrapped(heaps) / MIB
    ensures DeviceLocalBytes(heaps) < SIZE_T_MODULUS ==>
      mb * MIB <= DeviceLocalBytes(heaps) < (mb + 1) * MIB
  {
    var vramBytes: nat := 0;
    var i := 0;
    while i < |heaps|
      invariant 0 <= i <= |heaps|
      invariant vramBytes == DeviceLocalBytesWrapped(heaps[..i])
    {
      assert heaps[..i + 1][..i] == heaps[..i];
      if HasBit(heaps[i].flags, MEMORY_HEAP_DEVICE_LOCAL_BIT) {
        vramBytes := (vramBytes + heaps[i].size) % SIZE_T_MODULUS;
      }
      i := i + 1;
    }
    assert heaps[..i] == heaps;
    mb := vramBytes / MIB;
    if DeviceLocalBytes(heaps) < SIZE_T_MODULUS {
      NoWrapBelowModulus(heaps);
    }
  }

  /** When the exact total fits in a size_t, no addition wrapped. */
  lemma {:induction false} NoWrapBelowModulus(heaps: seq<MemoryHeap>)
    requires DeviceLocalBytes(heaps) < SIZE_T_MODULUS
    ensures DeviceLocalBytesWrapped(heaps) == DeviceLocalBytes(heaps)
  {
    if heaps != [] {
      NoWrapBelowModulus(heaps[..|heaps| - 1]);
    }
  }

  /** Heaps without the device-local flag do not count, wherever they are. */
  lemma DeviceLocalBytesIgnoresHostHeaps(heaps: seq<MemoryHeap>, host: MemoryHeap)
    requires !HasBit(host.flags, MEMORY_HEAP_DEVICE_LOCAL_BIT)
    ensures DeviceLocalBytes(heaps + [host]) == DeviceLocalBytes(heaps)
    ensures DeviceLocalBytes([host] + heaps) == DeviceLocalBytes(heaps)
  {
    assert (heaps + [host])[..|heaps|] == heaps;
    HostHeapFirst(heaps, host);
  }

  lemma {:induction false} HostHeapFirst(heaps: seq<MemoryHeap>, host: MemoryHeap)
    requires !HasBit(host.flags, MEMORY_HEAP_DEVICE_LOCAL_BIT)
    ensures DeviceLocalBytes([host] + heaps) == DeviceLocalBytes(heaps)
  {
    if heaps == [] {
      assert [host] + heaps == [host];
      assert [host][..0] == [];
    } else {
      var init := heaps[..|heaps| - 1];
      HostHeapFirst(init, host);
      var whole := [host] + heaps;
      assert whole[..|whole| - 1] == [host] + init;
      assert whole[|whole| - 1] == heaps[|heaps| - 1];
    }
  }
}
