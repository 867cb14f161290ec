// DescriptorSetCache: descriptor sets remembered by the buffers and images
// they were written with. The cache does not own the sets.

module DescriptorSetCache {
  import opened Vk

  /** VkDescriptorBufferInfo. */
  datatype BufferInfo = BufferInfo(buffer: Handle, offset: nat, range: nat)

  /** VkDescriptorImageInfo; imageLayout is the VkImageLayout value. */
  datatype ImageInfo = ImageInfo(sampler: Handle, imageView: Handle, imageLayout: nat)

  /** DescriptorKey: every field of every info takes part in its equality. */
  datatype DescriptorKey = DescriptorKey(buffers: seq<BufferInfo>, images: seq<ImageInfo>)

  // ---------------------------------------------------------------------
  // DescriptorKey equality and hash

  /**
   * DescriptorKey::operator==: the sizes, then buffer, offset and range of
   * each buffer info, then imageView, imageLayout and sampler of each image
   * info. These are all the fields, so it is equality of keys.
   */
  method KeysEqual(a: DescriptorKey, b: DescriptorKey) returns (eq: bool)
    ensures eq <==> a == b
  {
    if |a.buffers| != |b.buffers| || |a.images| != |b.images| {
      return false;
    }
    for i := 0 to |a.buffers|
      invariant a.buffers[..i] == b.buffers[..i]
    {
      var x, y := a.buffers[i], b.buffers[i];
      if x.buffer != y.buffer || x.offset != y.offset || x.range != y.range {
        return false;
      }
      assert a.buffers[..i + 1] == a.buffers[..i] + [x];
      assert b.buffers[..i + 1] == b.buffers[..i] + [y];
    }
    for i := 0 to |a.images|
      invariant a.images[..i] == b.images[..i]
    {
      var x, y := a.images[i], b.images[i];
      if x.imageView != y.imageView || x.imageLayout != y.imageLayout || x.sampler != y.sampler {
        return false;
      }
      assert a.images[..i + 1] == a.images[..i] + [x];
      assert b.images[..i + 1] == b.images[..i] + [y];
    }
    assert a.buffers == a.buffers[..|a.buffers|] && b.buffers == b.buffers[..|b.buffers|];
    assert a.images == a.images[..|a.images|] && b.images == b.images[..|b.images|];
    return true;
  }

  /** std::hash of a handle, a VkDeviceSize or an enum value: the value as a size_t. */
  function SizeT(n: nat): bv64
  {
    (n % 0x1_0000_0000_0000_0000) as bv64
  }

  /** `h` after the three XORs for one buffer info. */
  function MixBuffer(h: bv64, b: BufferInfo): bv64
  {
    h ^ SizeT(b.buffer) ^ (SizeT(b.offset) << 1) ^ (SizeT(b.range) << 2)
  }

  /** `h` after the three XORs for one image info. */
  function MixImage(h: bv64, i: ImageInfo): bv64
  {
    h ^ SizeT(i.imageView) ^ (SizeT(i.imageLayout) << 1) ^ (SizeT(i.sampler) << 2)
  }

  function BufferFold(h: bv64, bs: seq<BufferInfo>): bv64
    decreases |bs|
  {
    if bs == [] then h else BufferFold(MixBuffer(h, bs[0]), bs[1..])
  }

  function ImageFold(h: bv64, ims: seq<ImageInfo>): bv64
    decreases |ims|
  {
    if ims == [] then h else ImageFold(MixImage(h, ims[0]), ims[1..])
  }

  /** The hash: from 0, every buffer info in order, then every image info. */
  function KeyHash(k: DescriptorKey): bv64
  {
    ImageFold(BufferFold(0, k.buffers), k.images)
  }

  /** DescriptorKey::hash. */
  method Hash(k: DescriptorKey) returns (h: bv64)
    ensures h == KeyHash(k)
  {
    h := HashBuffers(0, k.buffers);
    h := HashImages(h, k.images);
  }

  /** The loop over the buffer infos. */
  method HashBuffers(h0: bv64, bs: seq<BufferInfo>) returns (h: bv64)
    ensures h == BufferFold(h0, bs)
  {
    h := h0;
    for i := 0 to |bs|
      invariant BufferFold(h, bs[i..]) == BufferFold(h0, bs)
    {
      assert bs[i..][1..] == bs[i + 1..];
      h := MixBuffer(h, bs[i]);
    }
  }

  /** The loop over the image infos. */
  method HashImages(h0: bv64, ims: seq<ImageInfo>) returns (h: bv64)
    ensures h == ImageFold(h0, ims)
  {
    h := h0;
    for i := 0 to |ims|
      invariant ImageFold(h, ims[i..]) == ImageFold(h0, ims)
    {
      assert ims[i..][1..] == ims[i + 1..];
      h := MixImage(h, ims[i]);
    }
  }

  // ---------------------------------------------------------------------
  // The cache

  /** retrieve on a cache's contents: the stored set, or VK_NULL_HANDLE. */
  function Lookup(cache: map<DescriptorKey, Handle>, key: DescriptorKey): Handle
  {
    if key in cache then cache[key] else NULL_HANDLE
  }

  /** One store call. */
  datatype StoreCall = StoreCall(key: DescriptorKey, descriptorSet: Handle)

  /** The contents after a series of store calls on an empty cache. */
  function Replay(stores: seq<StoreCall>): map<DescriptorKey, Handle>
  {
    if stores == [] then map[]
    else
      var last := stores[|stores| - 1];
      Replay(stores[..|stores| - 1])[last.key := last.descriptorSet]
  }

  /** The key was stored at some point. */
  predicate Stored(stores: seq<StoreCall>, key: DescriptorKey)
  {
    exists k :: 0 <= k < |stores| && stores[k].key == key
  }

  /** retrieve after a series of stores: the set of the last store with an equal key. */
  lemma {:induction false} RetrieveLastStored(stores: seq<StoreCall>, key: DescriptorKey, k: nat)
    requires k < |stores| && stores[k].key == key
    requires forall m :: k < m < |stores| ==> stores[m].key != key
    ensures Lookup(Replay(stores), key) == stores[k].descriptorSet
    decreases |stores|
  {
    var n := |stores| - 1;
    if k < n {
      RetrieveLastStored(stores[..n], key, k);
    }
  }

  /** retrieve of a key that was never stored is VK_NULL_HANDLE. */
  lemma {:induction false} RetrieveNeverStored(stores: seq<StoreCall>, key: DescriptorKey)
    requires !Stored(stores, key)
    ensures Lookup(Replay(stores), key) == NULL_HANDLE
    decreases |stores|
  {
    if stores != [] {
      var n := |stores| - 1;
      assert !Stored(stores[..n], key) by {
        forall k | 0 <= k < n ensures stores[..n][k].key != key {
          assert stores[..n][k] == stores[k];
        }
      }
      RetrieveNeverStored(stores[..n], key);
    }
  }

  /** A store changes retrieve for its own key only, and a later store on that key overwrites it. */
  lemma StoreAffectsOnlyItsKey(cache: map<DescriptorKey, Handle>, key: DescriptorKey, descriptorSet: Handle, other: DescriptorKey, descriptorSet2: Handle)
    ensures Lookup(cache[key := descriptorSet], key) == descriptorSet
    ensures other != key ==> Lookup(cache[key := descriptorSet], other) == Lookup(cache, other)
    ensures Lookup(cache[key := descriptorSet][key := descriptorSet2], key) == descriptorSet2
  {
  }

  class DescriptorSetCache {
    var cache: map<DescriptorKey, Handle>

    constructor ()
      ensures cache == map[]
    {
      cache := map[];
    }

    /** store: the key now retrieves `descriptorSet`; every other key retrieves what it did. */
    method Store(key: DescriptorKey, descriptorSet: Handle)
      modifies this`cache
      ensures Retrieve(key) == descriptorSet
      ensures forall other :: other != key ==> Retrieve(other) == old(Lookup(cache, other))
      ensures cache == old(cache)[key := descriptorSet]
    {
      cache := cache[key := descriptorSet];
    }

    /** retrieve. */
    function Retrieve(key: DescriptorKey): (descriptorSet: Handle)
      reads this`cache
      ensures key !in cache ==> descriptorSet == NULL_HANDLE
    {
      Lookup(cache, key)
    }
  }
}
