// DescriptorLayoutCache: one VkDescriptorSetLayout per distinct list of
// bindings. A request is sorted by binding number, looked up, and only on a
// miss created and stored.

module DescriptorLayoutCache {
  import opened Vk

  /** uint32_t, and the values of VkDescriptorType. */
  newtype u32 = x: int | 0 <= x < 0x1_0000_0000

  /** VkDescriptorSetLayoutBinding; pImmutableSamplers is the sampler list. */
  datatype LayoutBinding = LayoutBinding(binding: u32, descriptorType: u32, descriptorCount: u32,
                                         stageFlags: u32, immutableSamplers: seq<Handle>)

  /** The four fields LayoutInfo's equality and hash look at. */
  datatype BindingKey = BindingKey(binding: u32, descriptorType: u32, descriptorCount: u32, stageFlags: u32)

  function Key(b: LayoutBinding): BindingKey
  {
    BindingKey(b.binding, b.descriptorType, b.descriptorCount, b.stageFlags)
  }

  function KeyOf(bs: seq<LayoutBinding>): (ks: seq<BindingKey>)
    ensures |ks| == |bs| && forall k :: 0 <= k < |bs| ==> ks[k] == Key(bs[k])
  {
    seq(|bs|, k requires 0 <= k < |bs| => Key(bs[k]))
  }

  // ---------------------------------------------------------------------
  // Sorting by binding number

  predicate Sorted(s: seq<LayoutBinding>)
  {
    forall i, j :: 0 <= i < j < |s| ==> s[i].binding <= s[j].binding
  }

  /** No two bindings share a binding number. */
  predicate DistinctBindings(s: seq<LayoutBinding>)
  {
    forall i, j :: 0 <= i < j < |s| ==> s[i].binding != s[j].binding
  }

  /** `x` placed before the first binding with a number not below its own. */
  function Insert(x: LayoutBinding, s: seq<LayoutBinding>): (r: seq<LayoutBinding>)
    requires Sorted(s)
    ensures Sorted(r) && multiset(r) == multiset(s) + multiset{x}
    ensures |r| == |s| + 1 && (r[0] == x || (s != [] && r[0] == s[0]))
  {
    if s == [] || x.binding <= s[0].binding then
      ConsSorted(x, s);
      [x] + s
    else
      var t := Insert(x, s[1..]);
      assert s == [s[0]] + s[1..];
      ConsSorted(s[0], t);
      [s[0]] + t
  }

  lemma ConsSorted(h: LayoutBinding, t: seq<LayoutBinding>)
    requires Sorted(t) && (t == [] || h.binding <= t[0].binding)
    ensures Sorted([h] + t)
  {
  }

  /**
   * The bindings ordered by binding number, as createOrGetLayout's std::sort
   * leaves them (std::sort fixes no order among equal numbers; the lemmas
   * below need none).
   */
  function SortByBinding(s: seq<LayoutBinding>): (r: seq<LayoutBinding>)
    ensures Sorted(r) && multiset(r) == multiset(s)
  {
    if s == [] then []
    else
      assert s == [s[0]] + s[1..];
      Insert(s[0], SortByBinding(s[1..]))
  }

  /** Two sorted orderings of the same bindings, one without repeated numbers, are the same list. */
  lemma {:induction false} SortedPermutationsEqual(a: seq<LayoutBinding>, b: seq<LayoutBinding>)
    requires Sorted(a) && Sorted(b) && multiset(a) == multiset(b) && DistinctBindings(a)
    ensures a == b
    decreases |a|
  {
    if a != [] {
      SameHead(a, b);
      TailKeeps(a);
      TailKeeps(b);
      MultisetTail(a, b);
      SortedPermutationsEqual(a[1..], b[1..]);
      assert a == [a[0]] + a[1..] && b == [b[0]] + b[1..];
    }
  }

  /** Both orderings start with the binding of least number. */
  lemma SameHead(a: seq<LayoutBinding>, b: seq<LayoutBinding>)
    requires Sorted(a) && Sorted(b) && multiset(a) == multiset(b) && DistinctBindings(a) && a != []
    ensures b != [] && a[0] == b[0]
  {
    assert |b| == |multiset(b)| == |multiset(a)| == |a|;
    assert b[0] in multiset(a);
    var i :| 0 <= i < |a| && a[i] == b[0];
    assert a[0] in multiset(b);
    var j :| 0 <= j < |b| && b[j] == a[0];
    assert b[0].binding <= b[j].binding;
    assert a[0].binding <= a[i].binding;
  }

  lemma TailKeeps(a: seq<LayoutBinding>)
    requires a != []
    ensures Sorted(a) ==> Sorted(a[1..])
    ensures DistinctBindings(a) ==> DistinctBindings(a[1..])
  {
  }

  lemma MultisetTail(a: seq<LayoutBinding>, b: seq<LayoutBinding>)
    requires a != [] && b != [] && a[0] == b[0] && multiset(a) == multiset(b)
    ensures multiset(a[1..]) == multiset(b[1..])
  {
    assert a == [a[0]] + a[1..] && b == [b[0]] + b[1..];
    assert multiset(a[1..]) == multiset(a) - multiset{a[0]};
    assert multiset(b[1..]) == multiset(b) - multiset{b[0]};
  }

  /**
   * Permutations of a request whose binding numbers are distinct sort to the
   * same key, so they find the same cached layout.
   */
  lemma PermutationsShareKey(p: seq<LayoutBinding>, q: seq<LayoutBinding>)
    requires multiset(p) == multiset(q) && DistinctBindings(p)
    ensures SortByBinding(p) == SortByBinding(q)
    ensures KeyOf(SortByBinding(p)) == KeyOf(SortByBinding(q))
  {
    SortKeepsDistinct(p);
    SortedPermutationsEqual(SortByBinding(p), SortByBinding(q));
  }

  lemma SortKeepsDistinct(s: seq<LayoutBinding>)
    requires DistinctBindings(s)
    ensures DistinctBindings(SortByBinding(s))
  {
    var r := SortByBinding(s);
    forall i, j | 0 <= i < j < |r| ensures r[i].binding != r[j].binding {
      if r[i].binding == r[j].binding {
        SameBindingPositions(s, r, i, j);
      }
    }
  }

  /** Two places of a permutation with one binding number come from two places of the original. */
  lemma SameBindingPositions(s: seq<LayoutBinding>, r: seq<LayoutBinding>, i: nat, j: nat)
    requires multiset(r) == multiset(s) && i < j < |r| && r[i].binding == r[j].binding
    ensures exists a, b :: 0 <= a < b < |s| && s[a].binding == s[b].binding
  {
    if r[i] == r[j] {
      TwoPlacesCount(r, i, j);
      CountTwoPlaces(s, r[i]);
    } else {
      var x, y := r[i], r[j];
      assert x in multiset(s) && y in multiset(s);
      var a :| 0 <= a < |s| && s[a] == x;
      var b :| 0 <= b < |s| && s[b] == y;
      if a < b {
        assert s[a].binding == s[b].binding;
      } else {
        assert s[b].binding == s[a].binding;
      }
    }
  }

  /** A binding at two places occurs at least twice. */
  lemma TwoPlacesCount(r: seq<LayoutBinding>, i: nat, j: nat)
    requires i < j < |r| && r[i] == r[j]
    ensures multiset(r)[r[i]] >= 2
  {
    assert r == r[..j] + [r[j]] + r[j + 1..];
    assert r[i] in r[..j];
    assert multiset(r) == multiset(r[..j]) + multiset{r[j]} + multiset(r[j + 1..]);
  }

  /** A binding occurring at least twice sits at two places. */
  lemma CountTwoPlaces(s: seq<LayoutBinding>, x: LayoutBinding)
    requires multiset(s)[x] >= 2
    ensures exists a, b :: 0 <= a < b < |s| && s[a] == x && s[b] == x
  {
    assert x in multiset(s);
    var a :| 0 <= a < |s| && s[a] == x;
    assert s == s[..a] + [s[a]] + s[a + 1..];
    assert multiset(s) == multiset(s[..a]) + multiset{s[a]} + multiset(s[a + 1..]);
    if x in s[..a] {
      var b :| 0 <= b < a && s[..a][b] == x;
      assert s[b] == x;
    } else {
      assert x in multiset(s[a + 1..]);
      var b :| 0 <= b < |s[a + 1..]| && s[a + 1..][b] == x;
      assert s[a + 1 + b] == x;
    }
  }

  // ---------------------------------------------------------------------
  // LayoutInfo equality and hash

  /** LayoutInfo::operator==: same length, and the four fields equal place by place. */
  method KeysEqual(a: seq<LayoutBinding>, b: seq<LayoutBinding>) returns (eq: bool)
    ensures eq <==> KeyOf(a) == KeyOf(b)
  {
    if |a| != |b| {
      return false;
    }
    for i := 0 to |a|
      invariant KeyOf(a)[..i] == KeyOf(b)[..i]
    {
      if a[i].binding != b[i].binding || a[i].descriptorType != b[i].descriptorType ||
         a[i].descriptorCount != b[i].descriptorCount || a[i].stageFlags != b[i].stageFlags {
        assert KeyOf(a)[i] != KeyOf(b)[i];
        return false;
      }
      assert KeyOf(a)[..i + 1] == KeyOf(a)[..i] + [Key(a[i])];
      assert KeyOf(b)[..i + 1] == KeyOf(b)[..i] + [Key(b[i])];
    }
    assert KeyOf(a) == KeyOf(a)[..|a|] && KeyOf(b) == KeyOf(b)[..|b|];
    return true;
  }

  /**
   * One binding's contribution to the hash, from its key. The shifts and
   * XORs are done in 32-bit arithmetic: binding, descriptorCount and
   * stageFlags are uint32_t, and descriptorType (the enum VkDescriptorType)
   * promotes to int, whose shift is taken to wrap in two's complement. Bits
   * shifted past bit 31 are lost before the value is widened to size_t;
   * std::hash<size_t> is the identity.
   */
  function BindingHash(k: BindingKey): bv64
  {
    ((k.binding as bv32) ^ ((k.descriptorType as bv32) << 8) ^
     ((k.descriptorCount as bv32) << 16) ^ ((k.stageFlags as bv32) << 24)) as bv64
  }

  /** `acc` XORed, binding by binding from the front, with each contribution. */
  function XorFold(acc: bv64, bs: seq<LayoutBinding>): bv64
    decreases |bs|
  {
    if bs == [] then acc else XorFold(acc ^ BindingHash(Key(bs[0])), bs[1..])
  }

  /** size_t of the list's length. */
  function SizeT(n: nat): bv64
  {
    (n % 0x1_0000_0000_0000_0000) as bv64
  }

  /** The hash starts from the length and folds in every binding. */
  function LayoutHash(bs: seq<LayoutBinding>): bv64
  {
    XorFold(SizeT(|bs|), bs)
  }

  /** LayoutInfo::hash. */
  method Hash(bs: seq<LayoutBinding>) returns (h: bv64)
    ensures h == LayoutHash(bs)
  {
    h := SizeT(|bs|);
    for i := 0 to |bs|
      invariant XorFold(h, bs[i..]) == LayoutHash(bs)
    {
      assert bs[i..][1..] == bs[i + 1..];
      h := h ^ BindingHash(Key(bs[i]));
    }
  }

  /** The hash reads the length and, binding by binding, the four key fields. */
  predicate SameKeys(a: seq<LayoutBinding>, b: seq<LayoutBinding>)
  {
    |a| == |b| && forall k :: 0 <= k < |a| ==> Key(a[k]) == Key(b[k])
  }

  /** Equal LayoutInfos hash equally, as std::unordered_map requires. */
  lemma EqualKeysHashEqual(a: seq<LayoutBinding>, b: seq<LayoutBinding>)
    requires KeyOf(a) == KeyOf(b)
    ensures LayoutHash(a) == LayoutHash(b)
  {
    XorFoldReadsKeys(SizeT(|a|), a, b);
  }

  lemma {:induction false} XorFoldReadsKeys(acc: bv64, a: seq<LayoutBinding>, b: seq<LayoutBinding>)
    requires SameKeys(a, b)
    ensures XorFold(acc, a) == XorFold(acc, b)
    decreases |a|
  {
    if a != [] {
      assert Key(a[0]) == Key(b[0]);
      assert SameKeys(a[1..], b[1..]);
      XorFoldReadsKeys(acc ^ BindingHash(Key(a[0])), a[1..], b[1..]);
    }
  }

  // ---------------------------------------------------------------------
  // The cache

  /** The create info a miss passes to vkCreateDescriptorSetLayout. */
  datatype LayoutCreateInfo = LayoutCreateInfo(bindingCount: nat, bindings: seq<LayoutBinding>)

  /** The cache key of a request: its bindings sorted, seen through LayoutInfo's equality. */
  function RequestKey(bindings: seq<LayoutBinding>): seq<BindingKey>
  {
    KeyOf(SortByBinding(bindings))
  }

  /**
   * A miss stored under a request's key answers every later request equal
   * to it after sorting: here, every permutation of it when its binding
   * numbers are distinct, whatever immutable samplers they carry.
   */
  lemma NextEqualRequestHits(cache: map<seq<BindingKey>, Handle>, p: seq<LayoutBinding>, q: seq<LayoutBinding>, layout: Handle)
    requires multiset(p) == multiset(q) && DistinctBindings(p)
    ensures var c := cache[RequestKey(p) := layout];
            RequestKey(q) in c && c[RequestKey(q)] == layout
  {
    PermutationsShareKey(p, q);
  }

  class DescriptorLayoutCache {
    var cache: map<seq<BindingKey>, Handle>
    /** The layouts vkCreateDescriptorSetLayout has made, in order. */
    var created: seq<LayoutCreateInfo>

    constructor ()
      ensures cache == map[] && created == []
    {
      cache := map[];
      created := [];
    }

    /**
     * createOrGetLayout: sort, look up, and on a miss create (VK_CHECKed)
     * and store. `createResult` and `handle` are the driver's answer.
     */
    method CreateOrGetLayout(bindings: seq<LayoutBinding>, createResult: VkResult, handle: Handle)
      returns (r: Result<Handle>)
      modifies this`cache, this`created
      ensures var key := RequestKey(bindings);
              if key in old(cache) then
                r == Ok(old(cache)[key]) && cache == old(cache) && created == old(created)
              else
                r == Checked(createResult, handle, "vkCreateDescriptorSetLayout") &&
                (r.Ok? ==> cache == old(cache)[key := handle] &&
                           created == old(created) + [LayoutCreateInfo(|bindings|, SortByBinding(bindings))]) &&
                (r.Err? ==> cache == old(cache) && created == old(created))
    {
      var sorted := SortByBinding(bindings);
      var key := KeyOf(sorted);
      if key in cache {
        return Ok(cache[key]);
      }
      r := Checked(createResult, handle, "vkCreateDescriptorSetLayout");
      if r.Ok? {
        created := created + [LayoutCreateInfo(|sorted|, sorted)];
        cache := cache[key := r.value];
      }
    }

    /** destroyAll: every cached layout is destroyed once, and the cache is emptied. */
    method DestroyAll() returns (destroyed: seq<Handle>)
      modifies this`cache
      ensures cache == map[]
      ensures |destroyed| == |old(cache)|
      ensures forall key :: key in old(cache) ==> old(cache)[key] in destroyed
      ensures forall h :: h in destroyed ==> h in old(cache).Values
    {
      var remaining := cache.Keys;
      ghost var visited: set<seq<BindingKey>> := {};
      destroyed := [];
      while remaining != {}
        invariant remaining + visited == cache.Keys && remaining !! visited
        invariant |destroyed| == |visited|
        invariant forall key :: key in visited ==> cache[key] in destroyed
        invariant forall h :: h in destroyed ==> h in cache.Values
        decreases |remaining|
      {
        var key :| key in remaining;
        destroyed := destroyed + [cache[key]];
        remaining := remaining - {key};
        visited := visited + {key};
      }
      assert visited == cache.Keys;
      cache := map[];
    }
  }
}
