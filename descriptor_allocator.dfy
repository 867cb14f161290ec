// DescriptorAllocator: descriptor sets come from a current pool; a pool
// that runs out is replaced once, used pools are recycled by reset, most
// recently freed first.

module DescriptorAllocator {
  import opened Vk

  /** VkDescriptorPoolSize. */
  datatype PoolSize = PoolSize(descriptorType: nat, descriptorCount: nat)

  const FREE_DESCRIPTOR_SET_BIT: bv32 := 0x1
  /** The maxSets of every pool grabPool creates. */
  const DEFAULT_SET_COUNT: nat := 128

  /** VkDescriptorPoolCreateInfo as createPool fills it. */
  datatype PoolCreateInfo = PoolCreateInfo(flags: bv32, maxSets: nat, poolSizes: seq<PoolSize>)

  /** The driver's answer to one vkCreateDescriptorPool. */
  datatype PoolAnswer = PoolAnswer(result: VkResult, pool: Handle)

  /** The allocator's pool bookkeeping, and the pools it has created so far. */
  datatype PoolState = PoolState(used: seq<Handle>, free: seq<Handle>, current: Handle, created: seq<PoolCreateInfo>)

  const EMPTY_POOLS: PoolState := PoolState([], [], NULL_HANDLE, [])

  predicate Distinct(s: seq<Handle>)
  {
    forall i, j :: 0 <= i < j < |s| ==> s[i] != s[j]
  }

  /**
   * The bookkeeping invariant: no null pool, no pool twice, no pool both
   * used and free, a non-null current pool among the used ones, and every
   * created pool made for DEFAULT_SET_COUNT sets.
   */
  predicate PoolsValid(s: PoolState)
  {
    NULL_HANDLE !in s.used && NULL_HANDLE !in s.free &&
    Distinct(s.used) && Distinct(s.free) &&
    (forall h :: h in s.used ==> h !in s.free) &&
    (s.current != NULL_HANDLE ==> s.current in s.used) &&
    (forall c :: c in s.created ==> c.maxSets == DEFAULT_SET_COUNT && c.flags == FREE_DESCRIPTOR_SET_BIT)
  }

  /** A pool handle the driver may hand out: new to the allocator. */
  predicate FreshPool(s: PoolState, ans: PoolAnswer)
  {
    ans.pool != NULL_HANDLE && ans.pool !in s.used && ans.pool !in s.free
  }

  /**
   * grabPool: the most recently freed pool if there is one, else a new pool
   * of DEFAULT_SET_COUNT sets (VK_CHECKed: a failed create is the error).
   */
  function Grab(s: PoolState, sizes: seq<PoolSize>, ans: PoolAnswer): (Result<Handle>, PoolState)
  {
    if s.free != [] then (Ok(s.free[|s.free| - 1]), s.(free := s.free[..|s.free| - 1]))
    else
      var r := Checked(ans.result, ans.pool, "vkCreateDescriptorPool");
      if r.Ok? then (r, s.(created := s.created + [PoolCreateInfo(FREE_DESCRIPTOR_SET_BIT, DEFAULT_SET_COUNT, sizes)]))
      else (r, s)
  }

  /** `currentPool_ = grabPool(); usedPools_.push_back(currentPool_);` */
  function GrabAndUse(s: PoolState, sizes: seq<PoolSize>, ans: PoolAnswer): (Result<Handle>, PoolState)
  {
    var g := Grab(s, sizes, ans);
    if g.0.Ok? then (g.0, g.1.(used := g.1.used + [g.0.value], current := g.0.value)) else g
  }

  predicate NeedsRetry(result: VkResult)
  {
    result == ErrorFragmentedPool || result == ErrorOutOfPoolMemory
  }

  /**
   * What one allocate does: the outcome (the driver's result, or the
   * exception from a failed pool create), the new bookkeeping, and the pool
   * each vkAllocateDescriptorSets call used. `first` and `retry` are the
   * driver's results for the first and second attempt; `ans1` answers a
   * create for the initial grab, `ans2` for the retry's grab.
   */
  datatype Allocation = Allocation(outcome: Result<VkResult>, state: PoolState, attempts: seq<Handle>)

  /** The first half of allocate: grab a pool if none is current. */
  function Start(s: PoolState, sizes: seq<PoolSize>, ans: PoolAnswer): (Result<Handle>, PoolState)
  {
    if s.current == NULL_HANDLE then GrabAndUse(s, sizes, ans) else (Ok(s.current), s)
  }

  /** The second half: try the current pool, and once more on a fresh one if it ran out. */
  function Attempt(s: PoolState, sizes: seq<PoolSize>, first: VkResult, retry: VkResult, ans: PoolAnswer): Allocation
  {
    if first == Success then Allocation(Ok(Success), s, [s.current])
    else if NeedsRetry(first) then
      var g := GrabAndUse(s, sizes, ans);
      if g.0.Err? then Allocation(Err(g.0.message), g.1, [s.current])
      else Allocation(Ok(retry), g.1, [s.current, g.1.current])
    else Allocation(Ok(first), s, [s.current])
  }

  function AllocateSpec(s: PoolState, sizes: seq<PoolSize>, first: VkResult, retry: VkResult,
                        ans1: PoolAnswer, ans2: PoolAnswer): Allocation
  {
    var st := Start(s, sizes, ans1);
    if st.0.Err? then Allocation(Err(st.0.message), st.1, [])
    else Attempt(st.1, sizes, first, retry, ans2)
  }

  /** reset: every used pool goes, in order, onto the free list; nothing is current. */
  function ResetSpec(s: PoolState): PoolState
  {
    s.(used := [], free := s.free + s.used, current := NULL_HANDLE)
  }

  /** destroyAll: no pools left. */
  function DestroySpec(s: PoolState): PoolState
  {
    s.(used := [], free := [], current := NULL_HANDLE)
  }

  // ---------------------------------------------------------------------
  // Properties

  lemma DistinctAppend(s: seq<Handle>, h: Handle)
    requires Distinct(s) && h !in s
    ensures Distinct(s + [h])
  {
  }

  lemma DistinctPrefix(s: seq<Handle>, n: nat)
    requires Distinct(s) && n <= |s|
    ensures Distinct(s[..n])
  {
  }

  /**
   * A grab keeps the invariant, and the pool it hands out is neither used
   * nor free any more. It is the most recently freed pool whenever one is
   * free, without a create; only with no free pool is the driver asked for
   * a new one.
   */
  lemma GrabValid(s: PoolState, sizes: seq<PoolSize>, ans: PoolAnswer)
    requires PoolsValid(s) && FreshPool(s, ans)
    ensures var g := Grab(s, sizes, ans); var r := g.0; var s1 := g.1;
            PoolsValid(s1) && s1.used == s.used && s1.current == s.current &&
            (r.Ok? ==> r.value != NULL_HANDLE && r.value !in s1.used && r.value !in s1.free) &&
            (s.free != [] ==> r == Ok(s.free[|s.free| - 1]) && s1.free == s.free[..|s.free| - 1] &&
                              s1.created == s.created) &&
            (s.free == [] ==> s1.free == [] && (r.Ok? <==> ans.result == Success) &&
                              (r.Ok? ==> r.value == ans.pool)) &&
            (r.Ok? ==> |s1.free| + 1 == |s.free| + (|s1.created| - |s.created|)) &&
            |s.created| <= |s1.created| <= |s.created| + 1 &&
            (r.Err? ==> s1 == s)
  {
    if s.free != [] {
      var n := |s.free| - 1;
      assert s.free == s.free[..n] + [s.free[n]];
      DistinctPrefix(s.free, n);
    }
  }

  lemma GrabAndUseValid(s: PoolState, sizes: seq<PoolSize>, ans: PoolAnswer)
    requires PoolsValid(s) && FreshPool(s, ans)
    ensures var g := GrabAndUse(s, sizes, ans); var r := g.0; var s1 := g.1;
            PoolsValid(s1) &&
            (r.Ok? ==> s1.current == r.value && s1.used == s.used + [r.value]) &&
            (r.Err? ==> s1 == s) &&
            |s1.used| + |s1.free| == |s.used| + |s.free| + (|s1.created| - |s.created|) &&
            |s1.created| >= |s.created|
  {
    GrabValid(s, sizes, ans);
    var g := Grab(s, sizes, ans);
    if g.0.Ok? {
      DistinctAppend(g.1.used, g.0.value);
    }
  }

  /** Grabbing when no pool is current keeps the invariant and makes a pool current. */
  lemma StartValid(s: PoolState, sizes: seq<PoolSize>, ans: PoolAnswer)
    requires PoolsValid(s) && FreshPool(s, ans)
    ensures var st := Start(s, sizes, ans);
            PoolsValid(st.1) &&
            (st.0.Ok? ==> st.1.current != NULL_HANDLE && st.0.value == st.1.current) &&
            (st.0.Err? ==> st.1 == s) &&
            st.1.used[..|s.used|] == s.used &&
            |st.1.used| == |s.used| + (if s.current == NULL_HANDLE && st.0.Ok? then 1 else 0) &&
            |st.1.used| + |st.1.free| == |s.used| + |s.free| + (|st.1.created| - |s.created|) &&
            |st.1.created| >= |s.created| &&
            (forall h :: h in st.1.used || h in st.1.free ==> h in s.used || h in s.free || h == ans.pool)
  {
    if s.current == NULL_HANDLE {
      GrabValid(s, sizes, ans);
      GrabAndUseValid(s, sizes, ans);
      var g := GrabAndUse(s, sizes, ans);
      if g.0.Ok? {
        assert g.1.used[..|s.used|] == s.used;
      }
    }
  }

  /** A pool new to the allocator before the first grab is new to it after. */
  lemma StartKeepsFresh(s: PoolState, sizes: seq<PoolSize>, ans1: PoolAnswer, ans2: PoolAnswer)
    requires PoolsValid(s) && FreshPool(s, ans1) && FreshPool(s, ans2) && ans1.pool != ans2.pool
    ensures FreshPool(Start(s, sizes, ans1).1, ans2)
  {
    StartValid(s, sizes, ans1);
  }

  /** The retry's grab on a state with a current pool. */
  lemma AttemptValid(s: PoolState, sizes: seq<PoolSize>, first: VkResult, retry: VkResult, ans: PoolAnswer)
    requires PoolsValid(s) && FreshPool(s, ans) && s.current != NULL_HANDLE
    ensures var a := Attempt(s, sizes, first, retry, ans);
            PoolsValid(a.state) && a.state.current != NULL_HANDLE &&
            a.state.used[..|s.used|] == s.used &&
            |a.state.used| + |a.state.free| == |s.used| + |s.free| + (|a.state.created| - |s.created|) &&
            (a.outcome.Ok? ==>
              |a.state.used| == |s.used| + (if NeedsRetry(first) then 1 else 0) &&
              a.outcome.value == (if NeedsRetry(first) then retry else first) &&
              |a.attempts| == (if NeedsRetry(first) then 2 else 1) &&
              a.attempts[0] == s.current && a.attempts[|a.attempts| - 1] == a.state.current &&
              (NeedsRetry(first) ==> a.attempts[0] != a.attempts[1]))
  {
    if first != Success && NeedsRetry(first) {
      GrabAndUseValid(s, sizes, ans);
      GrabValid(s, sizes, ans);
      var g := GrabAndUse(s, sizes, ans);
      if g.0.Ok? {
        assert g.1.used[..|s.used|] == s.used;
      }
    }
  }

  /**
   * The retry's grab is LIFO as well: with a pool free, the second attempt
   * runs on the most recently freed pool and no pool is created.
   */
  lemma RetryReusesLastFree(s: PoolState, sizes: seq<PoolSize>, first: VkResult, retry: VkResult, ans: PoolAnswer)
    requires NeedsRetry(first) && s.free != []
    ensures var a := Attempt(s, sizes, first, retry, ans);
            a.outcome == Ok(retry) && a.attempts == [s.current, s.free[|s.free| - 1]] &&
            a.state.current == s.free[|s.free| - 1] && a.state.free == s.free[..|s.free| - 1] &&
            a.state.created == s.created
  {
  }

  /**
   * allocate keeps the invariant when the driver hands out new pools; on
   * success a pool is current; every pool it holds was either held before
   * or created by it.
   */
  lemma AllocateValid(s: PoolState, sizes: seq<PoolSize>, first: VkResult, retry: VkResult,
                      ans1: PoolAnswer, ans2: PoolAnswer)
    requires PoolsValid(s) && FreshPool(s, ans1) && FreshPool(s, ans2) && ans1.pool != ans2.pool
    ensures var a := AllocateSpec(s, sizes, first, retry, ans1, ans2);
            PoolsValid(a.state) &&
            (a.outcome.Ok? ==> a.state.current != NULL_HANDLE) &&
            |a.state.used| + |a.state.free| == |s.used| + |s.free| + (|a.state.created| - |s.created|)
  {
    StartValid(s, sizes, ans1);
    var st := Start(s, sizes, ans1);
    if st.0.Ok? {
      StartKeepsFresh(s, sizes, ans1, ans2);
      AttemptValid(st.1, sizes, first, retry, ans2);
    }
  }

  /**
   * The first allocate after construction or reset grabs a pool; a
   * fragmented or exhausted pool makes it grab exactly one more and return
   * the second attempt's result, made on the new pool.
   */
  lemma AllocateGrabs(s: PoolState, sizes: seq<PoolSize>, first: VkResult, retry: VkResult,
                      ans1: PoolAnswer, ans2: PoolAnswer)
    requires PoolsValid(s) && FreshPool(s, ans1) && FreshPool(s, ans2) && ans1.pool != ans2.pool
    ensures var a := AllocateSpec(s, sizes, first, retry, ans1, ans2);
            a.outcome.Ok? ==>
              |a.state.used| == |s.used| + (if s.current == NULL_HANDLE then 1 else 0) + (if NeedsRetry(first) then 1 else 0) &&
              a.state.used[..|s.used|] == s.used &&
              a.outcome.value == (if NeedsRetry(first) then retry else first) &&
              |a.attempts| == (if NeedsRetry(first) then 2 else 1) &&
              a.attempts[|a.attempts| - 1] == a.state.current &&
              (NeedsRetry(first) ==> a.attempts[0] != a.attempts[1])
  {
    StartValid(s, sizes, ans1);
    var st := Start(s, sizes, ans1);
    if st.0.Ok? {
      StartKeepsFresh(s, sizes, ans1, ans2);
      AttemptValid(st.1, sizes, first, retry, ans2);
      var a := Attempt(st.1, sizes, first, retry, ans2);
      assert AllocateSpec(s, sizes, first, retry, ans1, ans2) == a;
      if a.outcome.Ok? {
        PrefixOfPrefix(a.state.used, st.1.used, s.used);
        ComposeCounts(|s.used|, |st.1.used|, |a.state.used|,
                      if s.current == NULL_HANDLE then 1 else 0, if NeedsRetry(first) then 1 else 0);
      }
    }
  }

  lemma ComposeCounts(n0: nat, n1: nat, n2: nat, k1: nat, k2: nat)
    requires n1 == n0 + k1 && n2 == n1 + k2
    ensures n2 == n0 + k1 + k2
  {
  }

  lemma PrefixOfPrefix(c: seq<Handle>, b: seq<Handle>, a: seq<Handle>)
    requires |b| <= |c| && c[..|b|] == b && |a| <= |b| && b[..|a|] == a
    ensures c[..|a|] == a
  {
    assert c[..|a|] == c[..|b|][..|a|];
  }

  /** Any other failure is returned as it is, without grabbing a pool. */
  lemma OtherFailureGrabsNothing(s: PoolState, sizes: seq<PoolSize>, first: VkResult, retry: VkResult,
                                 ans1: PoolAnswer, ans2: PoolAnswer)
    requires s.current != NULL_HANDLE && first != Success && !NeedsRetry(first)
    ensures AllocateSpec(s, sizes, first, retry, ans1, ans2) == Allocation(Ok(first), s, [s.current])
  {
  }

  /** reset keeps the invariant and the number of pools, and leaves no pool used or current. */
  lemma ResetValid(s: PoolState)
    requires PoolsValid(s)
    ensures PoolsValid(ResetSpec(s))
    ensures |ResetSpec(s).free| == |s.used| + |s.free| && ResetSpec(s).used == []
    ensures ResetSpec(s).current == NULL_HANDLE
  {
    var f := s.free + s.used;
    forall i, j | 0 <= i < j < |f| ensures f[i] != f[j] {
      if j < |s.free| {
      } else if i >= |s.free| {
        assert f[i] == s.used[i - |s.free|] && f[j] == s.used[j - |s.free|];
      } else {
        assert f[j] in s.used;
      }
    }
  }

  /**
   * After reset the next allocate starts on the pool that was used last
   * (grabPool is LIFO), without creating a pool for it.
   */
  lemma ResetThenAllocateReusesLastUsed(s: PoolState, sizes: seq<PoolSize>, first: VkResult, retry: VkResult,
                                        ans1: PoolAnswer, ans2: PoolAnswer)
    requires s.used != []
    ensures var a := AllocateSpec(ResetSpec(s), sizes, first, retry, ans1, ans2);
            a.attempts != [] && a.attempts[0] == s.used[|s.used| - 1]
    ensures Start(ResetSpec(s), sizes, ans1).1.created == s.created
  {
    var r := ResetSpec(s);
    var last := s.used[|s.used| - 1];
    assert r.free != [] && r.free[|r.free| - 1] == last;
    var g := Grab(r, sizes, ans1);
    assert g.0 == Ok(last) && g.1.created == s.created;
    var st := Start(r, sizes, ans1);
    assert st == GrabAndUse(r, sizes, ans1);
    assert st.0 == Ok(last) && st.1.current == last;
    AttemptStartsOnCurrent(st.1, sizes, first, retry, ans2);
  }

  /** Attempt's first try is always on the current pool. */
  lemma AttemptStartsOnCurrent(s: PoolState, sizes: seq<PoolSize>, first: VkResult, retry: VkResult, ans: PoolAnswer)
    ensures var a := Attempt(s, sizes, first, retry, ans);
            a.attempts != [] && a.attempts[0] == s.current
  {
  }

  /** destroyAll leaves nothing to destroy a second time. */
  lemma DestroyValid(s: PoolState)
    requires PoolsValid(s)
    ensures PoolsValid(DestroySpec(s)) && DestroySpec(DestroySpec(s)) == DestroySpec(s)
  {
  }

  // ---------------------------------------------------------------------
  // The allocator object

  /** reset's loop: each used pool, in order, onto the free list. */
  method MoveAll(free: seq<Handle>, used: seq<Handle>) returns (result: seq<Handle>)
    ensures result == free + used
  {
    result := free;
    for i := 0 to |used|
      invariant result == free + used[..i]
    {
      result := result + [used[i]];
      assert used[..i + 1] == used[..i] + [used[i]];
    }
    assert used[..|used|] == used;
  }

  class DescriptorAllocator {
    var poolSizes: seq<PoolSize>
    var usedPools: seq<Handle>
    var freePools: seq<Handle>
    var currentPool: Handle
    /** The pools vkCreateDescriptorPool has made, in order. */
    var created: seq<PoolCreateInfo>

    function State(): PoolState
      reads this`usedPools, this`freePools, this`currentPool, this`created
    {
      PoolState(usedPools, freePools, currentPool, created)
    }

    constructor ()
      ensures State() == EMPTY_POOLS && poolSizes == []
    {
      poolSizes := [];
      usedPools := [];
      freePools := [];
      currentPool := NULL_HANDLE;
      created := [];
    }

    /** setPoolSizes: the sizes later pools are created with. */
    method SetPoolSizes(sizes: seq<PoolSize>)
      modifies this`poolSizes
      ensures poolSizes == sizes
    {
      poolSizes := sizes;
    }

    /** createPool under VK_CHECK; `ans` is the driver's answer. */
    method CreatePool(maxSets: nat, ans: PoolAnswer) returns (r: Result<Handle>)
      modifies this`created
      ensures r == Checked(ans.result, ans.pool, "vkCreateDescriptorPool")
      ensures created == old(created) + (if r.Ok? then [PoolCreateInfo(FREE_DESCRIPTOR_SET_BIT, maxSets, poolSizes)] else [])
    {
      r := Checked(ans.result, ans.pool, "vkCreateDescriptorPool");
      if r.Ok? {
        created := created + [PoolCreateInfo(FREE_DESCRIPTOR_SET_BIT, maxSets, poolSizes)];
      }
    }

    /** grabPool. */
    method GrabPool(ans: PoolAnswer) returns (r: Result<Handle>)
      modifies this`freePools, this`created
      ensures r == Grab(old(State()), poolSizes, ans).0 && State() == Grab(old(State()), poolSizes, ans).1
    {
      if freePools != [] {
        r := Ok(freePools[|freePools| - 1]);
        freePools := freePools[..|freePools| - 1];
        return;
      }
      r := CreatePool(DEFAULT_SET_COUNT, ans);
    }

    /** `currentPool_ = grabPool(); usedPools_.push_back(currentPool_);` */
    method GrabAndUsePool(ans: PoolAnswer) returns (r: Result<Handle>)
      modifies this`freePools, this`created, this`usedPools, this`currentPool
      ensures r == GrabAndUse(old(State()), poolSizes, ans).0 && State() == GrabAndUse(old(State()), poolSizes, ans).1
    {
      r := GrabPool(ans);
      if r.Ok? {
        currentPool := r.value;
        usedPools := usedPools + [currentPool];
      }
    }

    /**
     * allocate: grab a pool if none is current, try the current pool, and on
     * a fragmented or exhausted pool grab one more and try once again.
     * `driverSet` is the handle the driver writes on success.
     */
    method Allocate(layout: Handle, first: VkResult, retry: VkResult, ans1: PoolAnswer, ans2: PoolAnswer, driverSet: Handle)
      returns (r: Result<VkResult>, outSet: Handle, ghost attempts: seq<Handle>)
      modifies this`freePools, this`created, this`usedPools, this`currentPool
      ensures Allocation(r, State(), attempts) == AllocateSpec(old(State()), poolSizes, first, retry, ans1, ans2)
      ensures outSet == if r == Ok(Success) then driverSet else NULL_HANDLE
    {
      var g := StartPool(ans1);
      if g.Err? {
        return Err(g.message), NULL_HANDLE, [];
      }
      r, outSet, attempts := TryAllocate(layout, first, retry, ans2, driverSet);
    }

    /** Grab a pool when none is current. */
    method StartPool(ans: PoolAnswer) returns (r: Result<Handle>)
      modifies this`freePools, this`created, this`usedPools, this`currentPool
      ensures r == Start(old(State()), poolSizes, ans).0 && State() == Start(old(State()), poolSizes, ans).1
    {
      if currentPool == NULL_HANDLE {
        r := GrabAndUsePool(ans);
      } else {
        r := Ok(currentPool);
      }
    }

    /** vkAllocateDescriptorSets on the current pool, and once more on a new pool if it ran out. */
    method TryAllocate(layout: Handle, first: VkResult, retry: VkResult, ans: PoolAnswer, driverSet: Handle)
      returns (r: Result<VkResult>, outSet: Handle, ghost attempts: seq<Handle>)
      modifies this`freePools, this`created, this`usedPools, this`currentPool
      ensures Allocation(r, State(), attempts) == Attempt(old(State()), poolSizes, first, retry, ans)
      ensures outSet == if r == Ok(Success) then driverSet else NULL_HANDLE
    {
      attempts := [currentPool];
      if first == Success {
        return Ok(Success), driverSet, attempts;
      }
      if NeedsRetry(first) {
        var g := GrabAndUsePool(ans);
        if g.Err? {
          return Err(g.message), NULL_HANDLE, attempts;
        }
        attempts := attempts + [currentPool];
        outSet := if retry == Success then driverSet else NULL_HANDLE;
        return Ok(retry), outSet, attempts;
      }
      return Ok(first), NULL_HANDLE, attempts;
    }

    /** reset: vkResetDescriptorPool on each used pool, which then becomes free. */
    method Reset() returns (resetPools: seq<Handle>)
      modifies this`usedPools, this`freePools, this`currentPool
      ensures resetPools == old(usedPools)
      ensures State() == ResetSpec(old(State()))
    {
      resetPools := usedPools;
      freePools := MoveAll(freePools, usedPools);
      usedPools := [];
      currentPool := NULL_HANDLE;
    }

    /** destroyAll (also the destructor): destroy every used, then every free pool. */
    method DestroyAll() returns (destroyed: seq<Handle>)
      modifies this`usedPools, this`freePools, this`currentPool
      ensures destroyed == old(usedPools) + old(freePools)
      ensures State() == DestroySpec(old(State()))
    {
      destroyed := usedPools + freePools;
      usedPools := [];
      freePools := [];
      currentPool := NULL_HANDLE;
    }
  }
}
