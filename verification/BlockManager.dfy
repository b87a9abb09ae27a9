/** The block manager: paged KV blocks with reference counts, a free list and the prefix cache. */
module BlockManagerModule {
  import opened Types
  import opened Holdings
  import opened RadixTrie
  import opened RadixCacheModule
  import opened BlockAccounting
  import opened BlockSafety
  import opened AllocationOutcome

  lemma AddRefsStep(refs: seq<nat>, bs: seq<BlockId>, i: nat)
    requires i < |bs| && forall b | b in bs :: b < |refs|
    ensures var before := AddRefs(refs, bs[..i]);
      bs[i] < |before| && AddRefs(refs, bs[..i + 1]) == before[bs[i] := before[bs[i]] + 1]
  {
    assert bs[..i + 1] == bs[..i] + [bs[i]];
    assert bs[i] in bs;
    var before, after := AddRefs(refs, bs[..i]), AddRefs(refs, bs[..i + 1]);
    forall b | 0 <= b < |refs|
      ensures after[b] == before[bs[i] := before[bs[i]] + 1][b]
    {
      assert multiset(bs[..i + 1])[b] == multiset(bs[..i])[b] + if b == bs[i] then 1 else 0;
    }
  }

  /** The counts cover one decrement per listed block. */
  ghost predicate Affordable(refs: seq<nat>, bs: seq<BlockId>) {
    forall b: BlockId :: multiset(bs)[b] <= RefAt(refs, b)
  }

  lemma PrefixCounts(bs: seq<BlockId>, i: nat, b: BlockId)
    requires i < |bs|
    ensures multiset(bs[..i + 1])[b] == multiset(bs[..i])[b] + (if b == bs[i] then 1 else 0)
    ensures multiset(bs[..i + 1])[b] <= multiset(bs)[b]
  {
    assert bs[..i + 1] == bs[..i] + [bs[i]];
    assert bs == bs[..i + 1] + bs[i + 1..];
  }

  lemma SubRefsStep(refs: seq<nat>, bs: seq<BlockId>, i: nat)
    requires i < |bs| && Affordable(refs, bs)
    ensures var before := SubRefs(refs, bs[..i]);
      bs[i] < |before| && before[bs[i]] >= 1 && SubRefs(refs, bs[..i + 1]) == before[bs[i] := before[bs[i]] - 1]
  {
    PrefixCounts(bs, i, bs[i]);
    assert multiset(bs)[bs[i]] <= RefAt(refs, bs[i]);
    var before, after := SubRefs(refs, bs[..i]), SubRefs(refs, bs[..i + 1]);
    forall b: BlockId | b < |refs|
      ensures after[b] == before[bs[i] := before[bs[i]] - 1][b]
    {
      PrefixCounts(bs, i, b);
      assert multiset(bs)[b] <= RefAt(refs, b);
    }
  }

  lemma AddUndoesSub(refs: seq<nat>, bs: seq<BlockId>)
    requires Affordable(refs, bs)
    ensures AddRefs(SubRefs(refs, bs), bs) == refs
  {
    forall b: BlockId | b < |refs|
      ensures AddRefs(SubRefs(refs, bs), bs)[b] == refs[b]
    {
      assert multiset(bs)[b] <= RefAt(refs, b);
    }
  }

  lemma PrefixAffordable(refs: seq<nat>, bs: seq<BlockId>, i: nat)
    requires i < |bs| && Affordable(refs, bs)
    ensures forall b: BlockId :: multiset(bs[..i])[b] <= RefAt(refs, b)
    ensures multiset(bs[..i])[bs[i]] < RefAt(refs, bs[i])
  {
    hide RefAt;
    forall b: BlockId
      ensures multiset(bs[..i])[b] + (if b == bs[i] then 1 else 0) <= RefAt(refs, b)
    {
      PrefixCounts(bs, i, b);
      assert multiset(bs)[b] <= RefAt(refs, b);
    }
  }

  lemma ReleaseLast(pool: Pool, bs: seq<BlockId>, i: nat)
    requires i < |bs|
    ensures var before, b := Release(pool, bs[..i]), bs[i];
      var refs := SubRefs(before.refs, [b]);
      Release(pool, bs[..i + 1]) == Pool(refs, if RefAt(refs, b) == 0 then before.free + [b] else before.free)
  {
    var upTo := bs[..i + 1];
    assert upTo[..|upTo| - 1] == bs[..i] && upTo[|upTo| - 1] == bs[i];
  }

  lemma ReleaseStep(pool: Pool, bs: seq<BlockId>, i: nat)
    requires i < |bs| && FreeList(pool.refs, pool.free) && Affordable(pool.refs, bs)
    ensures var before, b := Release(pool, bs[..i]), bs[i];
      && b < |before.refs| && before.refs[b] >= 1
      && var refs := before.refs[b := before.refs[b] - 1];
        Release(pool, bs[..i + 1]) == Pool(refs, if refs[b] == 0 then before.free + [b] else before.free)
  {
    hide SubRefs, FreeList, Affordable, Release;
    PrefixAffordable(pool.refs, bs, i);
    ReleaseFacts(pool, bs[..i]);
    ReleaseLast(pool, bs, i);
    var before: Pool, b: BlockId := Release(pool, bs[..i]), bs[i];
    assert RefAt(before.refs, b) == RefAt(pool.refs, b) - multiset(bs[..i])[b];
    SubOne(before.refs, b);
  }

  lemma NoRefs(refs: seq<nat>)
    ensures AddRefs(refs, []) == refs && SubRefs(refs, []) == refs
  {
    var none: seq<BlockId> := [];
    assert multiset(none) == multiset{};
  }

  lemma PoppedStep(refs: seq<nat>, free: seq<BlockId>, i: nat)
    requires i < |free| && FreeList(refs, free)
    ensures var b := free[|free| - 1 - i];
      && b < |refs|
      && Popped(free, i + 1) == Popped(free, i) + [b]
      && SetOne(refs, Popped(free, i + 1)) == SetOne(refs, Popped(free, i))[b := 1]
      && free[..|free| - i - 1] == free[..|free| - i][..|free| - i - 1] && free[..|free| - i][|free| - i - 1] == b
  {
    assert free[|free| - 1 - i] in free;
  }

  /** What `AllocateWithPrefix` needs of its lookup: the blocks are real and each is counted. */
  lemma AllocationPins(m: Mem, prompt: seq<Token>)
    requires Sound(m)
    ensures forall b | b in HitBlocks(m, prompt) :: b < |m.refs|
    ensures Counted(Pin(m, prompt), multiset(HitBlocks(m, prompt)))
  {
    PinSound(m, prompt);
    WalkEnds(m.tree, prompt);
    PathBlocksHeld(m.tree, Hit(m, prompt));
    forall b | b in HitBlocks(m, prompt)
      ensures b < |m.refs|
    {
      assert Debt(m, multiset{}, b) >= 0;
      assert multiset(HitBlocks(m, prompt))[b] <= TreeBlocks(m.tree)[b];
    }
  }

  lemma EvictedAffordable(m: Mem, pins: multiset<BlockId>, ps: seq<Path>)
    requires Counted(m, pins) && EvictRun(m.tree, m.capacity, ps)
    ensures Evictable(m.tree, ps) && Affordable(m.refs, Freed(m.tree, ps))
  {
    EvictionFacts(m.tree, ps);
    forall b: BlockId
      ensures multiset(Freed(m.tree, ps))[b] <= RefAt(m.refs, b)
    {
      assert Debt(m, pins, b) >= 0;
      assert TreeBlocks(m.tree)[b] == TreeBlocks(Remaining(m.tree, ps))[b] + multiset(Freed(m.tree, ps))[b];
    }
  }

  lemma PinsAffordable(m: Mem, pinned: seq<BlockId>)
    requires Counted(m, multiset(pinned))
    ensures Affordable(m.refs, pinned)
  {
    forall b: BlockId
      ensures multiset(pinned)[b] <= RefAt(m.refs, b)
    {
      assert Debt(m, multiset(pinned), b) >= 0;
    }
  }

  lemma TableAffordable(m: Mem, id: RequestId)
    requires Sound(m) && id in m.table
    ensures Affordable(m.refs, m.table[id]) && forall b | b in m.table[id] :: b < |m.refs|
  {
    TotalRemove(m.table, id);
    forall b: BlockId
      ensures multiset(m.table[id])[b] <= RefAt(m.refs, b)
    {
      assert Debt(m, multiset{}, b) >= 0;
    }
    forall b | b in m.table[id]
      ensures b < |m.refs|
    {
      assert multiset(m.table[id])[b] <= RefAt(m.refs, b);
    }
  }

  class BlockManager {
    var blockSize: nat
    var freeGpuBlocks: seq<BlockId>
    var blockTable: map<RequestId, seq<BlockId>>
    const radixCache: RadixCache
    var promptTable: map<RequestId, seq<Token>>
    var refCounts: seq<nat>

    ghost function View(): Mem
      reads this, radixCache
    {
      Mem(blockSize, refCounts, freeGpuBlocks, blockTable, promptTable, radixCache.tree, radixCache.maxCapacity,
        radixCache.clock)
    }

    ghost predicate Valid()
      reads this, radixCache, radixCache.repr
    {
      radixCache.Valid() && Sound(View())
    }

    constructor (blockSize: nat, numGpuBlocks: nat)
      requires blockSize >= 1
      ensures Valid() && fresh(radixCache) && fresh(radixCache.repr)
      ensures View() == Initial(blockSize, numGpuBlocks)
    {
      var cacheCapacity := numGpuBlocks / 3;
      this.blockSize := blockSize;
      this.freeGpuBlocks := seq(numGpuBlocks, i => i);
      this.blockTable := map[];
      this.radixCache := new RadixCache(cacheCapacity);
      this.promptTable := map[];
      this.refCounts := seq(numGpuBlocks, _ => 0);
      new;
      InitialSound(blockSize, numGpuBlocks);
    }

    /** One more reference to every listed block. */
    method Retain(blocks: seq<BlockId>)
      requires forall b | b in blocks :: b < |refCounts|
      modifies this`refCounts
      ensures refCounts == AddRefs(old(refCounts), blocks)
    {
      NoRefs(refCounts);
      for i := 0 to |blocks|
        invariant refCounts == AddRefs(old(refCounts), blocks[..i])
      {
        AddRefsStep(old(refCounts), blocks, i);
        refCounts := refCounts[blocks[i] := refCounts[blocks[i]] + 1];
      }
      assert blocks[..|blocks|] == blocks;
    }

    /** One reference less to every listed block; no count underflows. */
    method Drop(blocks: seq<BlockId>)
      requires Affordable(refCounts, blocks)
      modifies this`refCounts
      ensures refCounts == SubRefs(old(refCounts), blocks)
    {
      NoRefs(refCounts);
      for i := 0 to |blocks|
        invariant refCounts == SubRefs(old(refCounts), blocks[..i])
      {
        SubRefsStep(old(refCounts), blocks, i);
        refCounts := refCounts[blocks[i] := refCounts[blocks[i]] - 1];
      }
      assert blocks[..|blocks|] == blocks;
    }

    /** One reference less to every evicted block; those nobody references become free. */
    method ReleaseEvicted(evicted: seq<BlockId>)
      requires FreeList(refCounts, freeGpuBlocks) && Affordable(refCounts, evicted)
      modifies this`refCounts, this`freeGpuBlocks
      ensures Pool(refCounts, freeGpuBlocks) == Release(old(Pool(refCounts, freeGpuBlocks)), evicted)
    {
      ghost var pool := Pool(refCounts, freeGpuBlocks);
      for i := 0 to |evicted|
        invariant Pool(refCounts, freeGpuBlocks) == Release(pool, evicted[..i])
      {
        var block := evicted[i];
        ReleaseStep(pool, evicted, i);
        refCounts := refCounts[block := refCounts[block] - 1];
        if refCounts[block] == 0 {
          freeGpuBlocks := freeGpuBlocks + [block];
        }
      }
      assert evicted[..|evicted|] == evicted;
    }

    /** Pops `n` blocks off the free list, counting one reference for each. */
    method PopFree(n: nat) returns (blocks: seq<BlockId>)
      requires FreeList(refCounts, freeGpuBlocks) && n <= |freeGpuBlocks|
      modifies this`refCounts, this`freeGpuBlocks
      ensures blocks == Popped(old(freeGpuBlocks), n)
      ensures refCounts == SetOne(old(refCounts), blocks)
      ensures freeGpuBlocks == old(freeGpuBlocks)[..|old(freeGpuBlocks)| - n]
    {
      blocks := [];
      ghost var refs, free := refCounts, freeGpuBlocks;
      for i := 0 to n
        invariant blocks == Popped(free, i)
        invariant refCounts == SetOne(refs, blocks)
        invariant freeGpuBlocks == free[..|free| - i]
      {
        PoppedStep(refs, free, i);
        var block := freeGpuBlocks[|freeGpuBlocks| - 1];
        freeGpuBlocks := freeGpuBlocks[..|freeGpuBlocks| - 1];
        refCounts := refCounts[block := 1];
        blocks := blocks + [block];
      }
    }

    /** Pushes the listed blocks nobody references onto the free list. */
    method PushIdle(blocks: seq<BlockId>)
      requires forall b | b in blocks :: b < |refCounts|
      modifies this`freeGpuBlocks
      ensures freeGpuBlocks == old(freeGpuBlocks) + Idle(refCounts, blocks)
    {
      for i := 0 to |blocks|
        invariant freeGpuBlocks == old(freeGpuBlocks) + Idle(refCounts, blocks[..i])
      {
        assert blocks[..i + 1][..|blocks[..i + 1]| - 1] == blocks[..i];
        assert blocks[i] in blocks;
        if refCounts[blocks[i]] == 0 {
          freeGpuBlocks := freeGpuBlocks + [blocks[i]];
        }
      }
      assert blocks[..|blocks|] == blocks;
    }

    /** Evicts from the prefix cache and releases the evicted blocks. */
    method ReclaimFromCache(ghost pins: multiset<BlockId>) returns (ghost ps: seq<Path>)
      requires radixCache.Valid() && Counted(View(), pins)
      modifies this`refCounts, this`freeGpuBlocks, radixCache, radixCache.repr
      ensures radixCache.Valid() && radixCache.repr == old(radixCache.repr)
      ensures EvictRun(old(View()).tree, old(View()).capacity, ps) && Evictable(old(View()).tree, ps)
      ensures View() == Reclaim(old(View()), ps)
    {
      hide WellFormed, StampsBelow, Debt, Held, EvictRun, Evictable, Remaining, Freed, Release, FreeList, TreeBlocks,
           Affordable;
      var evicted;
      evicted, ps := radixCache.EvictLru();
      EvictedAffordable(old(View()), pins, ps);
      ReleaseEvicted(evicted);
    }

    /** Looks the prompt up, takes references to the hit, and evicts from the cache when short of blocks. */
    method Prepare(promptTokens: seq<Token>)
      returns (cachedBlocks: seq<BlockId>, cachedTokenCount: nat, ghost ps: seq<Path>)
      requires Valid()
      modifies this`refCounts, this`freeGpuBlocks, radixCache, radixCache.repr
      ensures radixCache.Valid() && radixCache.repr == old(radixCache.repr)
      ensures PermittedAllocate(old(View()), promptTokens, ps)
      ensures cachedBlocks == HitBlocks(old(View()), promptTokens)
        && cachedTokenCount == HitLength(old(View()), promptTokens)
      ensures View() == Prepared(old(View()), promptTokens, ps)
    {
      hide WellFormed, StampsBelow, Debt, Held, FreeList, EvictRun, Evictable, Remaining, Freed, Release, Walk, Label,
           PathBlocks, Touched, TreeBlocks, Stranded, NoDup, RadixCache.Linked, Affordable;
      ghost var m := View();
      AllocationPins(m, promptTokens);
      cachedBlocks, cachedTokenCount := radixCache.MatchPrefix(promptTokens);
      Retain(cachedBlocks);
      assert View() == Pin(m, promptTokens);
      ps := [];
      if |freeGpuBlocks| < CeilDiv(|promptTokens| - cachedTokenCount, blockSize) {
        ps := ReclaimFromCache(multiset(cachedBlocks));
      }
    }

    /**
     * Allocates blocks for a prompt, reusing the longest cached prefix and evicting from the cache when short of
     * blocks; on failure the references taken are given back. The result is the request's blocks and the cached length.
     */
    method AllocateWithPrefix(requestId: RequestId, promptTokens: seq<Token>)
      returns (r: Option<(seq<BlockId>, nat)>, ghost ps: seq<Path>)
      requires Valid()
      modifies this, radixCache, radixCache.repr
      ensures Valid() && fresh(radixCache.repr - old(radixCache.repr))
      ensures PermittedAllocate(old(View()), promptTokens, ps)
      ensures Allocation(View(), r) == BlockAccounting.AllocateWithPrefix(old(View()), requestId, promptTokens, ps)
      ensures r.Some? ==> exists p :: Answers(old(View()), promptTokens, r.value.0, r.value.1, p)
    {
      hide WellFormed, StampsBelow, Debt, Held, FreeList, PermittedAllocate, Prepared, HitBlocks, TreeBlocks, Stranded,
           NoDup, RadixCache.Valid, Affordable, Answers;
      ghost var m := View();
      var cachedBlocks, cachedTokenCount;
      cachedBlocks, cachedTokenCount, ps := Prepare(promptTokens);
      var newBlocksNeeded := CeilDiv(|promptTokens| - cachedTokenCount, blockSize);
      PreparedSound(m, promptTokens, ps);
      AllocateWithPrefixSound(m, requestId, promptTokens, ps);
      AllocationAnswers(m, requestId, promptTokens, ps);
      if |freeGpuBlocks| < newBlocksNeeded {
        PinsAffordable(View(), cachedBlocks);
        Drop(cachedBlocks);
        return None, ps;
      }
      var newBlocks := PopFree(newBlocksNeeded);
      var allBlocks := cachedBlocks + newBlocks;
      blockTable := blockTable[requestId := allBlocks];
      promptTable := promptTable[requestId := promptTokens];
      r := Some((allBlocks, cachedTokenCount));
    }

    /** Allocates without prefix caching. */
    method Allocate(requestId: RequestId, numTokens: nat) returns (r: Option<seq<BlockId>>)
      requires Valid()
      modifies this
      ensures Valid()
      ensures match BlockAccounting.Allocate(old(View()), requestId, numTokens)
        case None => r == None && View() == old(View())
        case Some(m) => r == Some(m.table[requestId]) && View() == m
    {
      hide WellFormed, StampsBelow, Debt, Held, TreeBlocks, Stranded, NoDup, RadixCache.Linked;
      ghost var m := View();
      var numBlocks := CeilDiv(numTokens, blockSize);
      if |freeGpuBlocks| < numBlocks {
        return None;
      }
      AllocateSound(m, requestId, numTokens);
      var newBlocks := PopFree(numBlocks);
      assert [] + newBlocks == newBlocks;
      blockTable := blockTable[requestId := newBlocks];
      r := Some(newBlocks);
    }

    /** Returns a request's blocks: into the prefix cache when its prompt is known, else to the free list. */
    method Free(requestId: RequestId) returns (ghost ps: seq<Path>)
      requires Valid()
      modifies this, radixCache, radixCache.repr
      ensures Valid() && fresh(radixCache.repr - old(radixCache.repr))
      ensures PermittedFree(old(View()), requestId, ps)
      ensures View() == BlockAccounting.Free(old(View()), requestId, ps)
    {
      hide WellFormed, StampsBelow, Debt, Held, TreeBlocks, Stranded, NoDup, RadixCache.Linked, Affordable, FreeList,
           EvictRun, Evictable, Remaining, Slot, Inserted, Idle;
      ghost var m := View();
      ps := [];
      if requestId in blockTable {
        var blocks := blockTable[requestId];
        TableAffordable(m, requestId);
        blockTable := blockTable - {requestId};
        Drop(blocks);
        if requestId in promptTable {
          var tokens := promptTable[requestId];
          promptTable := promptTable - {requestId};
          Retain(blocks);
          AddUndoesSub(m.refs, blocks);
          NoEviction(Deposited(m, requestId));
          ps := radixCache.Insert(tokens, blocks);
        } else {
          PushIdle(blocks);
        }
      }
      FreeSound(m, requestId, ps);
    }
  }
}
