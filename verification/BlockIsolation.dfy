/** Blocks that a request holds alone: nobody else gets them while it runs. */
module BlockIsolation {
  import opened Types
  import opened Holdings
  import opened RadixTrie
  import opened BlockAccounting
  import opened BlockSafety
  import opened BlockRefusal

  /** The last `n` blocks of the request's table have no other holder and are listed once. */
  ghost predicate Owns(m: Mem, id: RequestId, n: nat) {
    && id in m.table && n <= |m.table[id]|
    && forall b | b in m.table[id][|m.table[id]| - n..] :: Held(m)[b] == 1
  }

  /** A block held once, by a request, is in no other table and in no cache node. */
  lemma HeldOnce(m: Mem, id: RequestId, b: BlockId)
    requires id in m.table && b in m.table[id] && Held(m)[b] == 1
    ensures TreeBlocks(m.tree)[b] == 0 && Total(m.table)[b] == 1 && multiset(m.table[id])[b] == 1
    ensures forall other | other in m.table && other != id :: b !in m.table[other]
    ensures forall p | p in m.tree :: b !in m.tree[p].blocks
  {
    TotalRemove(m.table, id);
    var blocks: seq<BlockId> := m.table[id];
    assert multiset(blocks)[b] >= 1;
    forall other | other in m.table && other != id
      ensures b !in m.table[other]
    {
      if b in m.table[other] {
        TotalMember(m.table - {id}, other, b);
      }
    }
    forall p | p in m.tree
      ensures b !in m.tree[p].blocks
    {
      if b in Store(m.tree)[p] {
        TotalMember(Store(m.tree), p, b);
      }
    }
  }

  lemma OwnedListed(m: Mem, id: RequestId, n: nat, b: BlockId)
    requires Owns(m, id, n) && b in m.table[id][|m.table[id]| - n..]
    ensures b in m.table[id] && Held(m)[b] == 1
  {
  }

  // ---------------------------------------------------------------- allocation

  /** Looking up and evicting does not touch a block that only a request holds. */
  lemma PreparedHeldOnce(m: Mem, prompt: seq<Token>, ps: seq<Path>, id: RequestId, b: BlockId)
    requires Sound(m) && PermittedAllocate(m, prompt, ps) && id in m.table && b in m.table[id] && Held(m)[b] == 1
    ensures Held(Prepared(m, prompt, ps))[b] == 1 && multiset(HitBlocks(m, prompt))[b] == 0
  {
    hide PermittedAllocate, Prepared, Sound, TreeBlocks, HitBlocks;
    HeldOnce(m, id, b);
    PinnedBlocks(m, prompt, b);
    LeftInCache(m, prompt, ps, b);
  }

  lemma TakenOnce(u: Mem, id: RequestId, pinned: seq<BlockId>, n: nat, b: BlockId)
    requires Counted(u, multiset(pinned)) && n <= |u.free|
    requires id in u.table ==> multiset(u.table[id])[b] == 0
    requires multiset(pinned)[b] == 0 && Held(u)[b] == 1
    ensures Held(Take(u, id, pinned, n))[b] == 1
  {
    hide Counted, Held, Take, Popped, Debt;
    TakeSound(u, id, pinned, n);
    TakenHeld(u, id, pinned, n, b);
    var popped: seq<BlockId> := Popped(u.free, n);
    assert b in popped <==> multiset(popped)[b] > 0;
  }

  lemma AllocationKeepsBlock(m: Mem, other: RequestId, prompt: seq<Token>, ps: seq<Path>, id: RequestId, b: BlockId)
    requires Sound(m) && PermittedAllocate(m, prompt, ps) && id != other
    requires id in m.table && b in m.table[id] && Held(m)[b] == 1
    ensures Held(AllocateWithPrefix(m, other, prompt, ps).mem)[b] == 1
  {
    hide PermittedAllocate, Prepared, HitBlocks, NewBlocksNeeded, WellFormed, StampsBelow, TreeBlocks, Debt, Stranded,
         FreeList, Total, Take;
    SoundFits(m);
    HeldOnce(m, id, b);
    PreparedHeldOnce(m, prompt, ps, id, b);
    PreparedSound(m, prompt, ps);
    var u, pinned, n := Prepared(m, prompt, ps), HitBlocks(m, prompt), NewBlocksNeeded(m, prompt);
    if n <= |u.free| {
      var blocks: seq<BlockId> := if other in m.table then m.table[other] else [];
      assert b !in blocks && multiset(blocks)[b] == 0;
      TakenOnce(u, other, pinned, n, b);
    }
  }

  /** A request's exclusive blocks stay so while others are admitted or refused. */
  lemma AllocationOwns(m: Mem, other: RequestId, prompt: seq<Token>, ps: seq<Path>, id: RequestId, n: nat)
    requires Sound(m) && PermittedAllocate(m, prompt, ps) && id != other && Owns(m, id, n)
    ensures Owns(AllocateWithPrefix(m, other, prompt, ps).mem, id, n)
  {
    hide PermittedAllocate, AllocateWithPrefix, Sound, Held;
    SoundFits(m);
    AllocationTables(m, other, prompt, ps);
    forall b | b in m.table[id][|m.table[id]| - n..]
      ensures Held(AllocateWithPrefix(m, other, prompt, ps).mem)[b] == 1
    {
      OwnedListed(m, id, n, b);
      AllocationKeepsBlock(m, other, prompt, ps, id, b);
    }
  }

  lemma AllocationTables(m: Mem, other: RequestId, prompt: seq<Token>, ps: seq<Path>)
    requires Sound(m) && PermittedAllocate(m, prompt, ps)
    ensures var u := AllocateWithPrefix(m, other, prompt, ps).mem;
      && u.blockSize == m.blockSize && u.capacity == m.capacity
      && forall id | id != other :: (id in u.table <==> id in m.table) && (id in m.table ==> u.table[id] == m.table[id])
  {
    hide Sound, PermittedAllocate, Prepared, HitBlocks, NewBlocksNeeded, WellFormed, Debt, Stranded;
    SoundFits(m);
    AllocateWithPrefixSound(m, other, prompt, ps);
    SoundCountedOnly(m);
    PreparedSound(m, prompt, ps);
  }

  lemma SoundCountedOnly(m: Mem)
    requires Sound(m)
    ensures Counted(m, multiset{})
  {
  }

  /** A new request holds the blocks for the uncached rest of its prompt alone. */
  lemma AllocationOwnsNew(m: Mem, id: RequestId, prompt: seq<Token>, ps: seq<Path>)
    requires Sound(m) && PermittedAllocate(m, prompt, ps) && id !in m.table
    requires AllocateWithPrefix(m, id, prompt, ps).result.Some?
    ensures var a := AllocateWithPrefix(m, id, prompt, ps);
      && a.result.value.1 <= |prompt|
      && Owns(a.mem, id, CeilDiv(|prompt| - a.result.value.1, m.blockSize))
  {
    hide PermittedAllocate, Prepared, HitBlocks, WellFormed, StampsBelow, TreeBlocks, Debt, Stranded, FreeList, Total,
         Held, Counted, Popped, CeilDiv;
    SoundFits(m);
    SoundCountedOnly(m);
    PreparedSound(m, prompt, ps);
    var u, pinned, n := Prepared(m, prompt, ps), HitBlocks(m, prompt), NewBlocksNeeded(m, prompt);
    TakeSound(u, id, pinned, n);
    var popped: seq<BlockId>, all: seq<BlockId> := Popped(u.free, n), pinned + Popped(u.free, n);
    assert all[|all| - n..] == popped;
    NoDupCounts(popped);
    forall b | b in popped
      ensures Held(Take(u, id, pinned, n))[b] == 1
    {
      TakenHeld(u, id, pinned, n, b);
      assert b !in pinned && multiset(pinned)[b] == 0;
    }
    HeldIgnoresPrompts(Take(u, id, pinned, n), u.prompts[id := prompt]);
  }

  lemma HeldIgnoresPrompts(m: Mem, prompts: map<RequestId, seq<Token>>)
    ensures Held(m.(prompts := prompts)) == Held(m)
  {
  }

  // ---------------------------------------------------------------- free

  lemma FreedTree(m: Mem, other: RequestId, ps: seq<Path>, b: BlockId)
    requires Sound(m) && PermittedFree(m, other, ps) && TreeBlocks(m.tree)[b] == 0
    requires other in m.table ==> b !in m.table[other]
    ensures TreeBlocks(Free(m, other, ps).tree)[b] == 0
  {
    hide WellFormed, StampsBelow, FreeList, EvictRun, Evictable, Remaining, Freed, Slot, Inserted, Total, TreeBlocks,
         Debt;
    if other in m.table && other in m.prompts {
      DepositedFacts(m, other);
      NoEviction(Deposited(m, other));
      if Overflows(m, other) {
        EvictRunPermits(Deposited(m, other), m.capacity, ps);
      }
      EvictionFacts(Deposited(m, other), ps);
      var blocks: seq<BlockId> := m.table[other];
      assert multiset(blocks)[b] == 0;
      assert TreeBlocks(Deposited(m, other))[b] >= TreeBlocks(Remaining(Deposited(m, other), ps))[b];
    }
  }

  lemma FreeKeepsBlock(m: Mem, other: RequestId, ps: seq<Path>, id: RequestId, b: BlockId)
    requires Sound(m) && PermittedFree(m, other, ps) && id != other
    requires id in m.table && b in m.table[id] && Held(m)[b] == 1
    ensures Held(Free(m, other, ps))[b] == 1
  {
    hide WellFormed, StampsBelow, FreeList, Remaining, Deposited, Overflows, EvictRun, Total, TreeBlocks, Debt, Counted;
    HeldOnce(m, id, b);
    FreedTree(m, other, ps, b);
    if other in m.table {
      TotalRemove(m.table, other);
      var blocks: seq<BlockId> := m.table[other];
      assert multiset(blocks)[b] == 0;
    }
  }

  lemma FreeTables(m: Mem, other: RequestId, ps: seq<Path>)
    requires Sound(m) && PermittedFree(m, other, ps)
    ensures var u := Free(m, other, ps);
      && u.blockSize == m.blockSize && u.capacity == m.capacity
      && forall id | id != other :: (id in u.table <==> id in m.table) && (id in m.table ==> u.table[id] == m.table[id])
  {
    hide Deposited, Overflows, Remaining, EvictRun, WellFormed, Counted;
  }

  /** A request's exclusive blocks stay so while others are freed. */
  lemma FreeOwns(m: Mem, other: RequestId, ps: seq<Path>, id: RequestId, n: nat)
    requires Sound(m) && PermittedFree(m, other, ps) && id != other && Owns(m, id, n)
    ensures Owns(Free(m, other, ps), id, n)
  {
    hide PermittedFree, Free, Held;
    FreeTables(m, other, ps);
    forall b | b in m.table[id][|m.table[id]| - n..]
      ensures Held(Free(m, other, ps))[b] == 1
    {
      OwnedListed(m, id, n, b);
      FreeKeepsBlock(m, other, ps, id, b);
    }
  }
}
