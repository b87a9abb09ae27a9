/** What every operation of the block manager keeps, and how the count of unreturnable references moves. */
module BlockSafety {
  import opened Types
  import opened Holdings
  import opened RadixTrie
  import opened BlockAccounting

  // ---------------------------------------------------------------- reference counts

  lemma SubOne(refs: seq<nat>, b: BlockId)
    requires b < |refs| && refs[b] >= 1
    ensures SubRefs(refs, [b]) == refs[b := refs[b] - 1]
  {
    assert forall x: BlockId :: multiset([b])[x] == if x == b then 1 else 0;
  }

  lemma LastCounts(bs: seq<BlockId>)
    requires bs != []
    ensures var init, last := bs[..|bs| - 1], bs[|bs| - 1];
      forall b: BlockId :: multiset(bs)[b] == multiset(init)[b] + if b == last then 1 else 0
    ensures forall b :: b in bs <==> b in bs[..|bs| - 1] || b == bs[|bs| - 1]
  {
    assert bs == bs[..|bs| - 1] + [bs[|bs| - 1]];
  }

  lemma {:induction false} ReleaseFacts(pool: Pool, bs: seq<BlockId>)
    requires FreeList(pool.refs, pool.free)
    requires forall b: BlockId :: multiset(bs)[b] <= RefAt(pool.refs, b)
    ensures var r := Release(pool, bs);
      && |r.refs| == |pool.refs|
      && FreeList(r.refs, r.free)
      && (forall b: BlockId :: RefAt(r.refs, b) == RefAt(pool.refs, b) - multiset(bs)[b])
      && (forall b: BlockId :: b in r.free <==> b in pool.free || (b in bs && RefAt(r.refs, b) == 0))
  {
    if bs != [] {
      hide SubRefs, NoDup;
      var init: seq<BlockId>, last: BlockId := bs[..|bs| - 1], bs[|bs| - 1];
      LastCounts(bs);
      ReleaseFacts(pool, init);
      var before, r := Release(pool, init), Release(pool, bs);
      assert multiset(bs)[last] >= 1 && RefAt(before.refs, last) >= 1;
      SubOne(before.refs, last);
      if RefAt(r.refs, last) == 0 {
        assert last !in before.free;
        NoDupAppend(before.free, last);
      }
    }
  }

  lemma {:induction false} IdleFacts(refs: seq<nat>, bs: seq<BlockId>)
    ensures forall b :: b in Idle(refs, bs) <==> b in bs && RefAt(refs, b) == 0
    ensures NoDup(bs) ==> NoDup(Idle(refs, bs))
  {
    if bs != [] {
      var init: seq<BlockId>, last: BlockId := bs[..|bs| - 1], bs[|bs| - 1];
      IdleFacts(refs, init);
      assert bs == init + [last];
      if NoDup(bs) && RefAt(refs, last) == 0 {
        assert last !in init;
        NoDupAppend(Idle(refs, init), last);
      }
    }
  }

  lemma NoDupConcat<T>(s: seq<T>, t: seq<T>)
    requires NoDup(s) && NoDup(t) && forall x | x in s :: x !in t
    ensures NoDup(s + t)
  {
    forall i, j | 0 <= i < j < |s + t|
      ensures (s + t)[i] != (s + t)[j]
    {
      if i < |s| <= j {
        assert s[i] in s && t[j - |s|] in t;
      }
    }
  }

  lemma NoDupCounts(bs: seq<BlockId>)
    requires NoDup(bs)
    ensures forall b :: multiset(bs)[b] == if b in bs then 1 else 0
  {
    if bs != [] {
      var init: seq<BlockId>, last: BlockId := bs[..|bs| - 1], bs[|bs| - 1];
      assert bs == init + [last];
      NoDupCounts(init);
    }
  }

  lemma PoppedFacts(free: seq<BlockId>, n: nat)
    requires NoDup(free) && n <= |free|
    ensures NoDup(Popped(free, n)) && NoDup(free[..|free| - n])
    ensures forall b :: b in free <==> b in Popped(free, n) || b in free[..|free| - n]
    ensures forall b | b in Popped(free, n) :: b !in free[..|free| - n]
  {
    var p := Popped(free, n);
    forall b | b in free
      ensures b in p || b in free[..|free| - n]
    {
      var i :| 0 <= i < |free| && free[i] == b;
      if i >= |free| - n {
        assert p[|free| - 1 - i] == b;
      } else {
        assert free[..|free| - n][i] == b;
      }
    }
  }

  lemma PoppedFromFreeList(refs: seq<nat>, free: seq<BlockId>, n: nat)
    requires FreeList(refs, free) && n <= |free|
    ensures NoDup(Popped(free, n))
  {
    PoppedFacts(free, n);
  }

  lemma TakenFreeList(refs: seq<nat>, free: seq<BlockId>, n: nat)
    requires FreeList(refs, free) && n <= |free|
    ensures FreeList(SetOne(refs, Popped(free, n)), free[..|free| - n])
  {
    PoppedFacts(free, n);
    var r := SetOne(refs, Popped(free, n));
    forall b | b in free[..|free| - n]
      ensures b < |r| && r[b] == 0
    {
      assert b in free && b !in Popped(free, n);
    }
  }

  lemma PinnedFreeList(m: Mem, pinned: seq<BlockId>)
    requires FreeList(m.refs, m.free) && forall b: BlockId | b in pinned :: RefAt(m.refs, b) >= 1
    ensures FreeList(AddRefs(m.refs, pinned), m.free)
  {
    var r := AddRefs(m.refs, pinned);
    forall b | b in m.free
      ensures b < |r| && r[b] == 0
    {
      assert b !in pinned && multiset(pinned)[b] == 0;
    }
  }

  // ---------------------------------------------------------------- steps of an allocation

  lemma PinSound(m: Mem, prompt: seq<Token>)
    requires Counted(m, multiset{})
    ensures var u, pins := Pin(m, prompt), multiset(HitBlocks(m, prompt));
      && Counted(u, pins)
      && Held(u) == Held(m)
      && Stranded(u) == Stranded(m)
      && forall b: BlockId :: Debt(u, pins, b) == Debt(m, multiset{}, b)
  {
    hide WellFormed, Walk, Label, PathBlocks, Touched, StampsBelow, TreeBlocks, FreeList;
    var u, pinned: seq<BlockId> := Pin(m, prompt), HitBlocks(m, prompt);
    WalkEnds(m.tree, prompt);
    TouchedKeepsContents(m.tree, Hit(m, prompt), m.clock);
    PathBlocksHeld(m.tree, Hit(m, prompt));
    forall b: BlockId
      ensures Debt(u, multiset(pinned), b) == Debt(m, multiset{}, b)
      ensures b in pinned ==> RefAt(m.refs, b) >= 1
      ensures RefAt(u.refs, b) == 0 <==> RefAt(m.refs, b) == 0
    {
      assert Debt(m, multiset{}, b) >= 0;
      assert multiset(pinned)[b] <= TreeBlocks(m.tree)[b];
    }
    PinnedFreeList(m, pinned);
    forall b
      ensures b in Stranded(u) <==> b in Stranded(m)
    {
      if 0 <= b < |m.refs| {
        assert RefAt(u.refs, b) == 0 <==> RefAt(m.refs, b) == 0;
      }
    }
  }

  lemma ReclaimSound(m: Mem, pins: multiset<BlockId>, ps: seq<Path>)
    requires Counted(m, pins) && EvictRun(m.tree, m.capacity, ps)
    ensures var u := Reclaim(m, ps);
      && Counted(u, pins)
      && |u.refs| == |m.refs|
      && Stranded(u) == Stranded(m)
      && (forall b: BlockId :: Debt(u, pins, b) == Debt(m, pins, b))
  {
    hide WellFormed, StampsBelow, TreeBlocks, EvictRun, Evictable, Remaining, Freed, Release, FreeList, Total;
    EvictRunPermits(m.tree, m.capacity, ps);
    var u, freed: seq<BlockId> := Reclaim(m, ps), Freed(m.tree, ps);
    EvictionFacts(m.tree, ps);
    StampsKept(m.tree, ps, m.clock);
    EvictRunFits(m.tree, m.capacity, ps);
    forall b: BlockId
      ensures multiset(freed)[b] <= RefAt(m.refs, b)
    {
      assert Debt(m, pins, b) >= 0;
      assert TreeBlocks(m.tree)[b] == TreeBlocks(u.tree)[b] + multiset(freed)[b];
    }
    ReleaseFacts(Pool(m.refs, m.free), freed);
    forall b: BlockId
      ensures Debt(u, pins, b) == Debt(m, pins, b)
    {
      assert Held(m)[b] == Held(u)[b] + multiset(freed)[b];
    }
    forall b
      ensures b in Stranded(u) <==> b in Stranded(m)
    {
      if 0 <= b < |m.refs| {
        assert RefAt(u.refs, b) == RefAt(m.refs, b) - multiset(freed)[b];
        assert b in freed <==> multiset(freed)[b] > 0;
      }
    }
  }

  /** Rolling back gives up the pins, and strands exactly the pinned blocks that nobody else holds any more. */
  lemma UnpinSound(m: Mem, pinned: seq<BlockId>)
    requires Counted(m, multiset(pinned))
    ensures var u := Unpin(m, pinned);
      && Counted(u, multiset{})
      && (forall b: BlockId :: Debt(u, multiset{}, b) == Debt(m, multiset(pinned), b))
      && Stranded(u) == Stranded(m) + set b | b in pinned && Held(m)[b] == 0 && Debt(m, multiset(pinned), b) == 0
  {
    var u := Unpin(m, pinned);
    forall b: BlockId
      ensures Debt(u, multiset{}, b) == Debt(m, multiset(pinned), b)
      ensures b in pinned ==> b < |m.refs| && m.refs[b] >= 1
    {
      assert Debt(m, multiset(pinned), b) >= 0;
      assert b in pinned <==> multiset(pinned)[b] > 0;
    }
    var s := set b | b in pinned && Held(m)[b] == 0 && Debt(m, multiset(pinned), b) == 0;
    forall b
      ensures b in Stranded(u) <==> b in Stranded(m) + s
    {
      if 0 <= b < |m.refs| {
        assert Debt(m, multiset(pinned), b) >= 0;
      }
    }
  }

  lemma TakenHeld(m: Mem, id: RequestId, blocks: seq<BlockId>, n: nat, b: BlockId)
    requires n <= |m.free|
    ensures Held(Take(m, id, blocks, n))[b] + (if id in m.table then multiset(m.table[id])[b] else 0)
            == Held(m)[b] + multiset(blocks)[b] + multiset(Popped(m.free, n))[b]
  {
    var rest, all: seq<BlockId> := m.table - {id}, blocks + Popped(m.free, n);
    assert m.table[id := all] == rest[id := all];
    TotalAdd(rest, id, all);
    if id in m.table {
      TotalRemove(m.table, id);
    } else {
      assert rest == m.table;
    }
    assert multiset(all) == multiset(blocks) + multiset(Popped(m.free, n));
  }

  lemma TakenDebt(m: Mem, id: RequestId, blocks: seq<BlockId>, n: nat, b: BlockId)
    requires FreeList(m.refs, m.free) && n <= |m.free| && Debt(m, multiset(blocks), b) >= 0
    ensures var u, popped := Take(m, id, blocks, n), Popped(m.free, n);
      && Debt(u, multiset{}, b)
        == Debt(m, multiset(blocks), b) + (if id in m.table then multiset(m.table[id])[b] else 0)
      && (b in popped ==> b < |m.refs| && Held(m)[b] == 0 && b !in blocks)
      && (RefAt(u.refs, b) == 0 && b !in u.free <==> RefAt(m.refs, b) == 0 && b !in m.free)
  {
    hide Held, NoDup, Popped;
    TakenHeld(m, id, blocks, n, b);
    PoppedFacts(m.free, n);
    NoDupCounts(Popped(m.free, n));
    assert b in m.free ==> RefAt(m.refs, b) == 0;
  }

  /** Blocks leave the free list once, counted for their new holder; what the id held before becomes debt. */
  lemma TakeSound(m: Mem, id: RequestId, blocks: seq<BlockId>, n: nat)
    requires Counted(m, multiset(blocks)) && n <= |m.free|
    ensures var u, popped := Take(m, id, blocks, n), Popped(m.free, n);
      && Counted(u, multiset{})
      && Stranded(u) == Stranded(m)
      && (forall b: BlockId :: Debt(u, multiset{}, b) == Debt(m, multiset(blocks), b)
            + if id in m.table then multiset(m.table[id])[b] else 0)
      && NoDup(popped) && (forall b | b in popped :: b < |m.refs| && Held(m)[b] == 0 && b !in blocks)
  {
    hide WellFormed, StampsBelow, TreeBlocks, Popped, NoDup, Debt, Held, FreeList;
    var u := Take(m, id, blocks, n);
    PoppedFromFreeList(m.refs, m.free, n);
    TakenFreeList(m.refs, m.free, n);
    forall b: BlockId
      ensures Debt(u, multiset{}, b) == Debt(m, multiset(blocks), b)
        + if id in m.table then multiset(m.table[id])[b] else 0
      ensures b in Popped(m.free, n) ==> b < |m.refs| && Held(m)[b] == 0 && b !in blocks
      ensures RefAt(u.refs, b) == 0 && b !in u.free <==> RefAt(m.refs, b) == 0 && b !in m.free
    {
      TakenDebt(m, id, blocks, n, b);
    }
    forall b
      ensures b in Stranded(u) <==> b in Stranded(m)
    {
      if 0 <= b < |m.refs| {
        assert RefAt(u.refs, b) == 0 && b !in u.free <==> RefAt(m.refs, b) == 0 && b !in m.free;
      }
    }
  }

  // ---------------------------------------------------------------- whole operations

  lemma PreparedSound(m: Mem, prompt: seq<Token>, ps: seq<Path>)
    requires Counted(m, multiset{}) && PermittedAllocate(m, prompt, ps)
    ensures var u, pins := Prepared(m, prompt, ps), multiset(HitBlocks(m, prompt));
      && Counted(u, pins)
      && Stranded(u) == Stranded(m)
      && |u.refs| == |m.refs| && u.table == m.table && u.prompts == m.prompts && u.blockSize == m.blockSize
        && u.capacity == m.capacity
      && forall b: BlockId :: Debt(u, pins, b) == Debt(m, multiset{}, b)
  {
    hide EvictRun, Evictable, Debt, Stranded;
    PinSound(m, prompt);
    if MustEvict(m, prompt) {
      ReclaimSound(Pin(m, prompt), multiset(HitBlocks(m, prompt)), ps);
    }
  }

  /** Blocks that a rollback loses: pinned, but meanwhile evicted, and held by nobody else. */
  ghost function LostByRollback(m: Mem, prompt: seq<Token>, ps: seq<Path>): set<BlockId>
    requires WellFormed(m.tree) && m.blockSize >= 1 && PermittedAllocate(m, prompt, ps)
  {
    var u, pinned := Prepared(m, prompt, ps), HitBlocks(m, prompt);
    set b | b in pinned && Held(u)[b] == 0 && Debt(u, multiset(pinned), b) == 0
  }

  /**
   * `allocate_with_prefix` keeps the invariant. Success moves no block to a second owner: the new blocks are distinct
   * and were held by nobody. Only failure strands blocks, exactly the ones described above.
   */
  lemma AllocateWithPrefixSound(m: Mem, id: RequestId, prompt: seq<Token>, ps: seq<Path>)
    requires Sound(m) && PermittedAllocate(m, prompt, ps)
    ensures var a := AllocateWithPrefix(m, id, prompt, ps);
      && Sound(a.mem)
      && |a.mem.refs| == |m.refs|
      && (forall b: BlockId :: Debt(a.mem, multiset{}, b) == Debt(m, multiset{}, b)
            + if a.result.Some? && id in m.table then multiset(m.table[id])[b] else 0)
      && Stranded(a.mem) == Stranded(m) + (if a.result.None? then LostByRollback(m, prompt, ps) else {})
      && (a.result.Some? ==>
            var n := NewBlocksNeeded(m, prompt);
            var all := a.result.value.0;
            && |all| == |HitBlocks(m, prompt)| + n
            && all[..|all| - n] == HitBlocks(m, prompt)
            && NoDup(all[|all| - n..])
            && a.mem.table == m.table[id := all] && a.mem.prompts == m.prompts[id := prompt])
      && (a.result.None? ==> a.mem.table == m.table && a.mem.prompts == m.prompts)
  {
    hide EvictRun, Evictable, Debt, Held, WellFormed, StampsBelow, FreeList, TreeBlocks, NoDup, Stranded;
    PreparedSound(m, prompt, ps);
    var pinned, n, u := HitBlocks(m, prompt), NewBlocksNeeded(m, prompt), Prepared(m, prompt, ps);
    if |u.free| < n {
      UnpinSound(u, pinned);
    } else {
      TakeSound(u, id, pinned, n);
      PromptsDoNotCount(Take(u, id, pinned, n), u.prompts[id := prompt]);
      var all := pinned + Popped(u.free, n);
      assert all[|all| - n..] == Popped(u.free, n);
    }
  }

  lemma HitWithinPrompt(m: Mem, id: RequestId, prompt: seq<Token>, ps: seq<Path>)
    requires Sound(m) && PermittedAllocate(m, prompt, ps) && AllocateWithPrefix(m, id, prompt, ps).result.Some?
    ensures AllocateWithPrefix(m, id, prompt, ps).result.value.1 <= |prompt|
  {
  }

  lemma PromptsDoNotCount(m: Mem, prompts: map<RequestId, seq<Token>>)
    ensures var u := m.(prompts := prompts);
      && (Counted(m, multiset{}) ==> Counted(u, multiset{}))
      && Stranded(u) == Stranded(m)
      && forall b: BlockId :: Debt(u, multiset{}, b) == Debt(m, multiset{}, b)
  {
    assert forall b: BlockId :: Debt(m.(prompts := prompts), multiset{}, b) == Debt(m, multiset{}, b);
  }

  lemma UnheldBlock(m: Mem, b: BlockId)
    requires Held(m)[b] == 0
    ensures forall id | id in m.table :: b !in m.table[id]
    ensures forall p | p in m.tree :: b !in m.tree[p].blocks
  {
    forall id | id in m.table
      ensures b !in m.table[id]
    {
      if b in m.table[id] {
        TotalMember(m.table, id, b);
      }
    }
    forall p | p in m.tree
      ensures b !in m.tree[p].blocks
    {
      if b in Store(m.tree)[p] {
        TotalMember(Store(m.tree), p, b);
      }
    }
  }

  /** A block handed out as new is no block of any request table or cache node. */
  lemma NewBlocksUnshared(m: Mem, id: RequestId, prompt: seq<Token>, ps: seq<Path>, b: BlockId)
    requires Sound(m) && PermittedAllocate(m, prompt, ps)
    requires AllocateWithPrefix(m, id, prompt, ps).result.Some?
    requires b in AllocateWithPrefix(m, id, prompt, ps).result.value.0[|HitBlocks(m, prompt)|..]
    ensures b < |m.refs|
    ensures forall other | other in m.table :: b !in m.table[other]
    ensures forall p | p in AllocateWithPrefix(m, id, prompt, ps).mem.tree ::
      b !in AllocateWithPrefix(m, id, prompt, ps).mem.tree[p].blocks
  {
    hide EvictRun, Evictable, Debt, Held, WellFormed, StampsBelow, FreeList, TreeBlocks, NoDup, Stranded;
    PreparedSound(m, prompt, ps);
    var u, n, pinned := Prepared(m, prompt, ps), NewBlocksNeeded(m, prompt), HitBlocks(m, prompt);
    TakeSound(u, id, pinned, n);
    assert (pinned + Popped(u.free, n))[|pinned|..] == Popped(u.free, n);
    UnheldBlock(u, b);
  }

  lemma AllocateSound(m: Mem, id: RequestId, numTokens: nat)
    requires Sound(m) && Allocate(m, id, numTokens).Some?
    ensures var u := Allocate(m, id, numTokens).value;
      && Sound(u)
      && Stranded(u) == Stranded(m)
      && forall b: BlockId :: Debt(u, multiset{}, b) == Debt(m, multiset{}, b)
            + if id in m.table then multiset(m.table[id])[b] else 0
  {
    var none: seq<BlockId> := [];
    assert multiset(none) == multiset{};
    TakeSound(m, id, none, CeilDiv(numTokens, m.blockSize));
    assert [] + Popped(m.free, CeilDiv(numTokens, m.blockSize)) == Popped(m.free, CeilDiv(numTokens, m.blockSize));
  }

  // ---------------------------------------------------------------- free

  /** What `free` leaks: the whole deposit when the path is already cached, and whatever `insert` evicts and drops. */
  ghost function LeakedByFree(m: Mem, id: RequestId, ps: seq<Path>): multiset<BlockId>
    requires WellFormed(m.tree) && PermittedFree(m, id, ps)
  {
    if id !in m.table || id !in m.prompts then multiset{}
    else if Slot(m.tree, [], m.prompts[id]).None? then multiset(m.table[id])
    else if Overflows(m, id)
      then EvictRunPermits(Deposited(m, id), m.capacity, ps); multiset(Freed(Deposited(m, id), ps))
    else multiset{}
  }

  lemma DepositedFacts(m: Mem, id: RequestId)
    requires Counted(m, multiset{}) && id in m.table && id in m.prompts
    ensures var t := Deposited(m, id);
      && WellFormed(t)
      && (if Slot(m.tree, [], m.prompts[id]).Some?
          then StampsBelow(t, m.clock + 1) && TreeBlocks(t) == TreeBlocks(m.tree) + multiset(m.table[id])
          else t == m.tree && !Overflows(m, id))
  {
    if Slot(m.tree, [], m.prompts[id]).Some? {
      InsertedFacts(m.tree, m.prompts[id], m.table[id], m.clock);
    } else {
      InsertedNowhere(m.tree, m.prompts[id], m.table[id], m.clock);
    }
  }

  lemma FreeTracedSound(m: Mem, id: RequestId, ps: seq<Path>)
    requires Sound(m) && PermittedFree(m, id, ps) && id in m.table && id in m.prompts
    ensures var u := Free(m, id, ps);
      && Sound(u)
      && Stranded(u) == Stranded(m)
      && forall b: BlockId :: Debt(u, multiset{}, b) == Debt(m, multiset{}, b) + LeakedByFree(m, id, ps)[b]
  {
    hide EvictRun, Evictable, Remaining, Freed, Total, WellFormed, StampsBelow, FreeList, TreeBlocks, NoDup, Slot,
         Inserted;
    var u, t := Free(m, id, ps), Deposited(m, id);
    DepositedFacts(m, id);
    NoEviction(t);
    if Overflows(m, id) {
      EvictRunPermits(t, m.capacity, ps);
      EvictRunFits(t, m.capacity, ps);
    }
    EvictionFacts(t, ps);
    StampsKept(t, ps, u.clock);
    TotalRemove(m.table, id);
    forall b: BlockId
      ensures Debt(u, multiset{}, b) == Debt(m, multiset{}, b) + LeakedByFree(m, id, ps)[b]
    {
      assert TreeBlocks(t)[b] == TreeBlocks(u.tree)[b] + multiset(Freed(t, ps))[b];
      assert Debt(m, multiset{}, b) >= 0;
    }
  }

  lemma FreeUntracedSound(m: Mem, id: RequestId, ps: seq<Path>)
    requires Sound(m) && PermittedFree(m, id, ps) && id in m.table && id !in m.prompts
    ensures var u := Free(m, id, ps);
      && Sound(u)
      && Stranded(u) == Stranded(m)
      && forall b: BlockId :: Debt(u, multiset{}, b) == Debt(m, multiset{}, b)
  {
    hide EvictRun, Evictable, Remaining, Freed, Total, WellFormed, StampsBelow, TreeBlocks;
    var u, blocks: seq<BlockId> := Free(m, id, ps), m.table[id];
    TotalRemove(m.table, id);
    NoDupCounts(blocks);
    forall b: BlockId
      ensures Debt(u, multiset{}, b) == Debt(m, multiset{}, b)
      ensures b in blocks ==> RefAt(m.refs, b) >= 1
    {
      assert Debt(m, multiset{}, b) >= 0;
    }
    IdleFacts(u.refs, blocks);
    NoDupConcat(m.free, Idle(u.refs, blocks));
    forall b
      ensures b in Stranded(u) <==> b in Stranded(m)
    {
      if 0 <= b < |m.refs| {
        assert b in blocks ==> RefAt(m.refs, b) >= 1;
      }
    }
  }

  /** `free` keeps the invariant and strands nothing; its leak is exactly `LeakedByFree`. */
  lemma FreeSound(m: Mem, id: RequestId, ps: seq<Path>)
    requires Sound(m) && PermittedFree(m, id, ps)
    ensures var u := Free(m, id, ps);
      && Sound(u)
      && |u.refs| == |m.refs|
      && Stranded(u) == Stranded(m)
      && forall b: BlockId :: Debt(u, multiset{}, b) == Debt(m, multiset{}, b) + LeakedByFree(m, id, ps)[b]
  {
    hide Sound, Debt, Stranded, PermittedFree;
    if id in m.table {
      if id in m.prompts {
        FreeTracedSound(m, id, ps);
      } else {
        FreeUntracedSound(m, id, ps);
      }
    }
  }

  // ---------------------------------------------------------------- conservation

  ghost function Elements(s: seq<BlockId>): (r: set<BlockId>)
    ensures forall b :: b in r <==> b in s
  {
    set b | b in s
  }

  lemma {:induction false} DistinctCount(s: seq<BlockId>)
    requires NoDup(s)
    ensures |Elements(s)| == |s|
  {
    if s == [] {
      assert Elements(s) == {};
    } else {
      var init: seq<BlockId>, last: BlockId := s[..|s| - 1], s[|s| - 1];
      assert s == init + [last];
      assert last !in init;
      DistinctCount(init);
      assert Elements(s) == Elements(init) + {last};
    }
  }

  ghost function FirstBlocks(n: nat): (s: set<BlockId>)
    ensures |s| == n && forall b: BlockId :: b in s <==> b < n
  {
    if n == 0 then {} else FirstBlocks(n - 1) + {n - 1}
  }

  lemma PartitionCount(a: set<BlockId>, b: set<BlockId>, c: set<BlockId>, all: set<BlockId>)
    requires forall x :: x in all <==> x in a || x in b || x in c
    requires forall x | x in a :: x !in b && x !in c
    requires forall x | x in b :: x !in c
    ensures |a| + |b| + |c| == |all|
  {
    assert |a + b| == |a| + |b|;
    assert |a + b + c| == |a + b| + |c|;
    assert a + b + c == all;
  }

  ghost function InUse(m: Mem): set<BlockId> {
    set b | 0 <= b < |m.refs| && m.refs[b] > 0
  }

  /** Conservation: every physical block is free, counted or stranded, and only one of them. */
  lemma BlocksConserved(m: Mem)
    requires FreeList(m.refs, m.free)
    ensures |m.free| + |InUse(m)| + |Stranded(m)| == |m.refs|
  {
    DistinctCount(m.free);
    PartitionCount(Elements(m.free), InUse(m), Stranded(m), FirstBlocks(|m.refs|));
  }
}
