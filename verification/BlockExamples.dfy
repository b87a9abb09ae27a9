/** Small runs that show where blocks get lost, and when exactly. */
module BlockExamples {
  import opened Types
  import opened RadixTrie
  import opened BlockAccounting
  import opened BlockSafety
  import opened BlockRuns

  lemma EvictionFrees(t: Trie, capacity: nat, ps: seq<Path>)
    requires WellFormed(t) && EvictRun(t, capacity, ps) && |TreeBlocks(t)| > capacity
    ensures Evictable(t, ps) && Freed(t, ps) != []
  {
    EvictRunPermits(t, capacity, ps);
    EvictRunFits(t, capacity, ps);
    EvictionFacts(t, ps);
    assert |TreeBlocks(t)| == |TreeBlocks(Remaining(t, ps))| + |multiset(Freed(t, ps))|;
  }

  /**
   * When `free` leaks nothing: the request is unknown, has no blocks or no recorded prompt, or the cache has a vacant
   * slot for its prompt and does not outgrow its capacity. In all other cases references are lost.
   */
  lemma FreeLeaksIff(m: Mem, id: RequestId, ps: seq<Path>)
    requires Sound(m) && PermittedFree(m, id, ps)
    ensures LeakedByFree(m, id, ps) == multiset{} <==>
      || id !in m.table || m.table[id] == [] || id !in m.prompts
      || (Slot(m.tree, [], m.prompts[id]).Some? && !Overflows(m, id))
  {
    hide Sound, Counted, WellFormed, EvictRun, Evictable, Freed, TreeBlocks, Slot, Inserted;
    assert Counted(m, multiset{}) && WellFormed(m.tree) by {
      SoundCounted(m);
    }
    if id in m.table && id in m.prompts {
      DepositedFacts(m, id);
      assert m.table[id] != [] ==> m.table[id][0] in multiset(m.table[id]);
      if Overflows(m, id) {
        EvictionFrees(Deposited(m, id), m.capacity, ps);
        var freed := Freed(Deposited(m, id), ps);
        assert freed[0] in multiset(freed);
        if m.table[id] == [] {
          EmptyDepositFits(m, id);
        }
      }
    }
  }

  lemma SoundCounted(m: Mem)
    requires Sound(m)
    ensures Counted(m, multiset{}) && WellFormed(m.tree) && |TreeBlocks(m.tree)| <= m.capacity
  {
  }

  lemma EmptyDepositFits(m: Mem, id: RequestId)
    requires Sound(m) && id in m.table && id in m.prompts && m.table[id] == []
    ensures WellFormed(m.tree) && !Overflows(m, id)
  {
    SoundCounted(m);
    DepositedFacts(m, id);
    hide WellFormed, StampsBelow;
    assert multiset(m.table[id]) == multiset{};
  }

  // ---------------------------------------------------------------- concrete runs

  /** A miss with enough free blocks evicts nothing. */
  lemma MissEvictsNothing(m: Mem, prompt: seq<Token>)
    requires WellFormed(m.tree) && m.blockSize >= 1 && prompt != [] && Child([], prompt[0]) !in m.tree
    requires CeilDiv(|prompt|, m.blockSize) <= |m.free|
    ensures Hit(m, prompt) == [] && HitLength(m, prompt) == 0 && HitBlocks(m, prompt) == []
    ensures PermittedAllocate(m, prompt, []) && Prepared(m, prompt, []) == m
    ensures NewBlocksNeeded(m, prompt) == CeilDiv(|prompt|, m.blockSize)
  {
    LookupStarts(m.tree, m.clock);
    var none: seq<BlockId> := [];
    assert multiset(none) == multiset{};
    assert AddRefs(m.refs, none) == m.refs;
    assert Walk(m.tree, [], prompt) == [];
  }

  ghost function EmptyTree(): Trie {
    map[[] := Entry([], [], 0)]
  }

  ghost function OneNode(k: Token, blocks: seq<BlockId>): Trie {
    map[[] := Entry([], [], 0), [k] := Entry([k], blocks, 1)]
  }

  lemma OneNodeFacts(k: Token, blocks: seq<BlockId>)
    ensures var t := OneNode(k, blocks);
      && WellFormed(t) && TreeBlocks(t) == multiset(blocks)
      && t == Inserted(EmptyTree(), [k], blocks, 1) && Slot(EmptyTree(), [], [k]).Some?
      && WellFormed(EmptyTree())
      && Label(t, [k]) == [k] && PathBlocks(t, [k]) == blocks && Leaf(t, [k])
  {
    var e, t := EmptyTree(), OneNode(k, blocks);
    assert Child([], k) == [k];
    assert WellFormed(e);
    LookupStarts(e, 0);
    assert Slot(e, [], [k]) == Some([k]);
    assert [k][0..] == [k];
    assert Parent([k]) == [];
    InsertedFacts(e, [k], blocks, 1);
    RootHoldsNothing(e);
    assert t == e[[k] := Entry([k], blocks, 1)];
  }

  ghost function Served(k: Token): Mem {
    Mem(1, [0, 0, 1], [0, 1], map[1 := [2]], map[1 := [k]], EmptyTree(), 1, 1)
  }

  /** The first request of a three-block engine with one-token blocks. */
  lemma FirstAllocation(k: Token)
    ensures Sound(Initial(1, 3)) && PermittedAllocate(Initial(1, 3), [k], [])
    ensures AllocateWithPrefix(Initial(1, 3), 1, [k], []) == Allocation(Served(k), Some(([2], 0)))
    ensures Sound(Served(k))
  {
    var m := Initial(1, 3);
    InitialSound(1, 3);
    assert m.refs == [0, 0, 0] && m.free == [0, 1, 2] && m.tree == EmptyTree();
    assert Child([], k) !in m.tree;
    MissEvictsNothing(m, [k]);
    assert Popped(m.free, 1) == [2];
    assert SetOne(m.refs, [2]) == [0, 0, 1];
    assert m.free[..2] == [0, 1];
    AllocateWithPrefixSound(m, 1, [k], []);
  }

  ghost function Cached(k: Token): Mem {
    Mem(1, [0, 0, 1], [0, 1], map[], map[], OneNode(k, [2]), 1, 2)
  }

  /** A deposit that evicts nothing, in terms of its ingredients. */
  lemma FreeIs(m: Mem, id: RequestId, t: Trie)
    requires WellFormed(m.tree) && id in m.table && id in m.prompts
    requires Inserted(m.tree, m.prompts[id], m.table[id], m.clock) == t && |TreeBlocks(t)| <= m.capacity
    ensures PermittedFree(m, id, [])
    ensures Free(m, id, []) == m.(table := m.table - {id}, prompts := m.prompts - {id}, tree := t,
                                  clock := m.clock + if Slot(m.tree, [], m.prompts[id]).Some? then 1 else 0)
  {
    NoEviction(t);
    hide Inserted, TreeBlocks, Evictable, Remaining, Freed, WellFormed, Slot;
  }

  /** Freeing it leaves its block in the cache. */
  lemma FirstFree(k: Token)
    ensures Sound(Served(k)) && PermittedFree(Served(k), 1, []) && Free(Served(k), 1, []) == Cached(k)
      && Sound(Cached(k))
  {
    FirstAllocation(k);
    SoundCounted(Served(k));
    OneNodeFacts(k, [2]);
    var m := Served(k);
    hide Sound, OneNode, WellFormed, Inserted, TreeBlocks, Free, PermittedFree, Slot, EmptyTree;
    assert |multiset([2])| == 1;
    FreeIs(m, 1, OneNode(k, [2]));
    assert m.table - {1} == map[] && m.prompts - {1} == map[];
    FreeSound(m, 1, []);
  }

  lemma RunCons(m: Mem, op: Op, ops: seq<Op>)
    requires Sound(m) && Permitted(m, op) && Sound(Apply(m, op)) && Legal(Apply(m, op), ops)
    ensures Legal(m, [op] + ops) && After(m, [op] + ops) == After(Apply(m, op), ops)
  {
    hide Sound, Permitted, Apply;
    assert ([op] + ops)[0] == op && ([op] + ops)[1..] == ops;
  }

  /** The start of every run below: one request served and freed. */
  lemma AfterFirst(k: Token, ops: seq<Op>)
    requires Sound(Cached(k)) && Legal(Cached(k), ops)
    ensures Sound(Initial(1, 3))
    ensures var all := [OpAllocateWithPrefix(1, [k], [])] + ([OpFree(1, [])] + ops);
      Legal(Initial(1, 3), all) && After(Initial(1, 3), all) == After(Cached(k), ops)
  {
    FirstAllocation(k);
    FirstFree(k);
    hide Sound, PermittedAllocate, AllocateWithPrefix, PermittedFree, Free, Legal, After;
    RunCons(Served(k), OpFree(1, []), ops);
    RunCons(Initial(1, 3), OpAllocateWithPrefix(1, [k], []), [OpFree(1, [])] + ops);
  }

  ghost function Reused(k: Token): Mem {
    Mem(1, [0, 0, 2], [0, 1], map[2 := [2]], map[2 := [k]], Touched(OneNode(k, [2]), [k], 2), 1, 3)
  }

  lemma CachedHit(k: Token, rest: seq<Token>)
    ensures WellFormed(OneNode(k, [2])) && Walk(OneNode(k, [2]), [], [k] + rest) == [k]
    ensures Hit(Cached(k), [k] + rest) == [k] && HitBlocks(Cached(k), [k] + rest) == [2]
      && HitLength(Cached(k), [k] + rest) == 1
    ensures Pin(Cached(k), [k] + rest) == Reused(k).(table := map[], prompts := map[])
  {
    OneNodeFacts(k, [2]);
    var t, q := OneNode(k, [2]), [k] + rest;
    assert Child([], k) == [k];
    assert q[0] == k && [k] <= q;
    if rest != [] {
      assert Child([k], rest[0]) !in t;
      assert q[1..] == rest;
    }
    assert AddRefs([0, 0, 1], [2]) == [0, 0, 2];
  }

  /** An allocation in terms of its ingredients. */
  lemma AllocationIs(m: Mem, id: RequestId, prompt: seq<Token>, ps: seq<Path>, pinned: seq<BlockId>, n: nat, u: Mem)
    requires WellFormed(m.tree) && m.blockSize >= 1 && PermittedAllocate(m, prompt, ps)
    requires HitBlocks(m, prompt) == pinned && NewBlocksNeeded(m, prompt) == n && Prepared(m, prompt, ps) == u
    ensures AllocateWithPrefix(m, id, prompt, ps) ==
      if |u.free| < n then Allocation(Unpin(u, pinned), None)
      else Allocation(Take(u, id, pinned, n).(prompts := u.prompts[id := prompt]),
        Some((pinned + Popped(u.free, n), HitLength(m, prompt))))
  {
  }

  lemma SecondPrepared(k: Token)
    ensures Sound(Cached(k)) && PermittedAllocate(Cached(k), [k], [])
    ensures HitBlocks(Cached(k), [k]) == [2] && HitLength(Cached(k), [k]) == 1 && NewBlocksNeeded(Cached(k), [k]) == 0
    ensures Prepared(Cached(k), [k], []) == Reused(k).(table := map[], prompts := map[])
  {
    FirstFree(k);
    CachedHit(k, []);
    assert [k] + [] == [k];
    SoundCounted(Cached(k));
    hide Sound, WellFormed, Walk, OneNode, Touched, HitBlocks, HitLength, Hit, Pin, EvictRun;
  }

  lemma TakeNothing(m: Mem, id: RequestId, blocks: seq<BlockId>)
    ensures Take(m, id, blocks, 0) == m.(table := m.table[id := blocks])
    ensures blocks + Popped(m.free, 0) == blocks
  {
    assert blocks + Popped(m.free, 0) == blocks;
    assert SetOne(m.refs, []) == m.refs;
    assert m.free[..|m.free|] == m.free;
  }

  lemma SecondAllocation(k: Token)
    ensures Sound(Cached(k)) && PermittedAllocate(Cached(k), [k], [])
    ensures AllocateWithPrefix(Cached(k), 2, [k], []) == Allocation(Reused(k), Some(([2], 1))) && Sound(Reused(k))
  {
    SecondPrepared(k);
    SoundCounted(Cached(k));
    AllocateWithPrefixSound(Cached(k), 2, [k], []);
    var u := Reused(k).(table := map[], prompts := map[]);
    TakeNothing(u, 2, [2]);
    AllocationIs(Cached(k), 2, [k], [], [2], 0, u);
    hide Sound, Touched, OneNode, PermittedAllocate, Prepared, AllocateWithPrefix, Take, Counted, WellFormed;
  }

  /**
   * The same prompt served twice leaks: afterwards its block counts two references, of which only the cache's one is
   * held.
   */
  lemma ServingTwiceLeaks(k: Token) returns (ops: seq<Op>)
    ensures Sound(Initial(1, 3)) && Legal(Initial(1, 3), ops)
    ensures var u := After(Initial(1, 3), ops);
      u.table == map[] && u.refs == [0, 0, 2] && Held(u)[2] == 1 && Debt(u, multiset{}, 2) == 1
  {
    SecondFree(k);
    var u := Free(Reused(k), 2, []);
    SecondRun(k, u);
    ops := [OpAllocateWithPrefix(1, [k], [])]
      + ([OpFree(1, [])] + ([OpAllocateWithPrefix(2, [k], [])] + ([OpFree(2, [])] + [])));
    hide Sound, Legal, After, Free, PermittedFree, TreeBlocks;
    assert multiset([2])[2] == 1;
  }

  lemma StillFull(k: Token)
    ensures var t := Touched(OneNode(k, [2]), [k], 2);
      WellFormed(t) && TreeBlocks(t) == multiset([2]) && Slot(t, [], [k]) == None && Inserted(t, [k], [2], 3) == t
  {
    var t := OneNode(k, [2]);
    OneNodeFacts(k, [2]);
    TouchedKeepsContents(t, [k], 2);
    assert Child([], k) == [k];
    assert Slot(Touched(t, [k], 2), [], [k]) == None;
  }

  /** The cache already has the prompt, so the second request's reference to its block is lost. */
  lemma SecondFree(k: Token)
    ensures Sound(Reused(k)) && PermittedFree(Reused(k), 2, []) && Sound(Free(Reused(k), 2, []))
    ensures var u := Free(Reused(k), 2, []);
      u.table == map[] && u.refs == [0, 0, 2] && TreeBlocks(u.tree) == multiset([2])
  {
    SecondAllocation(k);
    StillFull(k);
    var m := Reused(k);
    hide Sound, OneNode, Touched, WellFormed, Inserted, TreeBlocks, Free, PermittedFree, Slot, AllocateWithPrefix,
         PermittedAllocate;
    assert |multiset([2])| == 1;
    FreeIs(m, 2, m.tree);
    assert m.table - {2} == map[];
    FreeSound(m, 2, []);
  }

  lemma SecondRun(k: Token, u: Mem)
    requires Sound(Reused(k)) && PermittedFree(Reused(k), 2, []) && u == Free(Reused(k), 2, []) && Sound(u)
    ensures var rest := [OpAllocateWithPrefix(2, [k], [])] + ([OpFree(2, [])] + []);
      var all := [OpAllocateWithPrefix(1, [k], [])] + ([OpFree(1, [])] + rest);
      Sound(Initial(1, 3)) && Legal(Initial(1, 3), all) && After(Initial(1, 3), all) == u
  {
    SecondAllocation(k);
    assert Legal(u, []) && After(u, []) == u;
    hide Sound, PermittedAllocate, AllocateWithPrefix, PermittedFree, Free, Legal, After;
    RunCons(Reused(k), OpFree(2, []), []);
    RunCons(Cached(k), OpAllocateWithPrefix(2, [k], []), [OpFree(2, [])] + []);
    AfterFirst(k, [OpAllocateWithPrefix(2, [k], [])] + ([OpFree(2, [])] + []));
  }

  lemma LongPrepared(k: Token, rest: seq<Token>)
    requires |rest| == 3
    ensures Sound(Cached(k)) && PermittedAllocate(Cached(k), [k] + rest, [[k]])
    ensures HitBlocks(Cached(k), [k] + rest) == [2] && NewBlocksNeeded(Cached(k), [k] + rest) == 3
    ensures var u := Prepared(Cached(k), [k] + rest, [[k]]);
      u.refs == [0, 0, 1] && u.free == [0, 1] && u.table == map[] && u.tree.Keys == {[]}
  {
    FirstFree(k);
    CachedHit(k, rest);
    OnlyLeafEvicted(k);
    OneReleased();
    SoundCounted(Cached(k));
    hide Sound, WellFormed, Walk, OneNode, HitBlocks, HitLength, Hit, Pin, EvictRun, Release, Freed, Remaining, Touched,
         Evictable;
  }

  lemma LongRefused(k: Token, rest: seq<Token>)
    requires |rest| == 3
    ensures Sound(Cached(k)) && PermittedAllocate(Cached(k), [k] + rest, [[k]])
    ensures var u := AllocateWithPrefix(Cached(k), 2, [k] + rest, [[k]]);
      u.result == None && u.mem.refs == [0, 0, 0] && u.mem.free == [0, 1] && u.mem.table == map[]
      && u.mem.tree.Keys == {[]} && Stranded(u.mem) == {2}
  {
    LongPrepared(k, rest);
    SoundCounted(Cached(k));
    var u := Prepared(Cached(k), [k] + rest, [[k]]);
    RolledBack(u);
    AllocationIs(Cached(k), 2, [k] + rest, [[k]], [2], 3, u);
    hide *;
  }

  /**
   * A rollback strands a block: after one request was served and freed, a long prompt hits the one cached node, pins
   * its block, evicts that very node, still lacks blocks and gives up; the block ends up uncounted and in no list.
   */
  lemma RollbackStrands(k: Token, rest: seq<Token>) returns (ops: seq<Op>)
    requires |rest| == 3
    ensures Sound(Initial(1, 3)) && Legal(Initial(1, 3), ops)
    ensures var u := After(Initial(1, 3), ops);
      u.refs == [0, 0, 0] && u.free == [0, 1] && u.table == map[] && u.tree.Keys == {[]} && Stranded(u) == {2}
  {
    LongRefused(k, rest);
    var op := OpAllocateWithPrefix(2, [k] + rest, [[k]]);
    AllocateWithPrefixSound(Cached(k), 2, [k] + rest, [[k]]);
    var u := Apply(Cached(k), op);
    assert Legal(u, []) && After(u, []) == u;
    hide Sound, PermittedAllocate, AllocateWithPrefix, Legal, After, Stranded;
    RunCons(Cached(k), op, []);
    AfterFirst(k, [op] + []);
    ops := [OpAllocateWithPrefix(1, [k], [])] + ([OpFree(1, [])] + ([op] + []));
  }

  lemma RolledBack(u: Mem)
    requires u.refs == [0, 0, 1] && u.free == [0, 1]
    ensures Unpin(u, [2]).refs == [0, 0, 0] && Stranded(Unpin(u, [2])) == {2}
  {
    assert SubRefs([0, 0, 1], [2]) == [0, 0, 0];
  }

  lemma OneReleased()
    ensures Release(Pool([0, 0, 2], [0, 1]), [2]) == Pool([0, 0, 1], [0, 1])
  {
    assert [2][..0] == [];
    assert SubRefs([0, 0, 2], [2]) == [0, 0, 1];
  }

  lemma TouchedBlocks(t: Trie, m: Path, clock: nat, p: Path)
    requires p in t
    ensures Touched(t, m, clock)[p].blocks == t[p].blocks
  {
  }

  lemma OneNodeKeys(k: Token)
    ensures OneNode(k, [2]).Keys == {[], [k]} && OneNode(k, [2])[[k]].blocks == [2]
  {
  }

  lemma TwoNodes(k: Token)
    ensures var t := Touched(OneNode(k, [2]), [k], 2);
      WellFormed(t) && t.Keys == {[], [k]} && t[[k]].blocks == [2]
  {
    OneNodeFacts(k, [2]);
    OneNodeKeys(k);
    hide WellFormed, Leaf, TreeBlocks, Label, PathBlocks, Slot, Inserted, Touched, OneNode;
    TouchedKeepsContents(OneNode(k, [2]), [k], 2);
    TouchedBlocks(OneNode(k, [2]), [k], 2, [k]);
  }

  lemma OnlyChoice(t: Trie, c: Path)
    requires WellFormed(t) && t.Keys == {[], c} && c != []
    ensures EvictChoice(t, c) && (t - {c}).Keys == {[]}
  {
    hide WellFormed, Leaf, OldestAmongLeafSiblings;
    var d := EvictChoiceExists(t);
    assert d in t.Keys && d != [];
  }

  lemma OnlyLeafChoice(k: Token)
    ensures var t := Touched(OneNode(k, [2]), [k], 2);
      WellFormed(t) && EvictChoice(t, [k]) && [k] in t && (t - {[k]}).Keys == {[]} && t[[k]].blocks == [2]
  {
    TwoNodes(k);
    hide WellFormed, Touched, OneNode, EvictChoice;
    OnlyChoice(Touched(OneNode(k, [2]), [k], 2), [k]);
  }

  lemma OnlyLeafEvicted(k: Token)
    ensures var t := Touched(OneNode(k, [2]), [k], 2);
      && EvictRun(t, 1, [[k]]) && Freed(t, [[k]]) == [2] && Remaining(t, [[k]]).Keys == {[]}
  {
    OnlyLeafChoice(k);
    var t := Touched(OneNode(k, [2]), [k], 2);
    hide EvictChoice, Touched, OneNode, TreeBlocks, WellFormed, Evictable, Freed, Remaining;
    NoEviction(t);
    EvictStep(t, [], [k]);
    assert [] + [[k]] == [[k]];
  }
}
