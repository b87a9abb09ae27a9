/** A run in which a request is refused although the cache holds all the blocks it lacks. */
module RefusalExamples {
  import opened Types
  import opened RadixTrie
  import opened BlockAccounting
  import opened BlockSafety
  import opened BlockRefusal
  import opened BlockRuns
  import opened BlockExamples

  /** A lookup that finds nothing pins nothing. */
  lemma MissPinsNothing(m: Mem, prompt: seq<Token>)
    requires WellFormed(m.tree) && m.blockSize >= 1 && prompt != [] && Child([], prompt[0]) !in m.tree
    ensures Hit(m, prompt) == [] && HitBlocks(m, prompt) == [] && HitLength(m, prompt) == 0 && Pin(m, prompt) == m
    ensures NewBlocksNeeded(m, prompt) == CeilDiv(|prompt|, m.blockSize)
  {
    LookupStarts(m.tree, m.clock);
    NothingPinned(m);
    assert Walk(m.tree, [], prompt) == [];
  }

  // ---------------------------------------------------------------- the states of the run

  ghost function First(a: Token): Mem {
    Mem(1, [0, 0, 0, 0, 0, 1], [0, 1, 2, 3, 4], map[1 := [5]], map[1 := [a]], EmptyTree(), 2, 1)
  }

  ghost function FirstCached(a: Token): Mem {
    First(a).(table := map[], prompts := map[], tree := OneNode(a, [5]), clock := 2)
  }

  ghost function Second(a: Token, b: Token): Mem {
    Mem(1, [0, 0, 0, 0, 1, 1], [0, 1, 2, 3], map[2 := [4]], map[2 := [b]], OneNode(a, [5]), 2, 2)
  }

  ghost function TwoLeaves(a: Token, b: Token): Trie {
    OneNode(a, [5])[[b] := Entry([b], [4], 2)]
  }

  ghost function BothCached(a: Token, b: Token): Mem {
    Second(a, b).(table := map[], prompts := map[], tree := TwoLeaves(a, b), clock := 3)
  }

  /** Allocating one block for a one-token prompt that is not cached. */
  lemma AllocateOne(m: Mem, id: RequestId, k: Token)
    requires Sound(m) && m.blockSize == 1 && [k] !in m.tree && |m.free| >= 1
    ensures PermittedAllocate(m, [k], [])
    ensures AllocateWithPrefix(m, id, [k], []) ==
      Allocation(Take(m, id, [], 1).(prompts := m.prompts[id := [k]]), Some((Popped(m.free, 1), 0)))
    ensures Sound(AllocateWithPrefix(m, id, [k], []).mem)
  {
    SoundFits(m);
    assert Child([], k) == [k];
    hide Sound, Counted, WellFormed, Prepared, PermittedAllocate, HitBlocks, HitLength, NewBlocksNeeded, Take, Popped;
    MissEvictsNothing(m, [k]);
    AllocationIs(m, id, [k], [], [], 1, m);
    assert [] + Popped(m.free, 1) == Popped(m.free, 1);
    AllocateWithPrefixSound(m, id, [k], []);
  }

  lemma TakeFirst(a: Token)
    ensures |Initial(1, 6).free| == 6 && Popped(Initial(1, 6).free, 1) == [5] && [a] !in Initial(1, 6).tree
    ensures Take(Initial(1, 6), 1, [], 1).(prompts := Initial(1, 6).prompts[1 := [a]]) == First(a)
  {
    var m := Initial(1, 6);
    assert m.free == [0, 1, 2, 3, 4, 5] && m.refs == [0, 0, 0, 0, 0, 0];
    assert Popped(m.free, 1) == [5] && SetOne(m.refs, [5]) == [0, 0, 0, 0, 0, 1];
    assert m.free[..5] == [0, 1, 2, 3, 4] && [] + [5] == [5];
    assert m.prompts[1 := [a]] == map[1 := [a]];
  }

  lemma TakeSecond(a: Token, b: Token)
    requires a != b
    ensures Popped(FirstCached(a).free, 1) == [4] && [b] !in FirstCached(a).tree
    ensures Take(FirstCached(a), 2, [], 1).(prompts := FirstCached(a).prompts[2 := [b]]) == Second(a, b)
  {
    var m := FirstCached(a);
    assert Popped(m.free, 1) == [4] && SetOne(m.refs, [4]) == [0, 0, 0, 0, 1, 1];
    assert m.free[..4] == [0, 1, 2, 3] && [] + [4] == [4];
    assert [a] != [b];
  }

  lemma Step1(a: Token)
    ensures Sound(Initial(1, 6)) && PermittedAllocate(Initial(1, 6), [a], []) && Sound(First(a))
    ensures AllocateWithPrefix(Initial(1, 6), 1, [a], []) == Allocation(First(a), Some(([5], 0)))
  {
    InitialSound(1, 6);
    TakeFirst(a);
    hide Sound, PermittedAllocate, AllocateWithPrefix, Take, Popped, First, Initial;
    SizeOfInitial();
    AllocateOne(Initial(1, 6), 1, a);
  }

  lemma SizeOfInitial()
    ensures Initial(1, 6).blockSize == 1 && |Initial(1, 6).free| == 6
  {
  }

  lemma Step2(a: Token)
    ensures Sound(First(a)) && PermittedFree(First(a), 1, []) && Free(First(a), 1, []) == FirstCached(a)
    ensures Sound(FirstCached(a))
  {
    Step1(a);
    SoundCounted(First(a));
    OneNodeFacts(a, [5]);
    var m := First(a);
    hide Sound, OneNode, WellFormed, Inserted, TreeBlocks, Free, PermittedFree, Slot, EmptyTree, AllocateWithPrefix,
         PermittedAllocate, Counted;
    assert |multiset([5])| == 1;
    FreeIs(m, 1, OneNode(a, [5]));
    assert m.table - {1} == map[] && m.prompts - {1} == map[];
    FreeSound(m, 1, []);
  }

  lemma Step3(a: Token, b: Token)
    requires a != b
    ensures Sound(FirstCached(a)) && PermittedAllocate(FirstCached(a), [b], []) && Sound(Second(a, b))
    ensures AllocateWithPrefix(FirstCached(a), 2, [b], []) == Allocation(Second(a, b), Some(([4], 0)))
  {
    Step2(a);
    TakeSecond(a, b);
    hide Sound, PermittedAllocate, AllocateWithPrefix, Take, Popped, Second, OneNode;
    AllocateOne(FirstCached(a), 2, b);
  }

  /** Depositing a one-token prompt beside others. */
  lemma FiledBeside(t: Trie, k: Token, blocks: seq<BlockId>, stamp: nat)
    requires WellFormed(t) && [k] !in t
    ensures var u := t[[k] := Entry([k], blocks, stamp)];
      && WellFormed(u) && u == Inserted(t, [k], blocks, stamp) && Slot(t, [], [k]).Some?
      && TreeBlocks(u) == TreeBlocks(t) + multiset(blocks)
  {
    hide WellFormed, TreeBlocks, Label, PathBlocks, Slot, Inserted, Leaf;
    assert Child([], k) == [k] && [k][0..] == [k];
    LookupStarts(t, 0);
    SlotStep(t, [], [k]);
    InsertedAt(t, [], k, [k], 0, blocks, stamp);
    InsertedFacts(t, [k], blocks, stamp);
  }

  lemma TwoLeavesFacts(a: Token, b: Token)
    requires a != b
    ensures var t := TwoLeaves(a, b);
      && WellFormed(OneNode(a, [5])) && WellFormed(t) && TreeBlocks(t) == multiset([5, 4])
      && t == Inserted(OneNode(a, [5]), [b], [4], 2) && Slot(OneNode(a, [5]), [], [b]).Some?
  {
    assert [a] != [b] && [b] !in OneNode(a, [5]);
    hide WellFormed, TreeBlocks, Label, PathBlocks, Slot, Inserted, Leaf, OneNode, EmptyTree;
    OneNodeFacts(a, [5]);
    FiledBeside(OneNode(a, [5]), b, [4], 2);
    assert multiset([5]) + multiset([4]) == multiset([5, 4]);
  }

  lemma Step4(a: Token, b: Token)
    requires a != b
    ensures Sound(Second(a, b)) && PermittedFree(Second(a, b), 2, []) && Free(Second(a, b), 2, []) == BothCached(a, b)
    ensures Sound(BothCached(a, b))
  {
    Step3(a, b);
    TwoLeavesFacts(a, b);
    var m := Second(a, b);
    hide Sound, OneNode, WellFormed, Inserted, TreeBlocks, Free, PermittedFree, Slot, TwoLeaves, AllocateWithPrefix,
         PermittedAllocate;
    assert |multiset([5, 4])| == |[5, 4]|;
    FreeIs(m, 2, TwoLeaves(a, b));
    assert m.table - {2} == map[] && m.prompts - {2} == map[];
    FreeSound(m, 2, []);
  }

  // ---------------------------------------------------------------- the refused call

  lemma TwoLeavesShape(a: Token, b: Token)
    requires a != b
    ensures var t := TwoLeaves(a, b);
      && t.Keys == {[], [a], [b]} && t[[a]].blocks == [5] && t[[a]].stamp < t[[b]].stamp
  {
    assert [a] != [b];
  }

  /** Of two leaves under the root the older one may be evicted. */
  lemma OlderOfTwo(t: Trie, a: Token, b: Token)
    requires t.Keys == {[], [a], [b]} && t[[a]].stamp < t[[b]].stamp
    ensures EvictChoice(t, [a])
  {
    assert Child([], a) == [a];
    forall k
      ensures Child([a], k) !in t
    {
      assert |Child([a], k)| == 2;
      assert Child([a], k) !in t.Keys;
    }
    assert Leaf(t, [a]);
    hide Leaf;
    forall j | Child([], j) in t
      ensures t[[a]].stamp <= t[Child([], j)].stamp
    {
      assert Child([], j) in t.Keys && Child([], j) != [];
    }
    LeafChildChoice(t, [], a);
  }

  lemma OlderLeaf(a: Token, b: Token)
    requires a != b
    ensures var t := TwoLeaves(a, b);
      WellFormed(t) && EvictChoice(t, [a]) && [a] in t && t[[a]].blocks == [5] && |TreeBlocks(t)| == 2
  {
    hide WellFormed, TreeBlocks, TwoLeaves, EvictChoice, Inserted, Slot, OneNode;
    TwoLeavesFacts(a, b);
    TwoLeavesShape(a, b);
    assert |multiset([5, 4])| == |[5, 4]|;
    OlderOfTwo(TwoLeaves(a, b), a, b);
  }

  lemma OneEvicted()
    ensures Release(Pool([0, 0, 0, 0, 1, 1], [0, 1, 2, 3]), [5]) == Pool([0, 0, 0, 0, 1, 0], [0, 1, 2, 3, 5])
  {
    assert [5][..0] == [];
    assert SubRefs([0, 0, 0, 0, 1, 1], [5]) == [0, 0, 0, 0, 1, 0];
  }

  ghost function Long(m: Mem, a: Token, b: Token): Mem {
    m.(tree := TwoLeaves(a, b) - {[a]}, refs := [0, 0, 0, 0, 1, 0], free := [0, 1, 2, 3, 5])
  }

  /** What the long prompt meets: nothing cached, too few free blocks, and the older leaf to be evicted. */
  lemma LongShort(a: Token, b: Token, prompt: seq<Token>)
    requires a != b && |prompt| == 6 && prompt[0] != a && prompt[0] != b
    ensures var m := BothCached(a, b);
      && Sound(m) && WellFormed(m.tree) && HitBlocks(m, prompt) == [] && NewBlocksNeeded(m, prompt) == 6
      && PermittedAllocate(m, prompt, [[a]]) && Prepared(m, prompt, [[a]]) == Long(m, a, b)
  {
    Step4(a, b);
    OlderLeaf(a, b);
    OneEvicted();
    var m := BothCached(a, b);
    assert Child([], prompt[0]) == [prompt[0]] && [prompt[0]] != [a] && [prompt[0]] != [b];
    assert Child([], prompt[0]) !in m.tree;
    hide Sound, WellFormed, TreeBlocks, EvictChoice, TwoLeaves, Release, Pin, HitBlocks, HitLength, NewBlocksNeeded,
         Prepared, Free, PermittedFree, EvictRun, Leaf;
    MissPinsNothing(m, prompt);
    SingleEviction(m.tree, 2, [a]);
    PreparedIs(m, prompt, [[a]]);
  }

  lemma Refused(a: Token, b: Token, prompt: seq<Token>)
    requires a != b && |prompt| == 6 && prompt[0] != a && prompt[0] != b
    ensures var m := BothCached(a, b);
      && Sound(m) && PermittedAllocate(m, prompt, [[a]])
      && AllocateWithPrefix(m, 3, prompt, [[a]]) == Allocation(Long(m, a, b), None)
  {
    LongShort(a, b, prompt);
    var m := BothCached(a, b);
    AllocationIs(m, 3, prompt, [[a]], [], 6, Long(m, a, b));
    NothingPinned(Long(m, a, b));
    hide Sound, WellFormed, Prepared, PermittedAllocate, AllocateWithPrefix, TwoLeaves, HitBlocks, NewBlocksNeeded;
  }

  lemma BothSolelyCached(m: Mem, prompt: seq<Token>)
    requires WellFormed(m.tree) && TreeBlocks(m.tree) == multiset([5, 4]) && HitBlocks(m, prompt) == []
    requires m.refs == [0, 0, 0, 0, 1, 1]
    ensures WholeCache(m, prompt) == {4, 5} && |WholeCache(m, prompt)| == 2
  {
    hide WellFormed, TreeBlocks, HitBlocks;
    var none: seq<BlockId> := [];
    assert multiset(none) == multiset{};
    assert multiset([5, 4])[4] == 1 && multiset([5, 4])[5] == 1;
    assert WholeCache(m, prompt) == {4, 5};
  }

  /**
   * The call refuses although the whole cache would suffice: after evicting `ps` it gives up, while node `q` remains,
   * whose blocks have no other references and are all that is missing.
   */
  ghost predicate RefusesNeedlessly(m: Mem, id: RequestId, prompt: seq<Token>, ps: seq<Path>, q: Path)
    requires Sound(m)
  {
    && CacheSuffices(m, prompt)
    && PermittedAllocate(m, prompt, ps)
    && var a := AllocateWithPrefix(m, id, prompt, ps);
      && a.result == None && q in a.mem.tree
      && |a.mem.free| + |a.mem.tree[q].blocks| >= NewBlocksNeeded(m, prompt)
      && NoDup(a.mem.tree[q].blocks) && forall b | b in a.mem.tree[q].blocks :: RefAt(a.mem.refs, b) == 1
  }

  lemma OtherLeafStays(a: Token, b: Token)
    requires a != b
    ensures [b] in TwoLeaves(a, b) - {[a]} && (TwoLeaves(a, b) - {[a]})[[b]].blocks == [4]
  {
    assert [a] != [b];
  }

  lemma NeedlessIs(m: Mem, u: Mem, id: RequestId, prompt: seq<Token>, ps: seq<Path>, q: Path)
    requires Sound(m) && CacheSuffices(m, prompt) && NewBlocksNeeded(m, prompt) == 6
    requires PermittedAllocate(m, prompt, ps) && AllocateWithPrefix(m, id, prompt, ps) == Allocation(u, None)
    requires u.refs == [0, 0, 0, 0, 1, 0] && |u.free| == 5 && q in u.tree && u.tree[q].blocks == [4]
    ensures RefusesNeedlessly(m, id, prompt, ps, q)
  {
    hide Sound, CacheSuffices, NewBlocksNeeded, PermittedAllocate, AllocateWithPrefix;
  }

  lemma SufficesIs(m: Mem, prompt: seq<Token>)
    requires WellFormed(m.tree) && m.blockSize >= 1 && |m.free| == 4 && |WholeCache(m, prompt)| == 2
    requires NewBlocksNeeded(m, prompt) == 6
    ensures CacheSuffices(m, prompt)
  {
  }

  lemma NeedlessCall(a: Token, b: Token, prompt: seq<Token>)
    requires a != b && |prompt| == 6 && prompt[0] != a && prompt[0] != b
    ensures Sound(BothCached(a, b)) && RefusesNeedlessly(BothCached(a, b), 3, prompt, [[a]], [b])
  {
    Refused(a, b, prompt);
    LongShort(a, b, prompt);
    TwoLeavesFacts(a, b);
    OtherLeafStays(a, b);
    var m, u := BothCached(a, b), Long(BothCached(a, b), a, b);
    assert m.refs == [0, 0, 0, 0, 1, 1] && |m.free| == 4 && m.blockSize == 1 && m.tree == TwoLeaves(a, b);
    assert u.refs == [0, 0, 0, 0, 1, 0] && |u.free| == 5 && u.tree == TwoLeaves(a, b) - {[a]};
    hide Sound, WellFormed, TreeBlocks, HitBlocks, NewBlocksNeeded, PermittedAllocate, AllocateWithPrefix, WholeCache,
         TwoLeaves, Inserted, Slot, OneNode, Prepared, BothCached, Long, CacheSuffices, RefusesNeedlessly;
    BothSolelyCached(m, prompt);
    SufficesIs(m, prompt);
    NeedlessIs(m, u, 3, prompt, [[a]], [b]);
  }

  lemma EmptyRun(m: Mem)
    requires Sound(m)
    ensures Legal(m, []) && After(m, []) == m
  {
  }

  /**
   * A needless refusal: after `[a]` and `[b]` were served and cached, a new prompt of six tokens finds four free
   * blocks. The call evicts one of the two cached nodes, still lacks a block and gives up, while the other node's
   * block, held by the cache alone, would have been enough.
   */
  lemma RefusedNeedlessly(a: Token, b: Token, prompt: seq<Token>) returns (ops: seq<Op>)
    requires a != b && |prompt| == 6 && prompt[0] != a && prompt[0] != b
    ensures Sound(Initial(1, 6)) && Legal(Initial(1, 6), ops)
    ensures RefusesNeedlessly(After(Initial(1, 6), ops), 3, prompt, [[a]], [b])
  {
    hide Sound, PermittedAllocate, AllocateWithPrefix, PermittedFree, Free, Legal, After, Initial, First, FirstCached,
         Second, BothCached, RefusesNeedlessly;
    NeedlessCall(a, b, prompt);
    Step1(a);
    Step2(a);
    Step3(a, b);
    Step4(a, b);
    EmptyRun(BothCached(a, b));
    var e1, e2 := OpAllocateWithPrefix(1, [a], []), OpFree(1, []);
    var e3, e4 := OpAllocateWithPrefix(2, [b], []), OpFree(2, []);
    BlockExamples.RunCons(Second(a, b), e4, []);
    BlockExamples.RunCons(FirstCached(a), e3, [e4] + []);
    BlockExamples.RunCons(First(a), e2, [e3] + ([e4] + []));
    BlockExamples.RunCons(Initial(1, 6), e1, [e2] + ([e3] + ([e4] + [])));
    ops := [e1] + ([e2] + ([e3] + ([e4] + [])));
  }
}
