/**
 * When an allocation is refused, what the refusal loses, and how often it can happen; all in terms of the state before
 * the call.
 */
module BlockRefusal {
  import opened Types
  import opened Holdings
  import opened RadixTrie
  import opened BlockAccounting
  import opened BlockSafety

  // ---------------------------------------------------------------- one eviction per call

  lemma EvictionShrinks(t: Trie, ps: seq<Path>)
    requires WellFormed(t) && Evictable(t, ps)
    ensures |TreeBlocks(Remaining(t, ps))| <= |TreeBlocks(t)|
  {
    EvictionFacts(t, ps);
    assert |TreeBlocks(t)| == |TreeBlocks(Remaining(t, ps))| + |multiset(Freed(t, ps))|;
  }

  /**
   * In a cache that fits, `evict_lru` stops after its first removal; it removes nothing only if there is nothing to
   * remove.
   */
  lemma FittingEvictsOnce(t: Trie, capacity: nat, ps: seq<Path>)
    requires WellFormed(t) && EvictRun(t, capacity, ps) && |TreeBlocks(t)| <= capacity
    ensures |ps| <= 1
    ensures ps == [] ==> t.Keys == {[]}
    ensures ps != []
      ==> EvictChoice(t, ps[0]) && ps[0] in t && Remaining(t, ps) == t - {ps[0]} && Freed(t, ps) == t[ps[0]].blocks
  {
    if |ps| > 1 {
      PrefixEvictable(t, ps, 1);
      EvictionShrinks(t, ps[..1]);
    } else if ps != [] {
      assert ps[..0] == [];
      assert [] + t[ps[0]].blocks == t[ps[0]].blocks;
    }
  }

  /** The state between pinning and deciding: nothing evicted, or exactly one leaf. */
  lemma PreparedIs(m: Mem, prompt: seq<Token>, ps: seq<Path>)
    requires Sound(m) && PermittedAllocate(m, prompt, ps)
    ensures |ps| <= 1
    ensures ps == [] ==> Prepared(m, prompt, ps) == Pin(m, prompt) && (MustEvict(m, prompt) ==> m.tree.Keys == {[]})
    ensures ps != [] ==>
      && MustEvict(m, prompt) && EvictChoice(Pin(m, prompt).tree, ps[0]) && ps[0] in m.tree && ps[0] != []
        && Leaf(m.tree, ps[0])
      && var pool := Release(Pool(Pin(m, prompt).refs, m.free), m.tree[ps[0]].blocks);
        Prepared(m, prompt, ps)
          == Pin(m, prompt).(tree := Pin(m, prompt).tree - {ps[0]}, refs := pool.refs, free := pool.free)
  {
    hide WellFormed, Label, PathBlocks, Walk, EvictRun, Evictable, Remaining, Freed, TreeBlocks, AddRefs,
         OldestAmongLeafSiblings, NoLeafChild;
    SoundFits(m);
    var u, t := Pin(m, prompt), Pin(m, prompt).tree;
    TouchedKeepsContents(m.tree, Hit(m, prompt), m.clock);
    if MustEvict(m, prompt) {
      FittingEvictsOnce(t, m.capacity, ps);
      EvictRunPermits(t, m.capacity, ps);
      if ps == [] {
        NoEviction(t);
      } else {
        assert t[ps[0]].blocks == m.tree[ps[0]].blocks;
        assert Leaf(m.tree, ps[0]) by {
          assert forall k :: Child(ps[0], k) in t <==> Child(ps[0], k) in m.tree;
        }
      }
    }
  }

  lemma SoundFits(m: Mem)
    requires Sound(m)
    ensures WellFormed(m.tree) && m.blockSize >= 1 && |TreeBlocks(m.tree)| <= m.capacity && FreeList(m.refs, m.free)
    ensures forall b: BlockId :: Held(m)[b] <= RefAt(m.refs, b)
  {
    hide Held, WellFormed, StampsBelow, TreeBlocks, FreeList;
    forall b: BlockId
      ensures Held(m)[b] <= RefAt(m.refs, b)
    {
      assert Debt(m, multiset{}, b) >= 0;
    }
  }

  // ---------------------------------------------------------------- when an allocation is refused

  /**
   * Blocks that evicting node `p` would return to the free list: all their references are the node's own, the lookup
   * pinning none.
   */
  ghost function Releasable(m: Mem, prompt: seq<Token>, p: Path): set<BlockId>
    requires WellFormed(m.tree) && p in m.tree
  {
    var blocks: seq<BlockId> := m.tree[p].blocks;
    set b | b in blocks && RefAt(m.refs, b) + multiset(HitBlocks(m, prompt))[b] == multiset(blocks)[b]
  }

  lemma ReleaseCount(pool: Pool, bs: seq<BlockId>)
    requires FreeList(pool.refs, pool.free) && forall b: BlockId :: multiset(bs)[b] <= RefAt(pool.refs, b)
    ensures |Release(pool, bs).free| == |pool.free| + |set b | b in bs && RefAt(pool.refs, b) == multiset(bs)[b]|
  {
    hide Release, RefAt;
    ReleaseFacts(pool, bs);
    var r, zeroed := Release(pool, bs), set b | b in bs && RefAt(pool.refs, b) == multiset(bs)[b];
    DistinctCount(pool.free);
    DistinctCount(r.free);
    assert Elements(pool.free) !! zeroed by {
      FreeUncounted(pool);
    }
    assert Elements(r.free) == Elements(pool.free) + zeroed;
  }

  lemma FreeUncounted(pool: Pool)
    requires FreeList(pool.refs, pool.free)
    ensures forall b | b in pool.free :: RefAt(pool.refs, b) == 0
  {
  }

  /** After pinning, the references to a node's blocks are at least the node's own. */
  lemma PinnedNode(m: Mem, prompt: seq<Token>, p: Path)
    requires Sound(m) && p in m.tree && p != [] && Leaf(m.tree, p)
    ensures forall b: BlockId :: multiset(m.tree[p].blocks)[b] <= RefAt(m.refs, b)
    ensures forall b: BlockId :: b in m.tree[p].blocks ==>
      RefAt(Pin(m, prompt).refs, b) == RefAt(m.refs, b) + multiset(HitBlocks(m, prompt))[b]
    ensures forall b: BlockId :: RefAt(Pin(m, prompt).refs, b) >= RefAt(m.refs, b)
  {
    hide WellFormed, TreeBlocks, HitBlocks, FreeList, Touched, Walk, Label;
    SoundFits(m);
    RemoveLeafFacts(m.tree, p);
    var blocks: seq<BlockId> := m.tree[p].blocks;
    forall b: BlockId
      ensures multiset(blocks)[b] <= RefAt(m.refs, b)
      ensures b in blocks ==> b < |m.refs|
    {
      assert Held(m)[b] <= RefAt(m.refs, b);
      assert b in blocks ==> multiset(blocks)[b] > 0;
    }
  }

  /** The free blocks there are once the call has evicted what it evicts. */
  lemma PreparedFree(m: Mem, prompt: seq<Token>, ps: seq<Path>)
    requires Sound(m) && PermittedAllocate(m, prompt, ps)
    ensures |ps| <= 1 && (ps != [] ==> ps[0] in m.tree)
    ensures |Prepared(m, prompt, ps).free| == |m.free| + if ps == [] then 0 else |Releasable(m, prompt, ps[0])|
  {
    hide WellFormed, TreeBlocks, HitBlocks, FreeList, Touched, EvictChoice, Release, PermittedAllocate, Prepared;
    SoundFits(m);
    PreparedIs(m, prompt, ps);
    if ps != [] {
      var p, u := ps[0], Pin(m, prompt);
      var blocks: seq<BlockId> := m.tree[p].blocks;
      PinnedNode(m, prompt, p);
      PinSound(m, prompt);
      CountedFreeList(u, multiset(HitBlocks(m, prompt)));
      ReleaseCount(Pool(u.refs, u.free), blocks);
      assert (set b | b in blocks && RefAt(u.refs, b) == multiset(blocks)[b]) == Releasable(m, prompt, p);
    }
  }

  lemma CountedFreeList(m: Mem, pins: multiset<BlockId>)
    requires Counted(m, pins)
    ensures FreeList(m.refs, m.free)
  {
  }

  /** Free blocks, and those that the evicted leaf, if any, would release. */
  ghost function Obtainable(m: Mem, prompt: seq<Token>, ps: seq<Path>): nat
    requires WellFormed(m.tree)
  {
    |m.free| + if ps != [] && ps[0] in m.tree then |Releasable(m, prompt, ps[0])| else 0
  }

  /**
   * When an allocation is refused: exactly when the free blocks, and those that the one evicted leaf releases, are
   * fewer than the uncached rest of the prompt needs, however much else the cache could give back.
   */
  lemma RefusedIff(m: Mem, id: RequestId, prompt: seq<Token>, ps: seq<Path>)
    requires Sound(m) && PermittedAllocate(m, prompt, ps)
    ensures |ps| <= 1 && (ps != [] ==> ps[0] in m.tree)
    ensures AllocateWithPrefix(m, id, prompt, ps).result.None?
      <==> Obtainable(m, prompt, ps) < NewBlocksNeeded(m, prompt)
  {
    hide PermittedAllocate, Prepared, Sound, Releasable, HitBlocks, NewBlocksNeeded;
    PreparedFree(m, prompt, ps);
  }

  // ---------------------------------------------------------------- what a refusal loses

  /** Evicting the very node that was hit releases nothing: its blocks are pinned. */
  lemma HitReleasesNothing(m: Mem, prompt: seq<Token>)
    requires Sound(m) && Hit(m, prompt) in m.tree && Hit(m, prompt) != [] && Leaf(m.tree, Hit(m, prompt))
    ensures Releasable(m, prompt, Hit(m, prompt)) == {}
  {
    var p := Hit(m, prompt);
    SoundFits(m);
    ParentIn(m.tree, p);
    PinnedNode(m, prompt, p);
    hide WellFormed, Walk, Label, Sound, Leaf, RefAt;
    var blocks: seq<BlockId> := m.tree[p].blocks;
    assert HitBlocks(m, prompt) == PathBlocks(m.tree, Parent(p)) + blocks;
    forall b | b in blocks
      ensures RefAt(m.refs, b) >= multiset(blocks)[b] > 0 && multiset(HitBlocks(m, prompt))[b] >= multiset(blocks)[b]
    {
      assert b in multiset(blocks);
    }
  }

  /** All references to some block of the node are the node's own. */
  ghost predicate SoleHolder(m: Mem, p: Path)
    requires p in m.tree
  {
    exists b :: b in m.tree[p].blocks && RefAt(m.refs, b) == multiset(m.tree[p].blocks)[b]
  }

  lemma PinnedBlocks(m: Mem, prompt: seq<Token>, b: BlockId)
    requires Sound(m)
    ensures Hit(m, prompt) in m.tree
      && multiset(HitBlocks(m, prompt))[b] <= TreeBlocks(m.tree)[b] <= Held(m)[b] <= RefAt(m.refs, b)
  {
    SoundFits(m);
    WalkEnds(m.tree, prompt);
    PathBlocksHeld(m.tree, Hit(m, prompt));
  }

  /** Without the leaf `p` the cache still holds all that was pinned, unless `p` was the hit. */
  lemma OtherLeafEvicted(m: Mem, prompt: seq<Token>, p: Path, b: BlockId)
    requires Sound(m) && p in m.tree && p != [] && Leaf(m.tree, p) && p != Hit(m, prompt) && b in HitBlocks(m, prompt)
    ensures TreeBlocks(m.tree - {p})[b] > 0
  {
    SoundFits(m);
    PinnedBlocks(m, prompt, b);
    RemoveLeafFacts(m.tree, p);
    PathBlocksHeld(m.tree - {p}, Hit(m, prompt));
    assert b in multiset(HitBlocks(m, prompt));
  }

  lemma SameStore(t: Trie, u: Trie)
    requires t.Keys == u.Keys && forall p | p in t :: t[p].blocks == u[p].blocks
    ensures TreeBlocks(t) == TreeBlocks(u)
  {
    assert Store(t) == Store(u);
  }

  lemma LeftInCache(m: Mem, prompt: seq<Token>, ps: seq<Path>, b: BlockId)
    requires Sound(m) && PermittedAllocate(m, prompt, ps)
    ensures |ps| <= 1 && (ps != [] ==> ps[0] in m.tree)
    ensures Held(Prepared(m, prompt, ps))[b] + (if ps == [] then 0 else multiset(m.tree[ps[0]].blocks)[b]) == Held(m)[b]
    ensures ps != [] ==> Held(Prepared(m, prompt, ps))[b] == Total(m.table)[b] + TreeBlocks(m.tree - {ps[0]})[b]
    ensures Debt(Prepared(m, prompt, ps), multiset(HitBlocks(m, prompt)), b) == RefAt(m.refs, b) - Held(m)[b]
  {
    hide WellFormed, HitBlocks, Walk, Label, FreeList, EvictChoice, Release, PermittedAllocate, Prepared, TreeBlocks,
         Total, Touched;
    SoundFits(m);
    PreparedIs(m, prompt, ps);
    PreparedSound(m, prompt, ps);
    var t, u := m.tree, Pin(m, prompt).tree;
    TouchedKeepsContents(t, Hit(m, prompt), m.clock);
    if ps != [] {
      RemoveLeafFacts(t, ps[0]);
      TouchedEntries(t, Hit(m, prompt), m.clock);
      SameStore(t - {ps[0]}, u - {ps[0]});
    }
    assert Debt(m, multiset{}, b) == RefAt(m.refs, b) - Held(m)[b];
  }

  lemma TouchedEntries(t: Trie, m: Path, clock: nat)
    ensures forall p | p in t :: Touched(t, m, clock)[p].blocks == t[p].blocks
  {
  }

  lemma LostIsHit(m: Mem, prompt: seq<Token>, ps: seq<Path>, b: BlockId)
    requires Sound(m) && PermittedAllocate(m, prompt, ps)
    ensures Hit(m, prompt) in m.tree
    ensures b in LostByRollback(m, prompt, ps) <==>
      ps == [Hit(m, prompt)] && b in m.tree[Hit(m, prompt)].blocks
        && RefAt(m.refs, b) == multiset(m.tree[Hit(m, prompt)].blocks)[b]
  {
    hide WellFormed, Walk, Label, FreeList, EvictChoice, Release, PermittedAllocate, Prepared, TreeBlocks, Total, Held,
         Debt, Sound, PathBlocks;
    SoundFits(m);
    PreparedIs(m, prompt, ps);
    PinnedBlocks(m, prompt, b);
    LeftInCache(m, prompt, ps, b);
    var p, pinned: seq<BlockId> := Hit(m, prompt), HitBlocks(m, prompt);
    assert b in pinned <==> multiset(pinned)[b] > 0;
    if ps != [] && ps[0] != p && b in pinned {
      OtherLeafEvicted(m, prompt, ps[0], b);
    }
    if ps == [p] {
      HitEndsWithNode(m, prompt);
      var blocks: seq<BlockId> := m.tree[p].blocks;
      assert b in blocks <==> multiset(blocks)[b] > 0;
      LeafHolds(m, p, b);
    }
  }

  lemma LeafHolds(m: Mem, p: Path, b: BlockId)
    requires Sound(m) && p in m.tree && p != [] && Leaf(m.tree, p)
    ensures multiset(m.tree[p].blocks)[b] <= Held(m)[b] <= RefAt(m.refs, b)
  {
    SoundFits(m);
    RemoveLeafFacts(m.tree, p);
  }

  lemma HitEndsWithNode(m: Mem, prompt: seq<Token>)
    requires Sound(m) && Hit(m, prompt) in m.tree && Hit(m, prompt) != []
    ensures forall b | b in m.tree[Hit(m, prompt)].blocks :: b in HitBlocks(m, prompt)
  {
    SoundFits(m);
    ParentIn(m.tree, Hit(m, prompt));
  }

  /**
   * When an allocation strands blocks, for each eviction the cache may choose: exactly when it evicts the very node the
   * lookup ended at and some block of that node has no other reference. Such a call is always refused.
   */
  lemma RollbackStrandsIff(m: Mem, id: RequestId, prompt: seq<Token>, ps: seq<Path>)
    requires Sound(m) && PermittedAllocate(m, prompt, ps)
    ensures Hit(m, prompt) in m.tree
    ensures var a := AllocateWithPrefix(m, id, prompt, ps);
      && (Stranded(a.mem) != Stranded(m) <==> ps == [Hit(m, prompt)] && SoleHolder(m, Hit(m, prompt)))
      && (ps == [Hit(m, prompt)] ==> a.result == None)
  {
    hide WellFormed, Walk, Label, EvictChoice, PermittedAllocate, Sound, Stranded, Releasable, NewBlocksNeeded;
    SoundFits(m);
    var p := Hit(m, prompt);
    PinnedBlocks(m, prompt, 0);
    PreparedIs(m, prompt, ps);
    AllocateWithPrefixSound(m, id, prompt, ps);
    if ps == [p] {
      HitReleasesNothing(m, prompt);
      RefusedIff(m, id, prompt, ps);
    }
    hide AllocateWithPrefix, LostByRollback;
    forall b
      ensures b in LostByRollback(m, prompt, ps)
        <==> ps == [p] && b in m.tree[p].blocks && RefAt(m.refs, b) == multiset(m.tree[p].blocks)[b]
      ensures b in LostByRollback(m, prompt, ps) ==> b !in Stranded(m)
    {
      LostIsHit(m, prompt, ps, b);
      CountedNotStranded(m, b);
    }
  }

  lemma CountedNotStranded(m: Mem, b: BlockId)
    ensures RefAt(m.refs, b) > 0 ==> b !in Stranded(m)
  {
  }

  // ---------------------------------------------------------------- known before the call

  /** `p` is the only leaf that a search from the root can come to. */
  ghost predicate OnlyLeafOnWay(t: Trie, p: Path) {
    && p in t && p != [] && Leaf(t, p)
    && (forall k | Child(Parent(p), k) in t && Leaf(t, Child(Parent(p), k)) :: Child(Parent(p), k) == p)
    && forall i | 0 <= i < |p| - 1 :: NoLeafChild(t, p[..i])
  }

  lemma TouchedLeaves(t: Trie, m: Path, clock: nat)
    ensures forall p :: Leaf(Touched(t, m, clock), p) <==> Leaf(t, p)
    ensures forall p :: NoLeafChild(Touched(t, m, clock), p) <==> NoLeafChild(t, p)
  {
    var u := Touched(t, m, clock);
    forall p
      ensures Leaf(u, p) <==> Leaf(t, p)
    {
      assert forall k :: Child(p, k) in u <==> Child(p, k) in t;
    }
    forall p
      ensures NoLeafChild(u, p) <==> NoLeafChild(t, p)
    {
      assert forall k :: Child(p, k) in u <==> Child(p, k) in t;
    }
  }

  /**
   * A node that was just hit is an admissible eviction only when there is no other: it is younger than all its
   * siblings.
   */
  lemma HitEvictableIff(t: Trie, m: Path, clock: nat)
    requires WellFormed(t) && StampsBelow(t, clock)
    ensures EvictChoice(Touched(t, m, clock), m) <==> OnlyLeafOnWay(t, m)
  {
    hide WellFormed, Touched, NoLeafChild, Leaf;
    TouchedLeaves(t, m, clock);
    var u := Touched(t, m, clock);
    if EvictChoice(u, m) {
      forall k | Child(Parent(m), k) in t && Leaf(t, Child(Parent(m), k))
        ensures Child(Parent(m), k) == m
      {
        ParentOfChild(Parent(m), k);
        if Child(Parent(m), k) != m {
          HitOutlivesSibling(t, m, clock, Child(Parent(m), k));
        }
      }
    }
  }

  lemma SoundStamps(m: Mem)
    requires Sound(m)
    ensures StampsBelow(m.tree, m.clock)
  {
  }

  lemma SingleEviction(t: Trie, capacity: nat, p: Path)
    requires WellFormed(t) && EvictChoice(t, p) && |TreeBlocks(t)| <= capacity
    ensures EvictRun(t, capacity, [p])
  {
    hide EvictChoice, WellFormed, TreeBlocks;
    NoEviction(t);
    EvictStep(t, [], p);
    assert [] + [p] == [p];
    EvictionShrinks(t, [p]);
  }

  /** The same before the call, over all choices: it can strand blocks exactly under these three conditions. */
  lemma CanStrandIff(m: Mem, id: RequestId, prompt: seq<Token>)
    requires Sound(m)
    ensures Hit(m, prompt) in m.tree
    ensures (exists ps ::
               PermittedAllocate(m, prompt, ps) && Stranded(AllocateWithPrefix(m, id, prompt, ps).mem) != Stranded(m))
        <==> MustEvict(m, prompt) && OnlyLeafOnWay(m.tree, Hit(m, prompt)) && SoleHolder(m, Hit(m, prompt))
  {
    hide WellFormed, Walk, Label, EvictRun, EvictChoice, Stranded, AllocateWithPrefix, SoleHolder, StampsBelow,
         OnlyLeafOnWay, MustEvict, TreeBlocks, Touched;
    SoundFits(m);
    SoundStamps(m);
    var p := Hit(m, prompt);
    PinnedBlocks(m, prompt, 0);
    HitEvictableIff(m.tree, p, m.clock);
    forall ps | PermittedAllocate(m, prompt, ps)
      ensures Stranded(AllocateWithPrefix(m, id, prompt, ps).mem) != Stranded(m) <==> ps == [p] && SoleHolder(m, p)
      ensures ps == [p] ==> MustEvict(m, prompt) && OnlyLeafOnWay(m.tree, p)
    {
      RollbackStrandsIff(m, id, prompt, ps);
      PreparedIs(m, prompt, ps);
    }
    if MustEvict(m, prompt) && OnlyLeafOnWay(m.tree, p) {
      TouchedKeepsContents(m.tree, p, m.clock);
      SingleEviction(Touched(m.tree, p, m.clock), m.capacity, p);
      assert PermittedAllocate(m, prompt, [p]);
    }
  }

  /** Some leaf that the eviction may pick leaves the call short of blocks; so does a cache with nothing to evict. */
  ghost predicate ShortVictim(m: Mem, prompt: seq<Token>)
    requires WellFormed(m.tree) && m.blockSize >= 1
  {
    || m.tree.Keys == {[]}
    || exists p :: p in m.tree && EvictChoice(Pin(m, prompt).tree, p)
                   && |m.free| + |Releasable(m, prompt, p)| < NewBlocksNeeded(m, prompt)
  }

  /** A refusal known before the call, over all choices of the eviction. */
  lemma CanBeRefusedIff(m: Mem, id: RequestId, prompt: seq<Token>)
    requires Sound(m)
    ensures (exists ps ::
               PermittedAllocate(m, prompt, ps) && AllocateWithPrefix(m, id, prompt, ps).result.None?)
        <==> MustEvict(m, prompt) && ShortVictim(m, prompt)
  {
    hide WellFormed, EvictRun, EvictChoice, AllocateWithPrefix, Releasable, TreeBlocks, Touched, Walk, Label,
         PathBlocks, AddRefs;
    SoundFits(m);
    TouchedKeepsContents(m.tree, Hit(m, prompt), m.clock);
    var t := Pin(m, prompt).tree;
    forall ps | PermittedAllocate(m, prompt, ps) && AllocateWithPrefix(m, id, prompt, ps).result.None?
      ensures MustEvict(m, prompt) && ShortVictim(m, prompt)
    {
      RefusedIff(m, id, prompt, ps);
      PreparedIs(m, prompt, ps);
    }
    if MustEvict(m, prompt) && m.tree.Keys == {[]} {
      NoEviction(t);
      NoRun(t, m.capacity);
      RefusedIff(m, id, prompt, []);
    } else if MustEvict(m, prompt) && ShortVictim(m, prompt) {
      var p :| p in m.tree && EvictChoice(t, p) && |m.free| + |Releasable(m, prompt, p)| < NewBlocksNeeded(m, prompt);
      SingleEviction(t, m.capacity, p);
      assert PermittedAllocate(m, prompt, [p]);
      RefusedIff(m, id, prompt, [p]);
    }
  }

  lemma NoRun(t: Trie, capacity: nat)
    requires t.Keys == {[]}
    ensures EvictRun(t, capacity, [])
  {
  }

  // ---------------------------------------------------------------- refused although the cache could have helped

  /**
   * Blocks that giving up the whole cache would free: all their references are the cache's, the lookup pinning none.
   */
  ghost function WholeCache(m: Mem, prompt: seq<Token>): set<BlockId>
    requires WellFormed(m.tree)
  {
    set b | b in TreeBlocks(m.tree) && RefAt(m.refs, b) + multiset(HitBlocks(m, prompt))[b] == TreeBlocks(m.tree)[b]
  }

  /** Evicting all nodes, had the call gone on, would have provided the blocks. */
  ghost predicate CacheSuffices(m: Mem, prompt: seq<Token>)
    requires WellFormed(m.tree) && m.blockSize >= 1
  {
    |m.free| + |WholeCache(m, prompt)| >= NewBlocksNeeded(m, prompt)
  }

  /**
   * What `WholeCache` counts: after pinning, evictions down to the root would leave exactly that many more free blocks.
   */
  lemma WholeCacheReleased(m: Mem, prompt: seq<Token>, ps: seq<Path>)
    requires Sound(m) && Evictable(Pin(m, prompt).tree, ps) && Remaining(Pin(m, prompt).tree, ps).Keys == {[]}
    ensures |Reclaim(Pin(m, prompt), ps).free| == |m.free| + |WholeCache(m, prompt)|
  {
    hide WellFormed, Evictable, Freed, Remaining, TreeBlocks, Touched, Walk, Label, PathBlocks, FreeList, Release;
    SoundFits(m);
    var u, t := Pin(m, prompt), Pin(m, prompt).tree;
    TouchedKeepsContents(m.tree, Hit(m, prompt), m.clock);
    EvictionFacts(t, ps);
    RootHoldsNothing(Remaining(t, ps));
    var freed: seq<BlockId> := Freed(t, ps);
    PinSound(m, prompt);
    CountedFreeList(u, multiset(HitBlocks(m, prompt)));
    forall b: BlockId
      ensures multiset(freed)[b] == TreeBlocks(m.tree)[b] && multiset(freed)[b] <= RefAt(u.refs, b)
      ensures b in freed ==> RefAt(u.refs, b) == RefAt(m.refs, b) + multiset(HitBlocks(m, prompt))[b]
    {
      PinnedBlocks(m, prompt, b);
      assert b in freed <==> multiset(freed)[b] > 0;
    }
    ReleaseCount(Pool(u.refs, u.free), freed);
    assert (set b | b in freed && RefAt(u.refs, b) == multiset(freed)[b]) == WholeCache(m, prompt);
  }

  /**
   * The call can refuse a request that the cache has room for if and only if it must evict, the whole cache would
   * suffice, and some leaf that may be picked does not.
   */
  lemma NeedlessRefusalIff(m: Mem, id: RequestId, prompt: seq<Token>)
    requires Sound(m)
    ensures (exists ps ::
               PermittedAllocate(m, prompt, ps) && AllocateWithPrefix(m, id, prompt, ps).result.None?)
            && CacheSuffices(m, prompt)
        <==> MustEvict(m, prompt) && CacheSuffices(m, prompt)
             && exists p :: p in m.tree && EvictChoice(Pin(m, prompt).tree, p)
                            && |m.free| + |Releasable(m, prompt, p)| < NewBlocksNeeded(m, prompt)
  {
    hide WellFormed, EvictChoice, AllocateWithPrefix, PermittedAllocate, Releasable, TreeBlocks, Walk, Label,
         PathBlocks, AddRefs, Sound, HitBlocks, NewBlocksNeeded;
    SoundFits(m);
    CanBeRefusedIff(m, id, prompt);
    if m.tree.Keys == {[]} {
      RootHoldsNothing(m.tree);
      assert WholeCache(m, prompt) == {};
    }
  }

  // ---------------------------------------------------------------- how often

  /**
   * A refusal costs the cache one node; with no node left it changes nothing at all, so it repeats until some request
   * is freed.
   */
  lemma RefusalShrinks(m: Mem, id: RequestId, prompt: seq<Token>, ps: seq<Path>)
    requires Sound(m) && PermittedAllocate(m, prompt, ps) && AllocateWithPrefix(m, id, prompt, ps).result.None?
    ensures var u := AllocateWithPrefix(m, id, prompt, ps).mem;
      && |ps| <= 1 && (ps == [] <==> m.tree.Keys == {[]})
      && (ps == [] ==> u == m)
      && (ps != [] ==> ps[0] in m.tree && u.tree.Keys == m.tree.Keys - {ps[0]})
  {
    hide WellFormed, Label, EvictChoice, OldestAmongLeafSiblings, Touched, TreeBlocks, FreeList, StampsBelow;
    SoundFits(m);
    PreparedIs(m, prompt, ps);
    LookupStarts(m.tree, m.clock);
    if ps == [] {
      WalkEnds(m.tree, prompt);
      assert Hit(m, prompt) == [] && HitBlocks(m, prompt) == [];
      NothingPinned(m);
    }
  }

  lemma NothingPinned(m: Mem)
    ensures AddRefs(m.refs, []) == m.refs && SubRefs(m.refs, []) == m.refs
  {
    var none: seq<BlockId> := [];
    assert multiset(none) == multiset{};
  }
}
