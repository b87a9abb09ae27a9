/**
 * The block manager as a value: reference counts, free list, request tables and cache tree, with the outcome of each of
 * its operations. Eviction depends on hash-map order, so an operation that may evict takes the removed paths `ps` as an
 * argument and `Permitted` says which are possible.
 */
module BlockAccounting {
  import opened Types
  import opened Holdings
  import opened RadixTrie

  datatype Mem = Mem(
    blockSize: nat,
    refs: seq<nat>,
    free: seq<BlockId>,
    table: map<RequestId, seq<BlockId>>,
    prompts: map<RequestId, seq<Token>>,
    tree: Trie,
    capacity: nat,
    clock: nat
  )

  /** `BlockManager::new`: all blocks free, a third of them the cache's budget. */
  ghost function Initial(blockSize: nat, numBlocks: nat): Mem {
    Mem(blockSize, seq(numBlocks, _ => 0), seq(numBlocks, i => i), map[], map[], map[[] := Entry([], [], 0)],
      numBlocks / 3, 1)
  }

  // ---------------------------------------------------------------- reference counts

  function RefAt(refs: seq<nat>, b: BlockId): nat {
    if b < |refs| then refs[b] else 0
  }

  function AddRefs(refs: seq<nat>, bs: seq<BlockId>): (r: seq<nat>)
    ensures |r| == |refs|
  {
    seq(|refs|, b requires 0 <= b < |refs| => refs[b] + multiset(bs)[b])
  }

  function SubRefs(refs: seq<nat>, bs: seq<BlockId>): (r: seq<nat>)
    ensures |r| == |refs|
  {
    seq(|refs|, b requires 0 <= b < |refs| => if multiset(bs)[b] <= refs[b] then refs[b] - multiset(bs)[b] else 0)
  }

  function SetOne(refs: seq<nat>, bs: seq<BlockId>): (r: seq<nat>)
    ensures |r| == |refs|
  {
    seq(|refs|, b requires 0 <= b < |refs| => if b in bs then 1 else refs[b])
  }

  datatype Pool = Pool(refs: seq<nat>, free: seq<BlockId>)

  /** Drop one reference per listed block; a block that reaches zero goes to the free list. */
  function Release(pool: Pool, bs: seq<BlockId>): Pool {
    if bs == [] then pool
    else
      var before, b := Release(pool, bs[..|bs| - 1]), bs[|bs| - 1];
      var refs := SubRefs(before.refs, [b]);
      Pool(refs, if RefAt(refs, b) == 0 then before.free + [b] else before.free)
  }

  /** The listed blocks whose count is zero, in order. */
  function Idle(refs: seq<nat>, bs: seq<BlockId>): seq<BlockId> {
    if bs == [] then []
    else
      var b := bs[|bs| - 1];
      Idle(refs, bs[..|bs| - 1]) + if RefAt(refs, b) == 0 then [b] else []
  }

  /** The last `n` free blocks, in the order they are popped. */
  function Popped(free: seq<BlockId>, n: nat): (bs: seq<BlockId>)
    requires n <= |free|
    ensures |bs| == n
  {
    seq(n, k requires 0 <= k < n => free[|free| - 1 - k])
  }

  // ---------------------------------------------------------------- invariant

  /** References with a known holder: one per listing in a request's table or a cache node. */
  ghost function Held(m: Mem): multiset<BlockId> {
    Total(m.table) + TreeBlocks(m.tree)
  }

  /**
   * References nobody can give back: counted, but held neither by a request, a cache node nor the current allocation.
   */
  ghost function Debt(m: Mem, pins: multiset<BlockId>, b: BlockId): int {
    RefAt(m.refs, b) - Held(m)[b] - pins[b]
  }

  /** Blocks lost for good: not counted and not free. */
  ghost function Stranded(m: Mem): set<BlockId> {
    set b | 0 <= b < |m.refs| && m.refs[b] == 0 && b !in m.free
  }

  /** The free list is duplicate-free and holds only uncounted blocks. */
  ghost predicate FreeList(refs: seq<nat>, free: seq<BlockId>) {
    && NoDup(free)
    && forall b | b in free :: b < |refs| && refs[b] == 0
  }

  /** Counts cover all holders, while an allocation has `pins` in hand; between operations `pins` is empty. */
  ghost predicate Counted(m: Mem, pins: multiset<BlockId>) {
    && m.blockSize >= 1
    && WellFormed(m.tree) && StampsBelow(m.tree, m.clock) && |TreeBlocks(m.tree)| <= m.capacity
    && FreeList(m.refs, m.free)
    && forall b: BlockId :: Debt(m, pins, b) >= 0
  }

  /** A table without a recorded prompt came from the plain allocator, so it lists no block twice. */
  ghost predicate UntracedDistinct(m: Mem) {
    forall id | id in m.table && id !in m.prompts :: NoDup(m.table[id])
  }

  /** Invariant of the block manager. */
  ghost predicate Sound(m: Mem) {
    Counted(m, multiset{}) && UntracedDistinct(m)
  }

  /** A new manager: nothing counted, recorded or cached, all blocks free in order, and a third of them cacheable. */
  lemma InitialSound(blockSize: nat, numBlocks: nat)
    requires blockSize >= 1
    ensures var m := Initial(blockSize, numBlocks);
      && Sound(m) && m.blockSize == blockSize && |m.refs| == |m.free| == numBlocks
      && (forall b | 0 <= b < numBlocks :: m.refs[b] == 0 && m.free[b] == b)
      && m.table == map[] && m.prompts == map[] && m.tree.Keys == {[]}
      && 3 * m.capacity <= numBlocks < 3 * m.capacity + 3
    ensures Stranded(Initial(blockSize, numBlocks)) == {}
    ensures forall b: BlockId :: Debt(Initial(blockSize, numBlocks), multiset{}, b) == 0
  {
    var m := Initial(blockSize, numBlocks);
    RootHoldsNothing(m.tree);
    forall b | 0 <= b < numBlocks
      ensures b in m.free
    {
      assert m.free[b] == b;
    }
  }

  // ---------------------------------------------------------------- allocation with prefix

  /** The node a lookup of the prompt ends at. */
  ghost function Hit(m: Mem, prompt: seq<Token>): Path
    requires WellFormed(m.tree)
  {
    Walk(m.tree, [], prompt)
  }

  ghost function HitBlocks(m: Mem, prompt: seq<Token>): seq<BlockId>
    requires WellFormed(m.tree)
  {
    WalkEnds(m.tree, prompt);
    PathBlocks(m.tree, Hit(m, prompt))
  }

  ghost function HitLength(m: Mem, prompt: seq<Token>): (n: nat)
    requires WellFormed(m.tree)
    ensures n <= |prompt|
  {
    WalkEnds(m.tree, prompt);
    |Label(m.tree, Hit(m, prompt))|
  }

  /** Look the prompt up and take a reference to every block of the hit. */
  ghost function Pin(m: Mem, prompt: seq<Token>): Mem
    requires WellFormed(m.tree)
  {
    m.(refs := AddRefs(m.refs, HitBlocks(m, prompt)),
       tree := Touched(m.tree, Hit(m, prompt), m.clock),
       clock := m.clock + |Hit(m, prompt)|)
  }

  ghost function NewBlocksNeeded(m: Mem, prompt: seq<Token>): nat
    requires WellFormed(m.tree) && m.blockSize >= 1
  {
    CeilDiv(|prompt| - HitLength(m, prompt), m.blockSize)
  }

  /** Evict cache nodes and release their blocks. */
  ghost function Reclaim(m: Mem, ps: seq<Path>): Mem
    requires Evictable(m.tree, ps)
  {
    var pool := Release(Pool(m.refs, m.free), Freed(m.tree, ps));
    m.(tree := Remaining(m.tree, ps), refs := pool.refs, free := pool.free)
  }

  ghost function Unpin(m: Mem, pinned: seq<BlockId>): Mem {
    m.(refs := SubRefs(m.refs, pinned))
  }

  /** Hand out `n` free blocks besides the pinned ones and record the request. */
  ghost function Take(m: Mem, id: RequestId, blocks: seq<BlockId>, n: nat): Mem
    requires n <= |m.free|
  {
    m.(free := m.free[..|m.free| - n],
       refs := SetOne(m.refs, Popped(m.free, n)),
       table := m.table[id := blocks + Popped(m.free, n)])
  }

  datatype Allocation = Allocation(mem: Mem, result: Option<(seq<BlockId>, nat)>)

  ghost predicate MustEvict(m: Mem, prompt: seq<Token>)
    requires WellFormed(m.tree) && m.blockSize >= 1
  {
    |m.free| < NewBlocksNeeded(m, prompt)
  }

  ghost predicate PermittedAllocate(m: Mem, prompt: seq<Token>, ps: seq<Path>)
    requires WellFormed(m.tree) && m.blockSize >= 1
  {
    if MustEvict(m, prompt) then EvictRun(Pin(m, prompt).tree, m.capacity, ps) else ps == []
  }

  /** The state in which `allocate_with_prefix` decides between success and rollback. */
  ghost function Prepared(m: Mem, prompt: seq<Token>, ps: seq<Path>): Mem
    requires WellFormed(m.tree) && m.blockSize >= 1 && PermittedAllocate(m, prompt, ps)
  {
    if MustEvict(m, prompt) then Reclaim(Pin(m, prompt), ps) else Pin(m, prompt)
  }

  ghost function AllocateWithPrefix(m: Mem, id: RequestId, prompt: seq<Token>, ps: seq<Path>): Allocation
    requires WellFormed(m.tree) && m.blockSize >= 1 && PermittedAllocate(m, prompt, ps)
  {
    var pinned, n, u := HitBlocks(m, prompt), NewBlocksNeeded(m, prompt), Prepared(m, prompt, ps);
    if |u.free| < n then Allocation(Unpin(u, pinned), None)
    else
      Allocation(Take(u, id, pinned, n).(prompts := u.prompts[id := prompt]),
                 Some((pinned + Popped(u.free, n), HitLength(m, prompt))))
  }

  /** The allocation without prefix caching. */
  ghost function Allocate(m: Mem, id: RequestId, numTokens: nat): Option<Mem>
    requires m.blockSize >= 1
  {
    var n := CeilDiv(numTokens, m.blockSize);
    if |m.free| < n then None else Some(Take(m, id, [], n))
  }

  // ---------------------------------------------------------------- free

  /** The tree `free` leaves before eviction, when the request has a recorded prompt. */
  ghost function Deposited(m: Mem, id: RequestId): Trie
    requires WellFormed(m.tree) && id in m.table && id in m.prompts
  {
    Inserted(m.tree, m.prompts[id], m.table[id], m.clock)
  }

  ghost predicate Overflows(m: Mem, id: RequestId)
    requires WellFormed(m.tree) && id in m.table && id in m.prompts
  {
    |TreeBlocks(Deposited(m, id))| > m.capacity
  }

  ghost predicate PermittedFree(m: Mem, id: RequestId, ps: seq<Path>)
    requires WellFormed(m.tree)
  {
    if id in m.table && id in m.prompts && Overflows(m, id) then EvictRun(Deposited(m, id), m.capacity, ps)
    else ps == []
  }

  ghost function Free(m: Mem, id: RequestId, ps: seq<Path>): Mem
    requires WellFormed(m.tree) && PermittedFree(m, id, ps)
  {
    if id !in m.table then m
    else if id !in m.prompts then
      var refs := SubRefs(m.refs, m.table[id]);
      m.(table := m.table - {id}, refs := refs, free := m.free + Idle(refs, m.table[id]))
    else
      m.(table := m.table - {id}, prompts := m.prompts - {id},
         tree := Remaining(Deposited(m, id), ps),
         clock := m.clock + if Slot(m.tree, [], m.prompts[id]).Some? then 1 else 0)
  }
}
