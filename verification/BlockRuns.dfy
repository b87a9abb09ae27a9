/** Whole runs of the block manager: any sequence of its public operations, with any admissible evictions. */
module BlockRuns {
  import opened Types
  import opened RadixTrie
  import opened BlockAccounting
  import opened BlockSafety

  datatype Op =
    | OpAllocateWithPrefix(id: RequestId, prompt: seq<Token>, ps: seq<Path>)
    | OpAllocate(id: RequestId, numTokens: nat)
    | OpFree(id: RequestId, ps: seq<Path>)

  ghost predicate Permitted(m: Mem, op: Op)
    requires Sound(m)
  {
    match op
    case OpAllocateWithPrefix(id, prompt, ps) => PermittedAllocate(m, prompt, ps)
    case OpAllocate(id, numTokens) => true
    case OpFree(id, ps) => PermittedFree(m, id, ps)
  }

  ghost function Apply(m: Mem, op: Op): Mem
    requires Sound(m) && Permitted(m, op)
  {
    match op
    case OpAllocateWithPrefix(id, prompt, ps) => AllocateWithPrefix(m, id, prompt, ps).mem
    case OpAllocate(id, numTokens) =>
      (match Allocate(m, id, numTokens) case None => m case Some(u) => u)
    case OpFree(id, ps) => Free(m, id, ps)
  }

  /** References that stop having a holder: a table overwritten by reuse of its id, or the leak of `free`. */
  ghost function Leaked(m: Mem, op: Op): multiset<BlockId>
    requires Sound(m) && Permitted(m, op)
  {
    match op
    case OpAllocateWithPrefix(id, prompt, ps) =>
      if AllocateWithPrefix(m, id, prompt, ps).result.Some? && id in m.table then multiset(m.table[id]) else multiset{}
    case OpAllocate(id, numTokens) =>
      if Allocate(m, id, numTokens).Some? && id in m.table then multiset(m.table[id]) else multiset{}
    case OpFree(id, ps) => LeakedByFree(m, id, ps)
  }

  /** Blocks that become uncounted without becoming free. */
  ghost function Lost(m: Mem, op: Op): set<BlockId>
    requires Sound(m) && Permitted(m, op)
  {
    match op
    case OpAllocateWithPrefix(id, prompt, ps) =>
      if AllocateWithPrefix(m, id, prompt, ps).result.None? then LostByRollback(m, prompt, ps) else {}
    case _ => {}
  }

  lemma ApplySound(m: Mem, op: Op)
    requires Sound(m) && Permitted(m, op)
    ensures var u := Apply(m, op);
      && Sound(u) && |u.refs| == |m.refs|
      && Stranded(u) == Stranded(m) + Lost(m, op)
      && forall b: BlockId :: Debt(u, multiset{}, b) == Debt(m, multiset{}, b) + Leaked(m, op)[b]
  {
    hide Debt, Stranded, PermittedAllocate, PermittedFree, LostByRollback, LeakedByFree;
    match op
    case OpAllocateWithPrefix(id, prompt, ps) => AllocateWithPrefixSound(m, id, prompt, ps);
    case OpAllocate(id, numTokens) =>
      if Allocate(m, id, numTokens).Some? {
        AllocateSound(m, id, numTokens);
      }
    case OpFree(id, ps) => FreeSound(m, id, ps);
  }

  ghost predicate Legal(m: Mem, ops: seq<Op>)
    requires Sound(m)
    decreases |ops|
  {
    ops != [] ==>
      && Permitted(m, ops[0])
      && (ApplySound(m, ops[0]); Legal(Apply(m, ops[0]), ops[1..]))
  }

  ghost function After(m: Mem, ops: seq<Op>): (u: Mem)
    requires Sound(m) && Legal(m, ops)
    ensures Sound(u)
    decreases |ops|
  {
    if ops == [] then m
    else
      ApplySound(m, ops[0]);
      After(Apply(m, ops[0]), ops[1..])
  }

  ghost function LeakedBy(m: Mem, ops: seq<Op>): multiset<BlockId>
    requires Sound(m) && Legal(m, ops)
    decreases |ops|
  {
    if ops == [] then multiset{}
    else
      ApplySound(m, ops[0]);
      Leaked(m, ops[0]) + LeakedBy(Apply(m, ops[0]), ops[1..])
  }

  ghost function LostBy(m: Mem, ops: seq<Op>): set<BlockId>
    requires Sound(m) && Legal(m, ops)
    decreases |ops|
  {
    if ops == [] then {}
    else
      ApplySound(m, ops[0]);
      Lost(m, ops[0]) + LostBy(Apply(m, ops[0]), ops[1..])
  }

  /** Over every run the reference counts are accounted for to the last unit, and so is every uncounted block. */
  lemma {:induction false} RunAccounting(m: Mem, ops: seq<Op>)
    requires Sound(m) && Legal(m, ops)
    ensures var u := After(m, ops);
      && Sound(u) && |u.refs| == |m.refs|
      && Stranded(u) == Stranded(m) + LostBy(m, ops)
      && forall b: BlockId :: Debt(u, multiset{}, b) == Debt(m, multiset{}, b) + LeakedBy(m, ops)[b]
    decreases |ops|
  {
    hide Sound, Debt, Stranded, Permitted, Leaked, Lost, Apply;
    if ops != [] {
      ApplySound(m, ops[0]);
      RunAccounting(Apply(m, ops[0]), ops[1..]);
    }
  }

  lemma AccountedState(u: Mem, leaked: multiset<BlockId>)
    requires Sound(u) && forall b: BlockId :: Debt(u, multiset{}, b) == leaked[b]
    ensures forall b: BlockId | b < |u.refs| :: u.refs[b] == Held(u)[b] + leaked[b]
    ensures forall b | b in u.free :: b < |u.refs| && Held(u)[b] == 0 && leaked[b] == 0
  {
    hide Held, WellFormed, StampsBelow;
    forall b: BlockId
      ensures RefAt(u.refs, b) == Held(u)[b] + leaked[b]
    {
      assert Debt(u, multiset{}, b) == leaked[b];
    }
  }

  /**
   * The block manager's safety theorem, for every run from a new manager `m`: each count is the number of listings in
   * request tables and cache nodes plus the references leaked so far; the free list is duplicate-free, uncounted, and
   * disjoint from all tables and the cache; and no block is unaccounted for.
   */
  lemma RunSafety(m: Mem, numBlocks: nat, ops: seq<Op>)
    requires Sound(m) && m == Initial(m.blockSize, numBlocks) && Legal(m, ops)
    ensures var u := After(m, ops);
      && |u.refs| == numBlocks
      && (forall b: BlockId | b < numBlocks :: u.refs[b] == Held(u)[b] + LeakedBy(m, ops)[b])
      && NoDup(u.free)
      && (forall b | b in u.free :: b < numBlocks && Held(u)[b] == 0 && LeakedBy(m, ops)[b] == 0)
      && (forall b, id | b in u.free && id in u.table :: b !in u.table[id])
      && (forall b, p | b in u.free && p in u.tree :: b !in u.tree[p].blocks)
      && |u.free| + |InUse(u)| + |LostBy(m, ops)| == numBlocks
  {
    hide Held, Debt, WellFormed, StampsBelow, Stranded, LeakedBy, LostBy, Legal, After, NoDup, InUse;
    InitialSound(m.blockSize, numBlocks);
    var u := After(m, ops);
    RunAccounting(m, ops);
    AccountedState(u, LeakedBy(m, ops));
    BlocksConserved(u);
    forall b | b in u.free
      ensures forall id | id in u.table :: b !in u.table[id]
      ensures forall p | p in u.tree :: b !in u.tree[p].blocks
    {
      UnheldBlock(u, b);
    }
  }

  /** A block once leaked or lost is never free again, whatever happens afterwards. */
  lemma NeverFreeAgain(m: Mem, ops: seq<Op>, b: BlockId)
    requires Sound(m) && Legal(m, ops)
    requires Debt(m, multiset{}, b) > 0 || b in Stranded(m)
    ensures b !in After(m, ops).free
  {
    RunAccounting(m, ops);
    var u := After(m, ops);
    assert Debt(u, multiset{}, b) >= Debt(m, multiset{}, b);
    assert b in u.free ==> RefAt(u.refs, b) == 0;
  }
}
