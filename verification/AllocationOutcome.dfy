/**
 * What the allocators and `free` come to, said of the state before the call in plain terms: labels, lengths, list ends.
 */
module AllocationOutcome {
  import opened Types
  import opened RadixTrie
  import opened BlockAccounting
  import opened BlockSafety
  import opened BlockRefusal

  // ---------------------------------------------------------------- allocation with prefix

  /**
   * The answer for a prompt: the cached length is that of the longest stored label that is a prefix of it, the blocks
   * begin with those collected along that label, and the rest are just enough for the uncached tokens.
   */
  ghost predicate Answers(m: Mem, prompt: seq<Token>, blocks: seq<BlockId>, cached: nat, p: Path)
    requires WellFormed(m.tree)
  {
    && LongestMatch(m.tree, prompt, p)
    && cached == |Label(m.tree, p)| <= |prompt|
    && PathBlocks(m.tree, p) <= blocks
    && LeastCover(|blocks| - |PathBlocks(m.tree, p)|, m.blockSize, |prompt| - cached)
  }

  lemma HitIsLongest(m: Mem, prompt: seq<Token>)
    requires Sound(m)
    ensures LongestMatch(m.tree, prompt, Hit(m, prompt)) && Hit(m, prompt) in m.tree
    ensures HitLength(m, prompt) == |Label(m.tree, Hit(m, prompt))|
    ensures HitBlocks(m, prompt) == PathBlocks(m.tree, Hit(m, prompt))
    ensures LeastCover(NewBlocksNeeded(m, prompt), m.blockSize, |prompt| - |Label(m.tree, Hit(m, prompt))|)
  {
    hide Sound, WellFormed, LongestMatch, CeilDiv, LeastCover, Walk, Label, PathBlocks;
    SoundFits(m);
    WalkEnds(m.tree, prompt);
    WalkIsLongestMatch(m.tree, prompt, Hit(m, prompt));
    CeilIsLeast(|prompt| - HitLength(m, prompt), m.blockSize);
  }

  /** Every successful allocation answers for the longest stored prefix, whatever is evicted on the way. */
  lemma AllocationAnswers(m: Mem, id: RequestId, prompt: seq<Token>, ps: seq<Path>)
    requires Sound(m) && PermittedAllocate(m, prompt, ps)
    ensures var a := AllocateWithPrefix(m, id, prompt, ps);
      a.result.Some? ==> exists p :: Answers(m, prompt, a.result.value.0, a.result.value.1, p)
  {
    SoundFits(m);
    HitIsLongest(m, prompt);
    hide WellFormed, LongestMatch, LeastCover, Prepared, PermittedAllocate, Sound, Unpin;
    var a := AllocateWithPrefix(m, id, prompt, ps);
    if a.result.Some? {
      assert Answers(m, prompt, a.result.value.0, a.result.value.1, Hit(m, prompt));
    }
  }

  /** The longest stored prefix is one node, so the answer is determined. */
  lemma AnswerUnique(m: Mem, prompt: seq<Token>, p: Path, q: Path)
    requires WellFormed(m.tree) && LongestMatch(m.tree, prompt, p) && LongestMatch(m.tree, prompt, q)
    ensures p == q
  {
    WalkIsLongestMatch(m.tree, prompt, p);
    WalkIsLongestMatch(m.tree, prompt, q);
  }

  /** Besides the root there is a node, and exactly one leaf goes; or there is none, and nothing goes. */
  ghost predicate LosesOneLeaf(t: Trie, u: Trie, ps: seq<Path>) {
    if t.Keys == {[]} then u.Keys == {[]}
    else |ps| == 1 && ps[0] in t && ps[0] != [] && Leaf(t, ps[0]) && u.Keys == t.Keys - {ps[0]}
  }

  /**
   * The call evicts if and only if the free blocks cannot hold the uncached tokens, and then one node at most. Without
   * eviction it succeeds with the last free blocks, from the end.
   */
  lemma AllocationEvicts(m: Mem, id: RequestId, prompt: seq<Token>, ps: seq<Path>, p: Path)
    requires Sound(m) && PermittedAllocate(m, prompt, ps) && LongestMatch(m.tree, prompt, p)
    ensures var a := AllocateWithPrefix(m, id, prompt, ps);
      if |prompt| - |Label(m.tree, p)| <= |m.free| * m.blockSize then
        && a.result.Some? && a.mem.tree.Keys == m.tree.Keys
        && var cached := |PathBlocks(m.tree, p)|;
          && cached <= |a.result.value.0| <= cached + |m.free|
          && a.mem.free == m.free[..|m.free| - (|a.result.value.0| - cached)]
          && forall k | cached <= k < |a.result.value.0| :: a.result.value.0[k] == m.free[|m.free| - 1 - (k - cached)]
      else
        LosesOneLeaf(m.tree, a.mem.tree, ps)
  {
    hide Sound, WellFormed, LongestMatch, LeastCover, Label, PathBlocks, PermittedAllocate, AllocateWithPrefix, Leaf,
         NewBlocksNeeded, Hit, HitBlocks, Popped;
    SoundFits(m);
    HitIsLongest(m, prompt);
    AnswerUnique(m, prompt, p, Hit(m, prompt));
    LeastFits(NewBlocksNeeded(m, prompt), |m.free|, m.blockSize, |prompt| - |Label(m.tree, p)|);
    if NewBlocksNeeded(m, prompt) <= |m.free| {
      EnoughFree(m, id, prompt, ps);
      PoppedEnd(m.free, HitBlocks(m, prompt), NewBlocksNeeded(m, prompt));
    } else {
      ShortEvicts(m, id, prompt, ps);
    }
  }

  lemma EnoughFree(m: Mem, id: RequestId, prompt: seq<Token>, ps: seq<Path>)
    requires Sound(m) && PermittedAllocate(m, prompt, ps) && NewBlocksNeeded(m, prompt) <= |m.free|
    ensures var a, n := AllocateWithPrefix(m, id, prompt, ps), NewBlocksNeeded(m, prompt);
      && a.result == Some((HitBlocks(m, prompt) + Popped(m.free, n), HitLength(m, prompt)))
      && a.mem.tree.Keys == m.tree.Keys && a.mem.free == m.free[..|m.free| - n]
  {
    hide WellFormed, HitBlocks, HitLength, Hit, Popped, AddRefs, SetOne, EvictRun;
    SoundFits(m);
  }

  lemma PoppedEnd(free: seq<BlockId>, pinned: seq<BlockId>, n: nat)
    requires n <= |free|
    ensures var blocks := pinned + Popped(free, n);
      forall k | |pinned| <= k < |blocks| :: blocks[k] == free[|free| - 1 - (k - |pinned|)]
    ensures |pinned + Popped(free, n)| == |pinned| + n
  {
  }

  lemma ShortEvicts(m: Mem, id: RequestId, prompt: seq<Token>, ps: seq<Path>)
    requires Sound(m) && PermittedAllocate(m, prompt, ps) && NewBlocksNeeded(m, prompt) > |m.free|
    ensures LosesOneLeaf(m.tree, AllocateWithPrefix(m, id, prompt, ps).mem.tree, ps)
  {
    hide WellFormed, HitBlocks, HitLength, Hit, Popped, AddRefs, SetOne, Release, EvictChoice, Leaf, Sound, Prepared,
         NewBlocksNeeded, PermittedAllocate;
    SoundFits(m);
    PreparedIs(m, prompt, ps);
    EmptyOrNot(m, prompt, ps);
  }

  lemma EmptyOrNot(m: Mem, prompt: seq<Token>, ps: seq<Path>)
    requires Sound(m) && PermittedAllocate(m, prompt, ps) && MustEvict(m, prompt)
    ensures ps == [] <==> m.tree.Keys == {[]}
  {
    hide WellFormed, EvictChoice, Leaf;
    SoundFits(m);
    PreparedIs(m, prompt, ps);
    assert ps != [] ==> ps[0] in m.tree.Keys;
  }

  // ---------------------------------------------------------------- the plain allocator

  /**
   * The plain allocator succeeds if and only if the free blocks hold the tokens, takes just enough of them from the
   * end, counts each once, records them and leaves everything else alone.
   */
  lemma PlainAllocation(m: Mem, id: RequestId, numTokens: nat)
    requires Sound(m)
    ensures Allocate(m, id, numTokens).Some? <==> numTokens <= |m.free| * m.blockSize
    ensures Allocate(m, id, numTokens).Some? ==>
      var u := Allocate(m, id, numTokens).value;
      && id in u.table && u.table == m.table[id := u.table[id]] && u.prompts == m.prompts && u.tree == m.tree
      && var n := |u.table[id]|;
        && LeastCover(n, m.blockSize, numTokens) && n <= |m.free| && u.free == m.free[..|m.free| - n]
        && (forall k | 0 <= k < n :: u.table[id][k] == m.free[|m.free| - 1 - k])
        && |u.refs| == |m.refs|
        && forall b | 0 <= b < |m.refs| :: u.refs[b] == if b in u.table[id] then 1 else m.refs[b]
  {
    hide WellFormed, LeastCover, CeilDiv, Debt;
    SoundFits(m);
    CeilIsLeast(numTokens, m.blockSize);
    LeastFits(CeilDiv(numTokens, m.blockSize), |m.free|, m.blockSize, numTokens);
  }

  // ---------------------------------------------------------------- free

  /** Freeing takes the request out of both tables and touches no other; an unknown id changes nothing. */
  lemma FreedTables(m: Mem, id: RequestId, ps: seq<Path>)
    requires Sound(m) && PermittedFree(m, id, ps)
    ensures var u := Free(m, id, ps);
      && (id !in m.table ==> u == m)
      && u.table == m.table - {id} && (id in m.table ==> u.prompts == m.prompts - {id})
  {
    hide Deposited, Overflows, Remaining, EvictRun, WellFormed, Counted;
    assert id !in m.table ==> m.table - {id} == m.table;
  }

  /** A request with a prompt puts nothing on the free list; without one, its solely held blocks go there in order. */
  lemma FreedList(m: Mem, id: RequestId, ps: seq<Path>)
    requires Sound(m) && PermittedFree(m, id, ps) && id in m.table
    ensures id in m.prompts ==> Free(m, id, ps).free == m.free
    ensures id !in m.prompts && (forall b | b in m.table[id] :: RefAt(m.refs, b) == 1) ==>
      Free(m, id, ps).free == m.free + m.table[id]
  {
    hide Deposited, Overflows, Remaining, EvictRun, WellFormed, Counted, Idle, SubRefs;
    if id !in m.prompts && (forall b | b in m.table[id] :: RefAt(m.refs, b) == 1) {
      AllGoIdle(m, m.table[id]);
    }
  }

  lemma AllGoIdle(m: Mem, blocks: seq<BlockId>)
    requires NoDup(blocks) && forall b | b in blocks :: RefAt(m.refs, b) == 1
    ensures Idle(SubRefs(m.refs, blocks), blocks) == blocks
  {
    NoDupCounts(blocks);
    IdleAll(SubRefs(m.refs, blocks), blocks);
  }

  lemma {:induction false} IdleAll(refs: seq<nat>, bs: seq<BlockId>)
    requires forall b | b in bs :: RefAt(refs, b) == 0
    ensures Idle(refs, bs) == bs
  {
    if bs != [] {
      IdleAll(refs, bs[..|bs| - 1]);
      assert bs == bs[..|bs| - 1] + [bs[|bs| - 1]];
    }
  }
}
