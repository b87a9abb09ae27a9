/** Serving a prompt again: what `free` files in the cache is what the next allocation of the same prompt is given. */
module AllocationReuse {
  import opened Types
  import opened RadixTrie
  import opened BlockAccounting
  import opened BlockSafety
  import opened BlockRefusal

  /** The tables after an allocation: a success records its answer and the prompt, a refusal changes neither. */
  lemma AllocationRecords(m: Mem, id: RequestId, prompt: seq<Token>, ps: seq<Path>)
    requires Sound(m) && PermittedAllocate(m, prompt, ps)
    ensures var a := AllocateWithPrefix(m, id, prompt, ps);
      match a.result
      case Some((blocks, _)) => a.mem.table == m.table[id := blocks] && a.mem.prompts == m.prompts[id := prompt]
      case None => a.mem.table == m.table && a.mem.prompts == m.prompts
  {
    hide Sound, WellFormed, PermittedAllocate, HitBlocks, HitLength, Hit, Popped, AddRefs, SetOne, SubRefs, Release,
         Touched, Remaining, EvictRun;
    SoundFits(m);
  }

  /** A deposit that fits evicts nothing: the tree is that of the insertion. */
  lemma FittingFree(m: Mem, id: RequestId, ps: seq<Path>)
    requires Sound(m) && PermittedFree(m, id, ps) && id in m.table && id in m.prompts
    requires |TreeBlocks(m.tree)| + |m.table[id]| <= m.capacity
    ensures WellFormed(m.tree) && Free(m, id, ps).tree == Inserted(m.tree, m.prompts[id], m.table[id], m.clock)
  {
    hide Sound, WellFormed, StampsBelow, Slot, Inserted, EvictRun, TreeBlocks;
    SoundFits(m);
    assert Counted(m, multiset{}) by {
      CountedOf(m);
    }
    DepositedFacts(m, id);
    assert !Overflows(m, id);
    NoEviction(Deposited(m, id));
  }

  lemma CountedOf(m: Mem)
    requires Sound(m)
    ensures Counted(m, multiset{})
  {
  }

  /** The prompt continues below the longest match: a child is filed under the next token. */
  ghost predicate GoesOn(t: Trie, p: Path, tokens: seq<Token>)
    requires WellFormed(t) && p in t
  {
    |Label(t, p)| < |tokens| && Child(p, tokens[|Label(t, p)|]) in t
  }

  /** An insertion that is cut short by no child hangs the new node where the lookup ends. */
  lemma SlotAtMatch(t: Trie, tokens: seq<Token>)
    requires WellFormed(t)
    ensures var p := Walk(t, [], tokens);
      p in t && |Label(t, p)| <= |tokens| && (Agrees(t, tokens) ==>
        Slot(t, [], tokens) == if |Label(t, p)| == |tokens| then None else Some(Child(p, tokens[|Label(t, p)|])))
  {
    hide WellFormed, Label;
    LookupStarts(t, 0);
    WalkEnds(t, tokens);
    SlotFollowsWalk(t, [], tokens, tokens);
  }

  /** What a lookup of the inserted tokens collects, when they could be filed where it ended before. */
  lemma InsertThenCollect(t: Trie, tokens: seq<Token>, blocks: seq<BlockId>, stamp: nat)
    requires WellFormed(t) && Agrees(t, tokens)
    ensures var p, u := Walk(t, [], tokens), Inserted(t, tokens, blocks, stamp);
      && p in t && WellFormed(u) && Walk(u, [], tokens) in u
      && PathBlocks(u, Walk(u, [], tokens)) == PathBlocks(t, p) + if |Label(t, p)| == |tokens| then [] else blocks
  {
    var p, u := Walk(t, [], tokens), Inserted(t, tokens, blocks, stamp);
    SlotAtMatch(t, tokens);
    InsertThenMatch(t, tokens, blocks, stamp);
    if |Label(t, p)| < |tokens| {
      var c := Child(p, tokens[|Label(t, p)|]);
      ParentOfChild(p, tokens[|Label(t, p)|]);
      InsertedFacts(t, tokens, blocks, stamp);
      InsertedSpells(t, tokens, blocks, stamp);
      InsertedAnswers(t, tokens, blocks, stamp, tokens);
      hide WellFormed, Slot, Inserted, Walk, Label, Agrees;
      assert Walk(u, [], tokens) == c && u[c].blocks == blocks;
      assert PathBlocks(u, c) == PathBlocks(u, p) + blocks;
    }
  }

  /**
   * Round trip over two requests. After freeing one whose blocks fit into the cache, an allocation for the same prompt
   * succeeds with every token cached if and only if no child was filed under the token at which the longest stored
   * prefix ended. Its blocks are then those stored along that prefix and, unless the whole prompt was stored before,
   * all blocks of the freed request.
   */
  lemma ServedAgain(m: Mem, id: RequestId, ps: seq<Path>, p: Path, u: Mem, other: RequestId, qs: seq<Path>)
    requires Sound(m) && PermittedFree(m, id, ps) && id in m.table && id in m.prompts
    requires |TreeBlocks(m.tree)| + |m.table[id]| <= m.capacity
    requires p in m.tree && LongestMatch(m.tree, m.prompts[id], p)
    requires u == Free(m, id, ps) && Sound(u) && PermittedAllocate(u, m.prompts[id], qs)
    ensures var prompt, a := m.prompts[id], AllocateWithPrefix(u, other, m.prompts[id], qs);
      && (a.result.Some? && a.result.value.1 == |prompt| <==> !GoesOn(m.tree, p, prompt))
      && (!GoesOn(m.tree, p, prompt) ==>
            a.result.value.0 == PathBlocks(m.tree, p) + if |Label(m.tree, p)| == |prompt| then [] else m.table[id])
  {
    hide Sound, WellFormed, PermittedAllocate, PermittedFree, AllocateWithPrefix, LongestMatch, Label, PathBlocks, Walk,
         Inserted, TreeBlocks, Free, NewBlocksNeeded, Popped;
    var prompt := m.prompts[id];
    SoundFits(m);
    SoundFits(u);
    FittingFree(m, id, ps);
    WalkIsLongestMatch(m.tree, prompt, p);
    WalkEnds(m.tree, prompt);
    WalkEnds(u.tree, prompt);
    assert Agrees(m.tree, prompt) <==> !GoesOn(m.tree, p, prompt);
    InsertThenMatch(m.tree, prompt, m.table[id], m.clock);
    CachedLength(u, other, prompt, qs);
    if Agrees(m.tree, prompt) {
      InsertThenCollect(m.tree, prompt, m.table[id], m.clock);
    }
  }

  /** A prompt that is cached throughout needs no new block, so it is never refused. */
  lemma CachedLength(m: Mem, id: RequestId, prompt: seq<Token>, ps: seq<Path>)
    requires Sound(m) && PermittedAllocate(m, prompt, ps)
    ensures WellFormed(m.tree) && Walk(m.tree, [], prompt) in m.tree
    ensures var a, p := AllocateWithPrefix(m, id, prompt, ps), Walk(m.tree, [], prompt);
      && (a.result.Some? ==> a.result.value.1 == |Label(m.tree, p)|)
      && (|Label(m.tree, p)| == |prompt| ==> a.result.Some? && a.result.value.0 == PathBlocks(m.tree, p))
  {
    hide Sound, WellFormed, Walk, Label, PathBlocks, AddRefs, SetOne, SubRefs, Release, Touched, Remaining, EvictRun;
    SoundFits(m);
    WalkEnds(m.tree, prompt);
  }
}
