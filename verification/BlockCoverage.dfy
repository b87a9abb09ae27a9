/** Enough blocks for every token: each cached node and each request owns blocks for its whole token sequence. */
module BlockCoverage {
  import opened Types
  import opened RadixTrie
  import opened BlockAccounting
  import opened BlockSafety
  import opened BlockRuns

  /** The distinct blocks listed, at `size` tokens each, hold `tokens` tokens; a block listed twice counts once. */
  ghost predicate Spans(blocks: seq<BlockId>, size: nat, tokens: nat) {
    tokens <= |Elements(blocks)| * size
  }

  lemma SpansMore(blocks: seq<BlockId>, more: seq<BlockId>, size: nat, tokens: nat)
    requires Spans(blocks, size, tokens) && forall b | b in blocks :: b in more
    ensures Spans(more, size, tokens)
  {
    var few, many := Elements(blocks), Elements(more);
    assert many == few + (many - few);
    assert |many| == |few| + |many - few|;
    assert |many| * size == |few| * size + |many - few| * size;
  }

  /** Distinct new blocks for what the pinned ones do not hold. */
  lemma SpansCeil(pinned: seq<BlockId>, popped: seq<BlockId>, size: nat, covered: nat, tokens: nat)
    requires size >= 1 && covered <= tokens && Spans(pinned, size, covered)
    requires |popped| == CeilDiv(tokens - covered, size) && NoDup(popped) && forall b | b in popped :: b !in pinned
    ensures Spans(pinned + popped, size, tokens)
  {
    hide CeilDiv, NoDup, Elements;
    DistinctMore(pinned, popped);
    CeilHolds(tokens - covered, size);
    var n, k := |Elements(pinned)|, |popped|;
    assert (n + k) * size == n * size + k * size;
  }

  lemma DistinctMore(pinned: seq<BlockId>, popped: seq<BlockId>)
    requires NoDup(popped) && forall b | b in popped :: b !in pinned
    ensures |Elements(pinned + popped)| == |Elements(pinned)| + |popped|
  {
    hide NoDup;
    DistinctCount(popped);
    assert Elements(pinned + popped) == Elements(pinned) + Elements(popped);
  }

  lemma CeilHolds(tokens: nat, size: nat)
    requires size >= 1
    ensures tokens <= CeilDiv(tokens, size) * size
  {
    var a := tokens + size - 1;
    assert a == CeilDiv(tokens, size) * size + a % size;
  }

  ghost predicate TreeCovers(t: Trie, size: nat)
    requires WellFormed(t)
  {
    forall p | p in t && p != [] :: Spans(t[p].blocks, size, |Label(t, p)|)
  }

  ghost predicate TableCovers(m: Mem) {
    forall id | id in m.table && id in m.prompts :: Spans(m.table[id], m.blockSize, |m.prompts[id]|)
  }

  ghost predicate Covers(m: Mem)
    requires WellFormed(m.tree)
  {
    TreeCovers(m.tree, m.blockSize) && TableCovers(m)
  }

  lemma InsertedCovers(t: Trie, size: nat, tokens: seq<Token>, blocks: seq<BlockId>, stamp: nat)
    requires WellFormed(t) && TreeCovers(t, size) && Spans(blocks, size, |tokens|)
    ensures WellFormed(Inserted(t, tokens, blocks, stamp)) && TreeCovers(Inserted(t, tokens, blocks, stamp), size)
  {
    if Slot(t, [], tokens).Some? {
      InsertedFacts(t, tokens, blocks, stamp);
      var c, u := Slot(t, [], tokens).value, Inserted(t, tokens, blocks, stamp);
      forall p | p in u && p != []
        ensures Spans(u[p].blocks, size, |Label(u, p)|)
      {
        if p != c {
          assert p in t && u[p] == t[p];
        }
      }
    }
  }

  lemma RemainingCovers(t: Trie, size: nat, ps: seq<Path>)
    requires WellFormed(t) && TreeCovers(t, size) && Evictable(t, ps)
    ensures WellFormed(Remaining(t, ps)) && TreeCovers(Remaining(t, ps), size)
  {
    EvictionFacts(t, ps);
  }

  /** A hit hands out at least the blocks of its last node, which alone cover the whole hit. */
  lemma HitCovered(m: Mem, prompt: seq<Token>)
    requires WellFormed(m.tree) && TreeCovers(m.tree, m.blockSize)
    ensures Spans(HitBlocks(m, prompt), m.blockSize, HitLength(m, prompt))
  {
    WalkEnds(m.tree, prompt);
    var p := Hit(m, prompt);
    if p != [] {
      ParentIn(m.tree, p);
      SpansMore(m.tree[p].blocks, HitBlocks(m, prompt), m.blockSize, HitLength(m, prompt));
    }
  }

  /** Main coverage result: a successful allocation returns blocks for every token of the prompt, hit or miss. */
  lemma AllocationCovers(m: Mem, id: RequestId, prompt: seq<Token>, ps: seq<Path>)
    requires Sound(m) && Covers(m) && PermittedAllocate(m, prompt, ps)
    ensures var a := AllocateWithPrefix(m, id, prompt, ps);
      && WellFormed(a.mem.tree) && Covers(a.mem)
      && (a.result.Some? ==> Spans(a.result.value.0, m.blockSize, |prompt|) && a.result.value.1 <= |prompt|)
  {
    hide WellFormed, EvictRun, Evictable, Counted, Label, PathBlocks, Walk, Remaining, Touched, Spans;
    SoundTree(m);
    WalkEnds(m.tree, prompt);
    TouchedKeepsContents(m.tree, Hit(m, prompt), m.clock);
    assert TreeCovers(Pin(m, prompt).tree, m.blockSize) by {
      TouchedCovers(m.tree, m.blockSize, Hit(m, prompt), m.clock);
    }
    if MustEvict(m, prompt) {
      EvictRunPermits(Pin(m, prompt).tree, m.capacity, ps);
      RemainingCovers(Pin(m, prompt).tree, m.blockSize, ps);
    }
    HitCovered(m, prompt);
    var u, pinned, n := Prepared(m, prompt, ps), HitBlocks(m, prompt), NewBlocksNeeded(m, prompt);
    if n <= |u.free| {
      PreparedPops(m, prompt, ps);
      SpansCeil(pinned, Popped(u.free, n), m.blockSize, HitLength(m, prompt), |prompt|);
    }
  }

  lemma PreparedPops(m: Mem, prompt: seq<Token>, ps: seq<Path>)
    requires Sound(m) && PermittedAllocate(m, prompt, ps)
    requires NewBlocksNeeded(m, prompt) <= |Prepared(m, prompt, ps).free|
    ensures var popped := Popped(Prepared(m, prompt, ps).free, NewBlocksNeeded(m, prompt));
      NoDup(popped) && forall b | b in popped :: b !in HitBlocks(m, prompt)
  {
    hide EvictRun, Evictable, Debt, Held, WellFormed, StampsBelow, FreeList, TreeBlocks, NoDup, Stranded, Popped, Take;
    PreparedSound(m, prompt, ps);
    TakeSound(Prepared(m, prompt, ps), 0, HitBlocks(m, prompt), NewBlocksNeeded(m, prompt));
  }

  lemma SoundTree(m: Mem)
    requires Sound(m)
    ensures WellFormed(m.tree) && m.blockSize >= 1
  {
  }

  lemma TouchedCovers(t: Trie, size: nat, p: Path, clock: nat)
    requires WellFormed(t) && TreeCovers(t, size)
    ensures WellFormed(Touched(t, p, clock)) && TreeCovers(Touched(t, p, clock), size)
  {
    TouchedKeepsContents(t, p, clock);
  }

  lemma FreeCovers(m: Mem, id: RequestId, ps: seq<Path>)
    requires Sound(m) && Covers(m) && PermittedFree(m, id, ps)
    ensures WellFormed(Free(m, id, ps).tree) && Covers(Free(m, id, ps))
  {
    hide WellFormed, EvictRun, Evictable, Counted, Label, Slot, Inserted, Remaining, Spans;
    SoundTree(m);
    if id in m.table && id in m.prompts {
      InsertedCovers(m.tree, m.blockSize, m.prompts[id], m.table[id], m.clock);
      NoEviction(Deposited(m, id));
      if Overflows(m, id) {
        EvictRunPermits(Deposited(m, id), m.capacity, ps);
      }
      RemainingCovers(Deposited(m, id), m.blockSize, ps);
    }
  }

  /** The plain allocator must not be called on an id that already has a recorded prompt. */
  ghost predicate Disciplined(m: Mem, op: Op) {
    op.OpAllocate? ==> op.id !in m.prompts
  }

  lemma ApplyCovers(m: Mem, op: Op)
    requires Sound(m) && Covers(m) && Permitted(m, op) && Disciplined(m, op)
    ensures Sound(Apply(m, op)) && Covers(Apply(m, op))
  {
    ApplySound(m, op);
    match op
    case OpAllocateWithPrefix(id, prompt, ps) => AllocationCovers(m, id, prompt, ps);
    case OpAllocate(id, numTokens) =>
    case OpFree(id, ps) => FreeCovers(m, id, ps);
  }

  ghost predicate AllDisciplined(m: Mem, ops: seq<Op>)
    requires Sound(m) && Legal(m, ops)
    decreases |ops|
  {
    ops != [] ==>
      && Disciplined(m, ops[0])
      && (ApplySound(m, ops[0]); AllDisciplined(Apply(m, ops[0]), ops[1..]))
  }

  /** Coverage holds in every state of every run, diverging deposits and evictions included. */
  lemma {:induction false} RunCovers(m: Mem, ops: seq<Op>)
    requires Sound(m) && Covers(m) && Legal(m, ops) && AllDisciplined(m, ops)
    ensures Covers(After(m, ops))
    decreases |ops|
  {
    hide Sound, Covers, Permitted, Apply;
    if ops != [] {
      ApplySound(m, ops[0]);
      ApplyCovers(m, ops[0]);
      RunCovers(Apply(m, ops[0]), ops[1..]);
    }
  }
}
