/** Whole runs of the prefix cache: lookups, agreeing insertions and evictions in any order. */
module CacheHistory {
  import opened Types
  import opened RadixTrie

  datatype CacheOp =
    | Lookup(query: seq<Token>, clock: nat)
    | Insert(tokens: seq<Token>, blocks: seq<BlockId>, stamp: nat)
    | Evict(paths: seq<Path>)

  /** An insertion must agree with the tree, an eviction must be one the cache can make. */
  ghost predicate Allowed(t: Trie, op: CacheOp)
    requires WellFormed(t)
  {
    match op
    case Lookup(_, _) => true
    case Insert(tokens, _, _) => Agrees(t, tokens)
    case Evict(ps) => Evictable(t, ps)
  }

  ghost function Apply(t: Trie, op: CacheOp): Trie
    requires WellFormed(t)
  {
    match op
    case Lookup(query, clock) => Touched(t, Walk(t, [], query), clock)
    case Insert(tokens, blocks, stamp) => Inserted(t, tokens, blocks, stamp)
    case Evict(ps) => Remaining(t, ps)
  }

  lemma ApplyWellFormed(t: Trie, op: CacheOp)
    requires WellFormed(t) && Allowed(t, op)
    ensures WellFormed(Apply(t, op))
  {
    match op
    case Lookup(query, clock) => TouchedKeepsContents(t, Walk(t, [], query), clock);
    case Insert(tokens, blocks, stamp) =>
      if Slot(t, [], tokens).Some? {
        InsertedFacts(t, tokens, blocks, stamp);
      }
    case Evict(ps) => EvictionFacts(t, ps);
  }

  ghost predicate Legal(t: Trie, ops: seq<CacheOp>)
    requires WellFormed(t)
    decreases |ops|
  {
    ops != [] ==>
      && Allowed(t, ops[0])
      && (ApplyWellFormed(t, ops[0]); Legal(Apply(t, ops[0]), ops[1..]))
  }

  ghost function After(t: Trie, ops: seq<CacheOp>): (u: Trie)
    requires WellFormed(t) && Legal(t, ops)
    ensures WellFormed(u)
    decreases |ops|
  {
    if ops == [] then t
    else
      ApplyWellFormed(t, ops[0]);
      After(Apply(t, ops[0]), ops[1..])
  }

  type Deposit = (seq<Token>, seq<BlockId>)

  ghost function Deposits(ops: seq<CacheOp>): set<Deposit> {
    set i | 0 <= i < |ops| && ops[i].Insert? :: (ops[i].tokens, ops[i].blocks)
  }

  /** Every node spells the tokens, and carries the blocks, of one deposit. */
  ghost predicate Spelled(t: Trie, deposits: set<Deposit>)
    requires WellFormed(t)
  {
    forall p | p in t && p != [] :: (Label(t, p), t[p].blocks) in deposits
  }

  lemma ApplySpelled(t: Trie, op: CacheOp, deposits: set<Deposit>)
    requires WellFormed(t) && Allowed(t, op) && Spelled(t, deposits)
    ensures WellFormed(Apply(t, op)) && Spelled(Apply(t, op), deposits + Deposits([op]))
  {
    ApplyWellFormed(t, op);
    match op
    case Lookup(query, clock) =>
      TouchedKeepsContents(t, Walk(t, [], query), clock);
    case Insert(tokens, blocks, stamp) =>
      if Slot(t, [], tokens).Some? {
        InsertedFacts(t, tokens, blocks, stamp);
        InsertedSpells(t, tokens, blocks, stamp);
        assert [op][0].Insert? && (tokens, blocks) in Deposits([op]);
      }
    case Evict(ps) =>
      EvictionFacts(t, ps);
  }

  lemma {:induction false} HistorySpelled(t: Trie, ops: seq<CacheOp>, deposits: set<Deposit>)
    requires WellFormed(t) && Legal(t, ops) && Spelled(t, deposits)
    ensures Spelled(After(t, ops), deposits + Deposits(ops))
    decreases |ops|
  {
    if ops != [] {
      var first := Deposits([ops[0]]);
      ApplySpelled(t, ops[0], deposits);
      HistorySpelled(Apply(t, ops[0]), ops[1..], deposits + first);
      assert deposits + first + Deposits(ops[1..]) <= deposits + Deposits(ops) by {
        forall d | d in Deposits(ops[1..])
          ensures d in Deposits(ops)
        {
          var i :| 0 <= i < |ops[1..]| && ops[1..][i].Insert? && d == (ops[1..][i].tokens, ops[1..][i].blocks);
          assert ops[1..][i] == ops[i + 1];
        }
        forall d | d in first
          ensures d in Deposits(ops)
        {
          assert ops[0].Insert? && d == (ops[0].tokens, ops[0].blocks);
        }
      }
    }
  }

  /** A label names one node only: looking it up leads back to the node. */
  lemma LabelNamesNode(t: Trie, p: Path)
    requires WellFormed(t) && p in t
    ensures Walk(t, [], Label(t, p)) == p
  {
    var query := Label(t, p);
    var m := Walk(t, [], query);
    WalkIsLongestMatch(t, query, m);
    LabelExtends(t, p, m);
  }

  /**
   * Cache soundness over every history of agreeing insertions, lookups and evictions from the empty cache: a hit on a
   * nonempty prefix of the query answers for a whole deposited prompt, ends with the very blocks deposited with it, and
   * no second node spells the same prompt.
   */
  lemma HitIsDeposit(t: Trie, ops: seq<CacheOp>, query: seq<Token>)
    requires WellFormed(t) && t.Keys == {[]} && Legal(t, ops)
    ensures var u := After(t, ops);
      var m := Walk(u, [], query);
      && m in u
      && Label(u, m) <= query
      && (Label(u, m) != [] ==> (Label(u, m), u[m].blocks) in Deposits(ops))
      && (forall q | q in u && Label(u, q) == Label(u, m) :: q == m)
  {
    var u := After(t, ops);
    var m := Walk(u, [], query);
    HistorySpelled(t, ops, {});
    WalkIsLongestMatch(u, query, m);
    forall q | q in u && Label(u, q) == Label(u, m)
      ensures q == m
    {
      LabelNamesNode(u, q);
      LabelNamesNode(u, m);
    }
    assert {} + Deposits(ops) == Deposits(ops);
  }

  /**
   * A diverging insertion files a prompt under the wrong path: after `[a, b]`, inserting `[a, c, d]` makes the cache
   * answer `[a, b, d]`, which nobody deposited, and forget about `[a, c, d]` itself.
   */
  lemma DivergingInsertMisfiles(t: Trie, a: Token, b: Token, c: Token, d: Token, x: seq<BlockId>, y: seq<BlockId>)
    requires WellFormed(t) && t.Keys == {[]} && b != c
    ensures var t1 := Inserted(t, [a, b], x, 1);
      && WellFormed(t1) && !Agrees(t1, [a, c, d])
      && var t2 := Inserted(t1, [a, c, d], y, 2);
        && WellFormed(t2)
        && Walk(t2, [], [a, b, d]) == [a, d] && [a, d] in t2 && Label(t2, [a, d]) == [a, b, d]
          && PathBlocks(t2, [a, d]) == x + y
        && Walk(t2, [], [a, c, d]) == []
  {
    FirstInsert(t, a, b, x);
    SecondSlot(Inserted(t, [a, b], x, 1), a, b, c, d);
    SecondInsert(Inserted(t, [a, b], x, 1), a, b, c, d, x, y);
  }

  lemma FirstInsert(t: Trie, a: Token, b: Token, x: seq<BlockId>)
    requires WellFormed(t) && t.Keys == {[]}
    ensures var t1 := Inserted(t, [a, b], x, 1);
      && WellFormed(t1) && t1.Keys == {[], [a]} && t1[[a]].tokens == [a, b] && Label(t1, [a]) == [a, b]
        && PathBlocks(t1, [a]) == x
  {
    LookupStarts(t, 0);
    assert Child([], a) == [a] && Parent([a]) == [];
    SlotStep(t, [], [a, b]);
    InsertedFacts(t, [a, b], x, 1);
    assert [a, b][0..] == [a, b];
    assert Inserted(t, [a, b], x, 1) == t[[a] := Entry([a, b], x, 1)];
    hide Slot, Inserted;
  }

  lemma SecondSlot(t1: Trie, a: Token, b: Token, c: Token, d: Token)
    requires WellFormed(t1) && t1.Keys == {[], [a]} && t1[[a]].tokens == [a, b] && Label(t1, [a]) == [a, b] && b != c
    ensures Walk(t1, [], [a, c, d]) == [] && Slot(t1, [], [a, c, d]) == Some([a, d]) && !Agrees(t1, [a, c, d])
    ensures Parent([a, d]) == [a]
  {
    hide Slot;
    var tokens := [a, c, d];
    assert Child([], a) == [a] && Child([a], d) == [a, d];
    LookupStarts(t1, 0);
    assert [a, b][1] == b && tokens[1] == c && tokens[2..] == [d];
    WalkStops(t1, [], tokens);
    SlotStep(t1, [], tokens);
    SlotStep(t1, [a], [d]);
  }

  lemma SecondInsert(t1: Trie, a: Token, b: Token, c: Token, d: Token, x: seq<BlockId>, y: seq<BlockId>)
    requires WellFormed(t1) && [a] in t1 && Label(t1, [a]) == [a, b] && PathBlocks(t1, [a]) == x && b != c
    requires Walk(t1, [], [a, c, d]) == [] && Slot(t1, [], [a, c, d]) == Some([a, d]) && Parent([a, d]) == [a]
    ensures var t2 := Inserted(t1, [a, c, d], y, 2);
      && WellFormed(t2)
      && Walk(t2, [], [a, b, d]) == [a, d] && [a, d] in t2 && Label(t2, [a, d]) == [a, b, d]
        && PathBlocks(t2, [a, d]) == x + y
      && Walk(t2, [], [a, c, d]) == []
  {
    var tokens, q := [a, c, d], [a, d];
    InsertedFacts(t1, tokens, y, 2);
    InsertedAnswers(t1, tokens, y, 2, [a, b, d]);
    InsertedAnswers(t1, tokens, y, 2, tokens);
    var t2 := Inserted(t1, tokens, y, 2);
    assert tokens[2..] == [d];
    LastStep(t2, q);
    hide WellFormed, Inserted, Walk, Slot, Label, PathBlocks, Leaf, TreeBlocks;
    assert Label(t2, q) == [a, b] + [d] == [a, b, d];
    assert [a, b, d][1] == b && tokens[1] == c;
  }

  lemma LastStep(t: Trie, p: Path)
    requires WellFormed(t) && p in t && p != []
    ensures Parent(p) in t && PathBlocks(t, p) == PathBlocks(t, Parent(p)) + t[p].blocks
  {
    ParentIn(t, p);
  }
}
