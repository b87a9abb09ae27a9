/** When eviction is globally least recently used, and when it is not. */
module CacheRecency {
  import opened Types
  import opened RadixTrie
  import opened CacheHistory

  /** All leaves hang off one node. */
  ghost predicate OneFamily(t: Trie) {
    forall p, q | p in t && p != [] && Leaf(t, p) && q in t && q != [] && Leaf(t, q) :: Parent(p) == Parent(q)
  }

  /** No leaf was accessed before `c`. */
  ghost predicate OldestLeaf(t: Trie, c: Path) {
    c in t && forall q | q in t && q != [] && Leaf(t, q) :: t[c].stamp <= t[q].stamp
  }

  /** The same nodes with the same contents, accessed at other times. */
  ghost predicate SameShape(t: Trie, u: Trie) {
    && t.Keys == u.Keys
    && forall p | p in t :: t[p].tokens == u[p].tokens && t[p].blocks == u[p].blocks
  }

  lemma ShapeLeaves(t: Trie, u: Trie)
    requires t.Keys == u.Keys
    ensures forall p :: Leaf(t, p) <==> Leaf(u, p)
    ensures forall p :: NoLeafChild(t, p) <==> NoLeafChild(u, p)
  {
    assert forall p :: p in t <==> p in u;
    forall p
      ensures Leaf(t, p) <==> Leaf(u, p)
    {
      assert forall k :: Child(p, k) in t <==> Child(p, k) in u;
    }
    forall p
      ensures NoLeafChild(t, p) <==> NoLeafChild(u, p)
    {
      assert forall k :: Child(p, k) in t <==> Child(p, k) in u;
    }
  }

  lemma SiblingChild(p: Path, q: Path)
    requires p != [] && q != [] && Parent(p) == Parent(q)
    ensures Child(Parent(p), Key(q)) == q
  {
  }

  lemma FamilyOldest(t: Trie, c: Path)
    requires OneFamily(t) && EvictChoice(t, c)
    ensures OldestLeaf(t, c)
  {
    hide Leaf, NoLeafChild;
    forall q | q in t && q != [] && Leaf(t, q)
      ensures t[c].stamp <= t[q].stamp
    {
      SiblingChild(c, q);
    }
  }

  lemma ShapeFamily(t: Trie, u: Trie)
    requires t.Keys == u.Keys && OneFamily(t)
    ensures OneFamily(u)
  {
    hide Leaf, NoLeafChild;
    ShapeLeaves(t, u);
    assert forall p :: p in t <==> p in u;
  }

  // ---------------------------------------------------------------- access times that lookups produce

  /** The tree after looking up the queries in order, the clock advancing with every node passed. */
  ghost function AfterLookups(t: Trie, queries: seq<seq<Token>>, clock: nat): (u: Trie)
    requires WellFormed(t)
    ensures WellFormed(u)
    decreases |queries|
  {
    if queries == [] then t
    else
      var m := Walk(t, [], queries[0]);
      TouchedKeepsContents(t, m, clock);
      AfterLookups(Touched(t, m, clock), queries[1..], clock + |m|)
  }

  lemma TouchedShape(t: Trie, m: Path, clock: nat)
    requires StampsBelow(t, clock)
    ensures SameShape(t, Touched(t, m, clock))
    ensures forall p | p in t :: Touched(t, m, clock)[p].stamp >= t[p].stamp
  {
  }

  lemma {:induction false} LookupsShape(t: Trie, queries: seq<seq<Token>>, clock: nat)
    requires WellFormed(t) && StampsBelow(t, clock)
    ensures SameShape(t, AfterLookups(t, queries, clock))
    ensures forall p | p in t :: AfterLookups(t, queries, clock)[p].stamp >= t[p].stamp
    decreases |queries|
  {
    hide WellFormed, StampsBelow, Touched, TreeBlocks, Label, PathBlocks, Walk;
    LookupStarts(t, clock);
    if queries != [] {
      var m := Walk(t, [], queries[0]);
      TouchedKeepsContents(t, m, clock);
      TouchedShape(t, m, clock);
      LookupsShape(Touched(t, m, clock), queries[1..], clock + |m|);
    }
  }

  lemma LookupsCons(t: Trie, query: seq<Token>, queries: seq<seq<Token>>, clock: nat)
    requires WellFormed(t)
    ensures var m := Walk(t, [], query);
      && WellFormed(Touched(t, m, clock))
      && AfterLookups(t, [query] + queries, clock) == AfterLookups(Touched(t, m, clock), queries, clock + |m|)
  {
    hide WellFormed, Touched, TreeBlocks, Label, PathBlocks, Walk;
    LookupStarts(t, clock);
    TouchedKeepsContents(t, Walk(t, [], query), clock);
    assert ([query] + queries)[1..] == queries;
  }

  /** Looking up the label of leaf `f` makes it recent and leaves another leaf `d` as old as it was. */
  lemma TouchLeaf(t: Trie, f: Path, d: Path, clock: nat)
    requires WellFormed(t) && StampsBelow(t, clock) && f in t && f != [] && d in t && Leaf(t, d) && d != f
    ensures Walk(t, [], Label(t, f)) == f
    ensures var u := Touched(t, f, clock);
      && WellFormed(u) && SameShape(t, u) && StampsBelow(u, clock + |f|)
      && u[f].stamp >= clock && u[d] == t[d] && Leaf(u, d)
  {
    hide WellFormed, TreeBlocks, Label, PathBlocks, Walk;
    LabelNamesNode(t, f);
    TouchedKeepsContents(t, f, clock);
    TouchedShape(t, f, clock);
    ShapeLeaves(t, Touched(t, f, clock));
    hide Leaf;
    if d < f {
      InnerNotLeaf(t, d, f);
    }
  }

  /** Looking up all of `leaves` makes each of them more recent than the leaf `d` outside. */
  lemma {:induction false} LookUpAll(t: Trie, leaves: set<Path>, d: Path, clock: nat) returns (queries: seq<seq<Token>>)
    requires WellFormed(t) && StampsBelow(t, clock) && d in t && Leaf(t, d) && d !in leaves
    requires leaves <= t.Keys && [] !in leaves
    ensures var u := AfterLookups(t, queries, clock);
      SameShape(t, u) && u[d] == t[d] && forall f | f in leaves :: u[f].stamp >= clock
    decreases leaves
  {
    hide WellFormed, StampsBelow, Leaf, Touched, Walk, Label, AfterLookups;
    if leaves == {} {
      queries := NoLookups(t, clock);
    } else {
      var f := OldestOf(t, leaves);
      TouchLeaf(t, f, d, clock);
      var t1 := Touched(t, f, clock);
      var rest := LookUpAll(t1, leaves - {f}, d, clock + |f|);
      LookupsShape(t1, rest, clock + |f|);
      LookupsCons(t, Label(t, f), rest, clock);
      queries := [Label(t, f)] + rest;
    }
  }

  lemma NoLookups(t: Trie, clock: nat) returns (queries: seq<seq<Token>>)
    requires WellFormed(t)
    ensures AfterLookups(t, queries, clock) == t
  {
    queries := [];
  }

  /** The leaves filed beside `c`. */
  ghost function LeafSiblings(t: Trie, c: Path): set<Path>
    requires c != []
  {
    set q | q in t && q != [] && Parent(q) == Parent(c) && Leaf(t, q)
  }

  /** The oldest of the leaf siblings of an admissible choice is admissible too, at any access times. */
  lemma SiblingChoice(t: Trie, u: Trie, c: Path, e: Path)
    requires EvictChoice(t, c) && t.Keys == u.Keys && e in LeafSiblings(t, c)
    requires forall f | f in LeafSiblings(t, c) :: f in u && u[e].stamp <= u[f].stamp
    ensures EvictChoice(u, e)
  {
    hide Leaf, NoLeafChild;
    ShapeLeaves(t, u);
    forall k | Child(Parent(e), k) in u && Leaf(u, Child(Parent(e), k))
      ensures u[e].stamp <= u[Child(Parent(e), k)].stamp
    {
      ParentOfChild(Parent(e), k);
      assert Child(Parent(e), k) in LeafSiblings(t, c);
    }
    forall i | 0 <= i < |e| - 1
      ensures NoLeafChild(u, e[..i])
    {
      assert e[..i] == Parent(e)[..i] == Parent(c)[..i] == c[..i];
    }
  }

  lemma ChoiceIsSibling(t: Trie, c: Path)
    requires EvictChoice(t, c)
    ensures c in t && c != [] && c in LeafSiblings(t, c)
  {
  }

  /**
   * If two leaves hang off different nodes, some lookups lead to access times under which the cache may evict a leaf
   * that is not the oldest: it is enough to look up the leaves among which the search chooses.
   */
  lemma WrongVictim(t: Trie, clock: nat) returns (queries: seq<seq<Token>>, e: Path)
    requires WellFormed(t) && StampsBelow(t, clock) && !OneFamily(t)
    ensures var u := AfterLookups(t, queries, clock);
      EvictChoice(u, e) && !OldestLeaf(u, e)
  {
    hide WellFormed, Leaf, EvictChoice, AfterLookups;
    var p, q :| p in t && p != [] && Leaf(t, p) && q in t && q != [] && Leaf(t, q) && Parent(p) != Parent(q);
    var c := EvictChoiceExists(t);
    ChoiceIsSibling(t, c);
    var d := if Parent(c) == Parent(p) then q else p;
    var family := LeafSiblings(t, c);
    queries := LookUpAll(t, family, d, clock);
    var u := AfterLookups(t, queries, clock);
    e := OldestOf(u, family);
    SiblingChoice(t, u, c, e);
    ShapeLeaves(t, u);
    assert u[d].stamp < clock <= u[e].stamp;
  }

  /**
   * Eviction is globally least recently used, whatever is looked up, if and only if all leaves of the tree hang off one
   * node: then, after any lookups, every admissible choice is the oldest leaf of all.
   */
  lemma GloballyOldestIff(t: Trie, clock: nat)
    requires WellFormed(t) && StampsBelow(t, clock)
    ensures OneFamily(t) <==> forall queries, c | EvictChoice(AfterLookups(t, queries, clock), c) ::
                                OldestLeaf(AfterLookups(t, queries, clock), c)
  {
    hide WellFormed, StampsBelow, OneFamily, EvictChoice, OldestLeaf, AfterLookups;
    if OneFamily(t) {
      forall queries, c | EvictChoice(AfterLookups(t, queries, clock), c)
        ensures OldestLeaf(AfterLookups(t, queries, clock), c)
      {
        LookupsShape(t, queries, clock);
        ShapeFamily(t, AfterLookups(t, queries, clock));
        FamilyOldest(AfterLookups(t, queries, clock), c);
      }
    } else {
      var queries, c := WrongVictim(t, clock);
    }
  }

  // ---------------------------------------------------------------- a concrete run

  /**
   * With `[a]` filed after `[b]` and, below it, `[b, c]`, the only admissible choice is `[a]`, though `[b, c]` is
   * older.
   */
  lemma OnlyTopChoice(t: Trie, a: Token, b: Token, c: Token, q: Path)
    requires WellFormed(t) && t.Keys == {[], [a], [b], [b, c]} && a != b
    requires t[[b]].stamp < t[[b, c]].stamp < t[[a]].stamp
    ensures Leaf(t, [b, c]) && Leaf(t, [a])
    ensures EvictChoice(t, q) <==> q == [a]
  {
    assert Child([], a) == [a] && Child([], b) == [b] && Child([b], c) == [b, c];
    assert [b][0] == b && [b, c][0] == b;
    forall q | q in t
      ensures !([a] < q) && !([b, c] < q)
    {
      assert q in t.Keys;
    }
    ShortPaths(t, [a]);
    ShortPaths(t, [b, c]);
    var d := EvictChoiceExists(t);
    OnlyTopLeaf(t, a, b, c, d);
    OnlyTopLeaf(t, a, b, c, q);
  }

  lemma ShortPaths(t: Trie, p: Path)
    requires forall q | q in t :: !(p < q)
    ensures Leaf(t, p)
  {
    forall k
      ensures Child(p, k) !in t
    {
      assert p < Child(p, k);
    }
  }

  lemma OnlyTopLeaf(t: Trie, a: Token, b: Token, c: Token, q: Path)
    requires t.Keys == {[], [a], [b], [b, c]} && a != b && Leaf(t, [a]) && !Leaf(t, [b])
    ensures EvictChoice(t, q) ==> q == [a]
  {
    assert q[..0] == [] && Child([], a) == [a];
    assert !NoLeafChild(t, []);
    if EvictChoice(t, q) {
      assert q in t.Keys;
    }
  }

  /** The empty cache. */
  ghost function Empty(): Trie {
    map[[] := Entry([], [], 0)]
  }

  ghost function One(b: Token, x: seq<BlockId>): Trie {
    Empty()[[b] := Entry([b], x, 1)]
  }

  ghost function Two(b: Token, c: Token, x: seq<BlockId>, y: seq<BlockId>): Trie {
    One(b, x)[[b, c] := Entry([c], y, 2)]
  }

  ghost function Three(a: Token, b: Token, c: Token, x: seq<BlockId>, y: seq<BlockId>, z: seq<BlockId>): Trie {
    Two(b, c, x, y)[[a] := Entry([a], z, 3)]
  }

  lemma FirstDeposit(b: Token, x: seq<BlockId>)
    ensures WellFormed(Empty()) && Agrees(Empty(), [b]) && Inserted(Empty(), [b], x, 1) == One(b, x)
      && WellFormed(One(b, x))
    ensures Label(One(b, x), [b]) == [b]
  {
    var t := Empty();
    assert WellFormed(t);
    LookupStarts(t, 0);
    assert Child([], b) == [b] && Parent([b]) == [];
    SlotStep(t, [], [b]);
    WalkStops(t, [], [b]);
    InsertedAt(t, [], b, [b], 0, x, 1);
    InsertedFacts(t, [b], x, 1);
  }

  lemma SecondDeposit(b: Token, c: Token, x: seq<BlockId>, y: seq<BlockId>)
    ensures WellFormed(One(b, x)) && Agrees(One(b, x), [b, c]) && Inserted(One(b, x), [b, c], y, 2) == Two(b, c, x, y)
    ensures WellFormed(Two(b, c, x, y))
  {
    FirstDeposit(b, x);
    var t, tokens := One(b, x), [b, c];
    assert Child([], b) == [b] && Child([b], c) == [b, c] && Parent([b, c]) == [b];
    assert tokens[1..] == [c];
    hide WellFormed, Label, Walk, Slot, Inserted, PathBlocks, TreeBlocks;
    LookupStarts(t, 0);
    SlotStep(t, [], tokens);
    SlotStep(t, [b], [c]);
    WalkStep(t, [], tokens);
    WalkStops(t, [b], [c]);
    InsertedAt(t, [b], c, tokens, 1, y, 2);
    InsertedFacts(t, tokens, y, 2);
  }

  lemma ThirdDeposit(a: Token, b: Token, c: Token, x: seq<BlockId>, y: seq<BlockId>, z: seq<BlockId>)
    requires a != b
    ensures var t := Two(b, c, x, y);
      WellFormed(t) && Agrees(t, [a]) && Inserted(t, [a], z, 3) == Three(a, b, c, x, y, z)
    ensures WellFormed(Three(a, b, c, x, y, z))
  {
    SecondDeposit(b, c, x, y);
    var t := Two(b, c, x, y);
    assert Child([], a) == [a] && [a] != [b] && [a] !in t;
    hide WellFormed, Label, Walk, Slot, Inserted, PathBlocks, TreeBlocks;
    LookupStarts(t, 0);
    SlotStep(t, [], [a]);
    WalkStops(t, [], [a]);
    InsertedAt(t, [], a, [a], 0, z, 3);
    InsertedFacts(t, [a], z, 3);
    assert [a][0..] == [a];
  }

  lemma HistoryCons(t: Trie, op: CacheOp, ops: seq<CacheOp>)
    requires WellFormed(t) && Allowed(t, op) && WellFormed(Apply(t, op)) && Legal(Apply(t, op), ops)
    ensures Legal(t, [op] + ops) && After(t, [op] + ops) == After(Apply(t, op), ops)
  {
    hide WellFormed, Allowed, Apply;
    assert ([op] + ops)[0] == op && ([op] + ops)[1..] == ops;
  }

  /**
   * Eviction is not globally least recently used: after depositing `[b]`, `[b, c]` and `[a]`, all in agreement, the
   * only leaf the cache can evict is the youngest of all, `[a]`.
   */
  lemma YoungerLeafEvicted(a: Token, b: Token, c: Token, x: seq<BlockId>, y: seq<BlockId>, z: seq<BlockId>)
    returns (ops: seq<CacheOp>)
    requires a != b
    ensures WellFormed(Empty()) && Legal(Empty(), ops)
    ensures var t := After(Empty(), ops);
      && [b, c] in t && Leaf(t, [b, c]) && [a] in t && Leaf(t, [a]) && t[[b, c]].stamp < t[[a]].stamp
      && forall q :: EvictChoice(t, q) <==> q == [a]
  {
    FirstDeposit(b, x);
    SecondDeposit(b, c, x, y);
    ThirdDeposit(a, b, c, x, y, z);
    var op1, op2, op3 := Insert([b], x, 1), Insert([b, c], y, 2), Insert([a], z, 3);
    var t := Three(a, b, c, x, y, z);
    assert Legal(t, []) && After(t, []) == t;
    assert t.Keys == {[], [a], [b], [b, c]} && t[[b]].stamp < t[[b, c]].stamp < t[[a]].stamp;
    hide WellFormed, Agrees, Inserted, Legal, After, EvictChoice, Leaf, Empty, One, Two, Three;
    HistoryCons(Two(b, c, x, y), op3, []);
    HistoryCons(One(b, x), op2, [op3] + []);
    HistoryCons(Empty(), op1, [op2] + ([op3] + []));
    ops := [op1] + ([op2] + ([op3] + []));
    forall q
      ensures EvictChoice(t, q) <==> q == [a]
      ensures Leaf(t, [b, c]) && Leaf(t, [a])
    {
      OnlyTopChoice(t, a, b, c, q);
    }
  }
}
