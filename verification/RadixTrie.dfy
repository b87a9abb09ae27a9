/**
 * The radix tree as a value: every node is addressed by its path, the sequence of first tokens under which it and its
 * ancestors are filed in their parents' child maps. The root is the empty path.
 */
module RadixTrie {
  import opened Types
  import opened Holdings

  type Path = seq<Token>

  datatype Entry = Entry(tokens: seq<Token>, blocks: seq<BlockId>, stamp: nat)

  type Trie = map<Path, Entry>

  function Parent(p: Path): Path
    requires p != []
  {
    p[..|p| - 1]
  }

  function Key(p: Path): Token
    requires p != []
  {
    p[|p| - 1]
  }

  /** The path of the child filed under `k` at `p`. */
  function Child(p: Path, k: Token): Path {
    p + [k]
  }

  /** Nodes hang off nodes, and a node is keyed by the first of its own tokens. */
  ghost predicate WellFormed(t: Trie) {
    && [] in t && t[[]].tokens == [] && t[[]].blocks == []
    && forall p, k | Child(p, k) in t ::
         p in t && t[Child(p, k)].tokens != [] && t[Child(p, k)].tokens[0] == k
  }

  lemma ParentIn(t: Trie, p: Path)
    requires WellFormed(t) && p in t && p != []
    ensures Parent(p) in t && t[p].tokens != [] && t[p].tokens[0] == Key(p)
    ensures Child(Parent(p), Key(p)) == p
  {
    assert Child(Parent(p), Key(p)) == p;
  }

  lemma ParentOfChild(p: Path, k: Token)
    ensures Child(p, k) != [] && Parent(Child(p, k)) == p && Key(Child(p, k)) == k
  {
  }

  /** The tokens spelled from the root down to `p`. */
  ghost function Label(t: Trie, p: Path): seq<Token>
    requires WellFormed(t) && p in t
    decreases |p|
  {
    if p == [] then []
    else
      ParentIn(t, p);
      Label(t, Parent(p)) + t[p].tokens
  }

  /** The blocks collected from the root down to `p`. */
  ghost function PathBlocks(t: Trie, p: Path): seq<BlockId>
    requires WellFormed(t) && p in t
    decreases |p|
  {
    if p == [] then []
    else
      ParentIn(t, p);
      PathBlocks(t, Parent(p)) + t[p].blocks
  }

  ghost predicate Leaf(t: Trie, p: Path) {
    forall k :: Child(p, k) !in t
  }

  /** The block lists of the nodes, without labels and access times. */
  ghost function Store(t: Trie): map<Path, seq<BlockId>> {
    map p | p in t :: t[p].blocks
  }

  /** Multiset of all blocks the tree holds. */
  ghost function TreeBlocks(t: Trie): multiset<BlockId> {
    Total(Store(t))
  }

  // ---------------------------------------------------------------- paths

  lemma {:induction false} AncestorIn(t: Trie, p: Path, i: nat)
    requires WellFormed(t) && p in t && i <= |p|
    ensures p[..i] in t
    decreases |p|
  {
    if i == |p| {
      assert p[..i] == p;
    } else {
      ParentIn(t, p);
      AncestorIn(t, Parent(p), i);
      assert Parent(p)[..i] == p[..i];
    }
  }

  lemma {:induction false} LabelExtends(t: Trie, p: Path, q: Path)
    requires WellFormed(t) && p in t && q in t && p <= q
    ensures Label(t, p) <= Label(t, q)
    ensures p != q ==> |Label(t, p)| < |Label(t, q)|
    decreases |q|
  {
    if p != q {
      ParentIn(t, q);
      LabelExtends(t, p, Parent(q));
    }
  }

  /** Labels and path blocks depend only on the nodes along the path. */
  lemma {:induction false} PathFrame(t: Trie, u: Trie, p: Path)
    requires WellFormed(t) && WellFormed(u) && p in t && p in u
    requires forall q | q in t && q in u :: t[q].tokens == u[q].tokens && t[q].blocks == u[q].blocks
    ensures Label(t, p) == Label(u, p) && PathBlocks(t, p) == PathBlocks(u, p)
    decreases |p|
  {
    if p != [] {
      ParentIn(t, p);
      ParentIn(u, p);
      PathFrame(t, u, Parent(p));
    }
  }

  lemma {:induction false} PathBlocksHeldIn(t: Trie, p: Path, s: map<Path, seq<BlockId>>)
    requires WellFormed(t) && p in t
    requires forall i | 0 <= i <= |p| :: p[..i] in s && p[..i] in t && s[p[..i]] == t[p[..i]].blocks
    ensures multiset(PathBlocks(t, p)) <= Total(s)
    decreases |p|
  {
    if p != [] {
      ParentIn(t, p);
      assert p[..|p|] == p;
      forall i | 0 <= i <= |Parent(p)|
        ensures Parent(p)[..i] in s - {p} && Parent(p)[..i] in t
          && (s - {p})[Parent(p)[..i]] == t[Parent(p)[..i]].blocks
      {
        assert Parent(p)[..i] == p[..i];
      }
      PathBlocksHeldIn(t, Parent(p), s - {p});
      TotalRemove(s, p);
    }
  }

  /** What a lookup hands out, the tree holds, counted with multiplicity. */
  lemma PathBlocksHeld(t: Trie, p: Path)
    requires WellFormed(t) && p in t
    ensures multiset(PathBlocks(t, p)) <= TreeBlocks(t)
  {
    forall i | 0 <= i <= |p|
      ensures p[..i] in Store(t) && Store(t)[p[..i]] == t[p[..i]].blocks
    {
      AncestorIn(t, p, i);
    }
    PathBlocksHeldIn(t, p, Store(t));
  }

  lemma InnerNotLeaf(t: Trie, p: Path, q: Path)
    requires WellFormed(t) && q in t && p < q
    ensures !Leaf(t, p)
  {
    AncestorIn(t, q, |p| + 1);
    assert q[..|p| + 1] == Child(p, q[|p|]);
  }

  // ---------------------------------------------------------------- lookup

  /**
   * The walk of `match_prefix` from node `p` with `rest` still to match: it enters a child only when all its tokens
   * match.
   */
  ghost function Walk(t: Trie, p: Path, rest: seq<Token>): Path
    requires WellFormed(t) && p in t
    decreases |rest|
  {
    if rest == [] then p
    else
      var c := Child(p, rest[0]);
      if c in t && t[c].tokens <= rest then Walk(t, c, rest[|t[c].tokens|..]) else p
  }

  /** The flat reading: `m` is the node with the longest label that is a prefix of the query. */
  ghost predicate LongestMatch(t: Trie, query: seq<Token>, m: Path)
    requires WellFormed(t)
  {
    && m in t
    && Label(t, m) <= query
    && forall q | q in t && Label(t, q) <= query :: q <= m
  }

  lemma WalkStops(t: Trie, p: Path, rest: seq<Token>)
    requires WellFormed(t) && p in t
    requires rest == [] || Child(p, rest[0]) !in t || !(t[Child(p, rest[0])].tokens <= rest)
    ensures Walk(t, p, rest) == p
  {
  }

  lemma WalkStep(t: Trie, p: Path, rest: seq<Token>)
    requires WellFormed(t) && p in t && rest != [] && Child(p, rest[0]) in t && t[Child(p, rest[0])].tokens <= rest
    ensures var c := Child(p, rest[0]);
      && t[c].tokens != []
      && Walk(t, p, rest) == Walk(t, c, rest[|t[c].tokens|..])
      && Label(t, c) == Label(t, p) + t[c].tokens
      && PathBlocks(t, c) == PathBlocks(t, p) + t[c].blocks
  {
    ParentOfChild(p, rest[0]);
  }

  lemma {:induction false} WalkStays(t: Trie, p: Path, rest: seq<Token>, query: seq<Token>)
    requires WellFormed(t) && p in t && query == Label(t, p) + rest
    ensures var m := Walk(t, p, rest); m in t && p <= m && Label(t, m) <= query
    decreases |rest|
  {
    if rest != [] {
      var c := Child(p, rest[0]);
      if c in t && t[c].tokens <= rest {
        assert Parent(c) == p;
        WalkStays(t, c, rest[|t[c].tokens|..], query);
      }
    }
  }

  lemma WalkEnds(t: Trie, query: seq<Token>)
    requires WellFormed(t)
    ensures Walk(t, [], query) in t && Label(t, Walk(t, [], query)) <= query
  {
    WalkStays(t, [], query, query);
  }

  /** The child of `p` on the way to a node whose label the query extends: its tokens are next in the query. */
  lemma TowardMatch(t: Trie, p: Path, rest: seq<Token>, query: seq<Token>, q: Path) returns (c: Path)
    requires WellFormed(t) && p in t && q in t && query == Label(t, p) + rest && p < q && Label(t, q) <= query
    ensures rest != [] && c == Child(p, rest[0]) && c in t && c <= q && t[c].tokens != [] && t[c].tokens <= rest
    ensures query == Label(t, c) + rest[|t[c].tokens|..]
  {
    c := q[..|p| + 1];
    AncestorIn(t, q, |p| + 1);
    assert Parent(c) == p;
    ParentIn(t, c);
    LabelExtends(t, c, q);
    var above, tokens := Label(t, p), t[c].tokens;
    assert Label(t, c) == above + tokens;
    hide WellFormed, Label;
    NextTokens(above, tokens, rest, query);
  }

  lemma NextTokens(above: seq<Token>, tokens: seq<Token>, rest: seq<Token>, query: seq<Token>)
    requires query == above + rest && above + tokens <= query
    ensures tokens <= rest && query == above + tokens + rest[|tokens|..]
  {
    assert query[|above|..] == rest;
    assert query[|above|..|above + tokens|] == tokens;
    assert rest[..|tokens|] == tokens;
  }

  lemma {:induction false} WalkReaches(t: Trie, p: Path, rest: seq<Token>, query: seq<Token>, q: Path)
    requires WellFormed(t) && p in t && q in t && query == Label(t, p) + rest
    requires p <= q && Label(t, q) <= query
    ensures q <= Walk(t, p, rest)
    decreases |rest|
  {
    if p == q {
      WalkStays(t, p, rest, query);
    } else {
      var c := TowardMatch(t, p, rest, query, q);
      WalkReaches(t, c, rest[|t[c].tokens|..], query, q);
    }
  }

  /** Main result on lookup: the walk refines the flat longest-prefix search, whose answer is unique. */
  lemma WalkIsLongestMatch(t: Trie, query: seq<Token>, m: Path)
    requires WellFormed(t)
    ensures LongestMatch(t, query, m) <==> m == Walk(t, [], query)
  {
    var w := Walk(t, [], query);
    WalkStays(t, [], query, query);
    forall q | q in t && Label(t, q) <= query
      ensures q <= w
    {
      WalkReaches(t, [], query, query, q);
    }
    assert LongestMatch(t, query, w);
    if LongestMatch(t, query, m) {
      assert m <= w && w <= m;
    }
  }

  // ---------------------------------------------------------------- access times

  /** A lookup stamps the nodes it passes with consecutive times, and changes nothing else. */
  ghost function Touched(t: Trie, m: Path, clock: nat): (u: Trie)
    ensures u.Keys == t.Keys
  {
    map p | p in t :: if p != [] && p <= m then t[p].(stamp := clock + |p| - 1) else t[p]
  }

  ghost predicate StampsBelow(t: Trie, clock: nat) {
    forall p | p in t :: t[p].stamp < clock
  }

  lemma LookupStarts(t: Trie, clock: nat)
    requires WellFormed(t)
    ensures [] in t && Label(t, []) == [] && PathBlocks(t, []) == [] && Touched(t, [], clock) == t
  {
  }

  lemma TouchedStep(t: Trie, p: Path, k: Token, clock: nat)
    requires WellFormed(t) && Child(p, k) in t
    ensures Touched(t, p, clock)[Child(p, k)] == t[Child(p, k)]
    ensures Touched(t, Child(p, k), clock) == Touched(t, p, clock)[Child(p, k) := t[Child(p, k)].(stamp := clock + |p|)]
  {
    var c := Child(p, k);
    forall q | q in t
      ensures q <= c <==> q <= p || q == c
    {
      if q <= c && q != c {
        assert |q| <= |p| && p == c[..|p|];
      }
    }
  }

  lemma TouchedWellFormed(t: Trie, m: Path, clock: nat)
    requires WellFormed(t)
    ensures WellFormed(Touched(t, m, clock)) && Store(Touched(t, m, clock)) == Store(t)
  {
    var u := Touched(t, m, clock);
    forall p, k | Child(p, k) in u
      ensures p in u && u[Child(p, k)].tokens != [] && u[Child(p, k)].tokens[0] == k
    {
      assert Child(p, k) in t;
    }
  }

  lemma TouchedKeepsContents(t: Trie, m: Path, clock: nat)
    requires WellFormed(t)
    ensures WellFormed(Touched(t, m, clock)) && TreeBlocks(Touched(t, m, clock)) == TreeBlocks(t)
    ensures StampsBelow(t, clock) ==> StampsBelow(Touched(t, m, clock), clock + |m|)
    ensures forall p | p in t ::
      Label(Touched(t, m, clock), p) == Label(t, p) && PathBlocks(Touched(t, m, clock), p) == PathBlocks(t, p)
  {
    TouchedWellFormed(t, m, clock);
    forall p | p in t
      ensures Label(Touched(t, m, clock), p) == Label(t, p) && PathBlocks(Touched(t, m, clock), p) == PathBlocks(t, p)
    {
      PathFrame(t, Touched(t, m, clock), p);
    }
  }

  /**
   * The nodes a lookup passes become the most recent of all, each later than the one above; the others keep their
   * times.
   */
  lemma RecentPath(t: Trie, m: Path, clock: nat)
    requires WellFormed(t) && StampsBelow(t, clock) && m in t
    ensures var u := Touched(t, m, clock);
      && u.Keys == t.Keys
      && (forall p | p in t && p != [] && p <= m :: u[p].stamp >= clock)
      && (forall p, q | p in t && p != [] && q in t && p < q <= m :: u[p].stamp < u[q].stamp)
      && (forall q | q in t && (q == [] || !(q <= m)) :: u[q].stamp == t[q].stamp < clock)
  {
  }

  // ---------------------------------------------------------------- insertion

  /** Where `insert` files a new node: it descends by first token and label length only, comparing no further token. */
  ghost function Slot(t: Trie, p: Path, rest: seq<Token>): Option<Path>
    requires WellFormed(t) && p in t
    decreases |rest|
  {
    if rest == [] then None
    else
      var c := Child(p, rest[0]);
      if c !in t then Some(c)
      else if |rest| <= |t[c].tokens| then None
      else Slot(t, c, rest[|t[c].tokens|..])
  }

  lemma SlotStep(t: Trie, p: Path, rest: seq<Token>)
    requires WellFormed(t) && p in t
    ensures rest == [] ==> Slot(t, p, rest) == None
    ensures rest != [] && Child(p, rest[0]) !in t ==> Slot(t, p, rest) == Some(Child(p, rest[0]))
    ensures rest != [] && Child(p, rest[0]) in t ==>
      var c := Child(p, rest[0]);
      && t[c].tokens != []
      && Label(t, c) == Label(t, p) + t[c].tokens
      && Slot(t, p, rest) == if |rest| <= |t[c].tokens| then None else Slot(t, c, rest[|t[c].tokens|..])
  {
    if rest != [] {
      ParentOfChild(p, rest[0]);
    }
  }

  lemma {:induction false} SlotFacts(t: Trie, p: Path, rest: seq<Token>)
    requires WellFormed(t) && p in t && Slot(t, p, rest).Some?
    ensures var c := Slot(t, p, rest).value;
      && c !in t && c != [] && Parent(c) in t && p <= Parent(c)
      && |Label(t, p)| <= |Label(t, Parent(c))| < |Label(t, p)| + |rest|
      && Key(c) == rest[|Label(t, Parent(c))| - |Label(t, p)|]
    decreases |rest|
  {
    var c := Child(p, rest[0]);
    assert Parent(c) == p;
    if c in t {
      SlotFacts(t, c, rest[|t[c].tokens|..]);
    }
  }

  /**
   * Flat reading of the descent: below `p` every key of `c` is the token at the place where the label above it ends.
   */
  ghost predicate KeysAlong(t: Trie, p: Path, c: Path, tokens: seq<Token>)
    requires WellFormed(t)
  {
    forall i | |p| <= i < |c| ::
      c[..i] in t && |Label(t, c[..i])| < |tokens| && c[i] == tokens[|Label(t, c[..i])|]
  }

  lemma {:induction false} SlotKeys(t: Trie, p: Path, tokens: seq<Token>, c: Path)
    requires WellFormed(t) && p in t && |Label(t, p)| <= |tokens|
    ensures Slot(t, p, tokens[|Label(t, p)|..]) == Some(c) <==> p < c && c !in t && KeysAlong(t, p, c, tokens)
    decreases |tokens| - |Label(t, p)|
  {
    hide WellFormed, Label;
    var rest := tokens[|Label(t, p)|..];
    SlotStep(t, p, rest);
    if p < c && KeysAlong(t, p, c, tokens) {
      assert c[..|p|] == p;
      assert c[..|p| + 1] == Child(p, c[|p|]);
    }
    if rest != [] {
      var d := Child(p, rest[0]);
      assert d[|p|] == rest[0] == tokens[|Label(t, p)|];
      if d !in t {
        VacantKeys(t, p, tokens, c);
      } else if |Label(t, d)| <= |tokens| {
        SuffixOfSuffix(tokens, |Label(t, p)|, |t[d].tokens|);
        SlotKeys(t, d, tokens, c);
        KeysBelow(t, p, d, c, tokens);
        SlotStep(t, d, tokens[|Label(t, d)|..]);
      } else {
        KeysBelow(t, p, d, c, tokens);
      }
    }
  }

  lemma VacantKeys(t: Trie, p: Path, tokens: seq<Token>, c: Path)
    requires WellFormed(t) && p in t && |Label(t, p)| < |tokens| && Child(p, tokens[|Label(t, p)|]) !in t
    ensures p < c && c !in t && KeysAlong(t, p, c, tokens) <==> c == Child(p, tokens[|Label(t, p)|])
  {
    hide WellFormed, Label;
    var d := Child(p, tokens[|Label(t, p)|]);
    if p < c && KeysAlong(t, p, c, tokens) {
      assert c[..|p|] == p;
      assert c[..|p| + 1] == d;
      assert c == c[..|p| + 1];
    }
    if c == d {
      assert c[..|p|] == p;
    }
  }

  lemma KeysBelow(t: Trie, p: Path, d: Path, c: Path, tokens: seq<Token>)
    requires WellFormed(t) && p in t && d in t && |Label(t, p)| < |tokens| && d == Child(p, tokens[|Label(t, p)|])
    ensures p < c && c !in t && KeysAlong(t, p, c, tokens)
      ==> d < c && KeysAlong(t, d, c, tokens) && |Label(t, d)| < |tokens|
    ensures d < c && KeysAlong(t, d, c, tokens) ==> p < c && KeysAlong(t, p, c, tokens)
  {
    hide WellFormed, Label;
    if p < c && c !in t && KeysAlong(t, p, c, tokens) {
      assert c[..|p|] == p;
      assert c[..|p| + 1] == d;
      assert c != d;
    }
    if d < c && KeysAlong(t, d, c, tokens) {
      assert c[..|p|] == d[..|p|] == p && c[|p|] == d[|p|];
    }
  }

  /**
   * Where `insert` files a prompt, independently of its descent: the new node is the one absent path below a node whose
   * keys are the prompt's tokens at the places where the labels above end; if there is none, nothing is stored.
   */
  lemma SlotIff(t: Trie, tokens: seq<Token>, c: Path)
    requires WellFormed(t)
    ensures Slot(t, [], tokens) == Some(c) <==> c != [] && c !in t && KeysAlong(t, [], c, tokens)
  {
    LookupStarts(t, 0);
    assert tokens[0..] == tokens;
    SlotKeys(t, [], tokens, c);
  }

  /** The node that `insert` creates at a vacant slot. */
  ghost function Fresh(t: Trie, c: Path, tokens: seq<Token>, blocks: seq<BlockId>, stamp: nat): Entry
    requires WellFormed(t) && c != [] && Parent(c) in t && |Label(t, Parent(c))| <= |tokens|
  {
    Entry(tokens[|Label(t, Parent(c))|..], blocks, stamp)
  }

  /** The tree after `insert`, before any eviction. */
  ghost function Inserted(t: Trie, tokens: seq<Token>, blocks: seq<BlockId>, stamp: nat): Trie
    requires WellFormed(t)
  {
    match Slot(t, [], tokens)
    case None => t
    case Some(c) =>
      SlotFacts(t, [], tokens);
      t[c := Fresh(t, c, tokens, blocks, stamp)]
  }

  lemma InsertedFacts(t: Trie, tokens: seq<Token>, blocks: seq<BlockId>, stamp: nat)
    requires WellFormed(t) && Slot(t, [], tokens).Some?
    ensures var c, u := Slot(t, [], tokens).value, Inserted(t, tokens, blocks, stamp);
      && WellFormed(u) && c in u && c !in t && c != [] && Leaf(u, c)
      && Parent(c) in t && Parent(c) in u
      && |Label(t, Parent(c))| < |tokens| == |Label(u, c)|
      && u[c].blocks == blocks
      && Label(u, c) == Label(t, Parent(c)) + tokens[|Label(t, Parent(c))|..]
      && TreeBlocks(u) == TreeBlocks(t) + multiset(blocks)
      && forall p | p in t :: Label(u, p) == Label(t, p) && PathBlocks(u, p) == PathBlocks(t, p)
  {
    SlotFacts(t, [], tokens);
    var c, u := Slot(t, [], tokens).value, Inserted(t, tokens, blocks, stamp);
    forall p | p in t
      ensures Label(u, p) == Label(t, p) && PathBlocks(u, p) == PathBlocks(t, p)
    {
      PathFrame(t, u, p);
    }
    assert Store(u) == Store(t)[c := blocks];
    TotalAdd(Store(t), c, blocks);
  }

  /**
   * A caller's test: the lookup of `tokens` either covers them or stops where no child is filed under the next token.
   */
  ghost predicate Agrees(t: Trie, tokens: seq<Token>)
    requires WellFormed(t)
  {
    var m := Walk(t, [], tokens);
    WalkEnds(t, tokens);
    |Label(t, m)| == |tokens| || Child(m, tokens[|Label(t, m)|]) !in t
  }

  lemma {:induction false} SlotFollowsWalk(t: Trie, p: Path, rest: seq<Token>, query: seq<Token>)
    requires WellFormed(t) && p in t && query == Label(t, p) + rest
    ensures var m := Walk(t, p, rest);
      m in t && |Label(t, m)| <= |query| && Slot(t, p, rest) == Slot(t, m, query[|Label(t, m)|..])
    decreases |rest|
  {
    WalkStays(t, p, rest, query);
    assert query[|Label(t, p)|..] == rest;
    if rest != [] {
      var c := Child(p, rest[0]);
      if c in t && t[c].tokens <= rest {
        assert Parent(c) == p;
        SlotFollowsWalk(t, c, rest[|t[c].tokens|..], query);
      }
    }
  }

  /**
   * Every later query after an insertion: those extending the new node's label answer with it, all others answer as
   * before. This holds on diverging insertions too.
   */
  lemma InsertedAnswers(t: Trie, tokens: seq<Token>, blocks: seq<BlockId>, stamp: nat, query: seq<Token>)
    requires WellFormed(t) && Slot(t, [], tokens).Some?
    ensures var c, u := Slot(t, [], tokens).value, Inserted(t, tokens, blocks, stamp);
      && WellFormed(u) && c in u
      && Walk(u, [], query) == if Label(u, c) <= query then c else Walk(t, [], query)
  {
    InsertedFacts(t, tokens, blocks, stamp);
    var c, u := Slot(t, [], tokens).value, Inserted(t, tokens, blocks, stamp);
    var m, n := Walk(t, [], query), Walk(u, [], query);
    WalkIsLongestMatch(t, query, m);
    WalkIsLongestMatch(u, query, n);
    if Label(u, c) <= query {
      if c != n {
        InnerNotLeaf(u, c, n);
      }
    } else {
      forall q | q in u && Label(u, q) <= query
        ensures q <= m
      {
        assert q in t;
      }
      WalkIsLongestMatch(u, query, m);
    }
  }

  lemma AgreeingParent(t: Trie, tokens: seq<Token>)
    requires WellFormed(t) && Slot(t, [], tokens).Some?
    ensures var c := Slot(t, [], tokens).value;
      c != [] && Parent(c) in t && (Label(t, Parent(c)) <= tokens <==> Agrees(t, tokens))
  {
    SlotFacts(t, [], tokens);
    SlotFollowsWalk(t, [], tokens, tokens);
    WalkIsLongestMatch(t, tokens, Walk(t, [], tokens));
    var c, m := Slot(t, [], tokens).value, Walk(t, [], tokens);
    var rest := tokens[|Label(t, m)|..];
    var d := Child(m, rest[0]);
    ParentOfChild(m, rest[0]);
    if d in t {
      SlotFacts(t, d, rest[|t[d].tokens|..]);
      LabelExtends(t, d, Parent(c));
      assert !(d <= m);
      assert !(Label(t, d) <= tokens);
    }
  }

  /** An insertion that stores a node spells the inserted tokens there exactly when it agrees with the tree. */
  lemma InsertedSpells(t: Trie, tokens: seq<Token>, blocks: seq<BlockId>, stamp: nat)
    requires WellFormed(t) && Slot(t, [], tokens).Some?
    ensures var c, u := Slot(t, [], tokens).value, Inserted(t, tokens, blocks, stamp);
      WellFormed(u) && c in u && (Label(u, c) == tokens <==> Agrees(t, tokens))
  {
    InsertedFacts(t, tokens, blocks, stamp);
    AgreeingParent(t, tokens);
    var c, u := Slot(t, [], tokens).value, Inserted(t, tokens, blocks, stamp);
    var above := Label(t, Parent(c));
    assert tokens == tokens[..|above|] + tokens[|above|..];
    if Label(u, c) == tokens {
      assert above == (above + tokens[|above|..])[..|above|];
    }
  }

  /**
   * Round trip: after inserting, a lookup of the same tokens covers all of them if and only if the insertion agreed.
   */
  lemma InsertThenMatch(t: Trie, tokens: seq<Token>, blocks: seq<BlockId>, stamp: nat)
    requires WellFormed(t)
    ensures var u := Inserted(t, tokens, blocks, stamp);
      && WellFormed(u) && Walk(u, [], tokens) in u
      && (Label(u, Walk(u, [], tokens)) == tokens <==> Agrees(t, tokens))
  {
    WalkStays(t, [], tokens, tokens);
    var m := Walk(t, [], tokens);
    if Slot(t, [], tokens).Some? {
      InsertedFacts(t, tokens, blocks, stamp);
      InsertedSpells(t, tokens, blocks, stamp);
      InsertedAnswers(t, tokens, blocks, stamp, tokens);
      if Label(t, m) == tokens {
        SlotFollowsWalk(t, [], tokens, tokens);
      }
    } else {
      SlotFollowsWalk(t, [], tokens, tokens);
      assert |Label(t, m)| == |tokens| ==> Label(t, m) == tokens;
    }
  }

  // ---------------------------------------------------------------- eviction

  ghost predicate NoLeafChild(t: Trie, p: Path) {
    forall k | Child(p, k) in t :: !Leaf(t, Child(p, k))
  }

  ghost predicate OldestAmongLeafSiblings(t: Trie, c: Path)
    requires c in t && c != []
  {
    forall k | Child(Parent(c), k) in t && Leaf(t, Child(Parent(c), k)) :: t[c].stamp <= t[Child(Parent(c), k)].stamp
  }

  /**
   * What `find_oldest_leaf` may remove when started at `p`: a leaf below, the oldest among its leaf siblings, all nodes
   * passed having no leaf child.
   */
  ghost predicate EvictChoiceBelow(t: Trie, p: Path, c: Path) {
    && p < c && c in t && Leaf(t, c)
    && OldestAmongLeafSiblings(t, c)
    && forall i | |p| <= i < |c| - 1 :: NoLeafChild(t, c[..i])
  }

  ghost predicate EvictChoice(t: Trie, c: Path) {
    EvictChoiceBelow(t, [], c)
  }

  /**
   * Using a cached prefix protects it: a leaf that has just been hit is not evicted while it has another leaf sibling.
   */
  lemma HitOutlivesSibling(t: Trie, m: Path, clock: nat, q: Path)
    requires WellFormed(t) && StampsBelow(t, clock) && m in t && m != []
    requires q in t && q != [] && q != m && Parent(q) == Parent(m) && Leaf(t, q)
    ensures !EvictChoice(Touched(t, m, clock), m)
  {
    var u := Touched(t, m, clock);
    assert Child(Parent(q), Key(q)) == q;
    assert !(q <= m);
    assert u[q] == t[q] && u[m].stamp >= clock;
    assert forall k :: Child(q, k) in u <==> Child(q, k) in t;
  }

  /** So is a prompt that has just been deposited. */
  lemma DepositOutlivesSibling(t: Trie, tokens: seq<Token>, blocks: seq<BlockId>, clock: nat, p: Path, k: Token,
    q: Path)
    requires WellFormed(t) && StampsBelow(t, clock) && Slot(t, [], tokens) == Some(Child(p, k))
    requires q in t && q != [] && Parent(q) == p && Leaf(t, q)
    ensures var u := Inserted(t, tokens, blocks, clock);
      Child(p, k) in u && !EvictChoice(u, Child(p, k))
  {
    InsertedFacts(t, tokens, blocks, clock);
    var c, u := Child(p, k), Inserted(t, tokens, blocks, clock);
    hide WellFormed, Label, PathBlocks, TreeBlocks, Slot;
    ParentOfChild(p, k);
    assert Child(Parent(q), Key(q)) == q;
    assert |q| == |c|;
    assert forall j :: Child(q, j) != c;
    assert u[q] == t[q] && u[c].stamp == clock;
  }

  lemma RemoveLeafWellFormed(t: Trie, p: Path)
    requires WellFormed(t) && p in t && p != [] && Leaf(t, p)
    ensures WellFormed(t - {p})
  {
    var u := t - {p};
    forall q, k | Child(q, k) in u
      ensures q in u && u[Child(q, k)].tokens != [] && u[Child(q, k)].tokens[0] == k
    {
      assert Child(q, k) in t;
    }
  }

  lemma RemoveLeafFacts(t: Trie, p: Path)
    requires WellFormed(t) && p in t && p != [] && Leaf(t, p)
    ensures WellFormed(t - {p})
    ensures TreeBlocks(t) == TreeBlocks(t - {p}) + multiset(t[p].blocks)
    ensures forall q | q in t - {p} :: Label(t - {p}, q) == Label(t, q) && PathBlocks(t - {p}, q) == PathBlocks(t, q)
  {
    var u := t - {p};
    RemoveLeafWellFormed(t, p);
    forall q | q in u
      ensures Label(u, q) == Label(t, q) && PathBlocks(u, q) == PathBlocks(t, q)
    {
      PathFrame(t, u, q);
    }
    TotalRemove(Store(t), p);
    assert Store(t) - {p} == Store(u);
  }

  /** Eviction costs any query at most the last node of its answer. */
  lemma EvictedAnswers(t: Trie, p: Path, query: seq<Token>)
    requires WellFormed(t) && p in t && p != [] && Leaf(t, p)
    ensures WellFormed(t - {p})
    ensures Walk(t - {p}, [], query) == if Walk(t, [], query) == p then Parent(p) else Walk(t, [], query)
  {
    RemoveLeafFacts(t, p);
    var m := Walk(t, [], query);
    WalkIsLongestMatch(t, query, m);
    ParentIn(t, p);
    var n, u := if m == p then Parent(p) else m, t - {p};
    LabelExtends(t, n, m);
    assert n in u && Label(u, n) <= query;
    forall q | q in u && Label(u, q) <= query
      ensures q <= n
    {
      assert q in t && Label(t, q) <= query;
      assert q <= m;
      assert q != m ==> |q| < |m|;
    }
    WalkIsLongestMatch(u, query, n);
  }

  /** The tree left after removing the listed leaves one by one. */
  ghost function Remaining(t: Trie, ps: seq<Path>): Trie {
    if ps == [] then t else Remaining(t, ps[..|ps| - 1]) - {ps[|ps| - 1]}
  }

  /** Every listed node was an admissible choice when its turn came. */
  ghost predicate Evictable(t: Trie, ps: seq<Path>) {
    ps == [] || (Evictable(t, ps[..|ps| - 1]) && EvictChoice(Remaining(t, ps[..|ps| - 1]), ps[|ps| - 1]))
  }

  /** The blocks of the removed nodes, in order of removal. */
  ghost function Freed(t: Trie, ps: seq<Path>): seq<BlockId>
    requires Evictable(t, ps)
  {
    if ps == [] then []
    else Freed(t, ps[..|ps| - 1]) + Remaining(t, ps[..|ps| - 1])[ps[|ps| - 1]].blocks
  }

  /** A whole call of `evict_lru`: at least one removal, then more until the tree fits or only the root is left. */
  ghost predicate EvictRun(t: Trie, capacity: nat, ps: seq<Path>) {
    && Evictable(t, ps)
    && (forall i | 0 < i < |ps| :: |TreeBlocks(Remaining(t, ps[..i]))| > capacity)
    && (Remaining(t, ps).Keys == {[]} || (ps != [] && |TreeBlocks(Remaining(t, ps))| <= capacity))
  }

  /**
   * Evictions conserve blocks: what left the tree is exactly what is returned; surviving nodes keep label and blocks.
   */
  lemma {:induction false} EvictionFacts(t: Trie, ps: seq<Path>)
    requires WellFormed(t) && Evictable(t, ps)
    ensures var u := Remaining(t, ps);
      && WellFormed(u)
      && TreeBlocks(t) == TreeBlocks(u) + multiset(Freed(t, ps))
      && u.Keys <= t.Keys
      && (forall q | q in u :: u[q] == t[q])
      && (forall q | q in u :: Label(u, q) == Label(t, q))
  {
    if ps != [] {
      EvictionFacts(t, ps[..|ps| - 1]);
      RemoveLeafFacts(Remaining(t, ps[..|ps| - 1]), ps[|ps| - 1]);
    }
  }

  lemma FreedLast(t: Trie, ps: seq<Path>)
    requires WellFormed(t) && Evictable(t, ps) && ps != []
    ensures var init, last := ps[..|ps| - 1], ps[|ps| - 1];
      Evictable(t, init) && last in t && Freed(t, ps) == Freed(t, init) + t[last].blocks
  {
    hide WellFormed, EvictChoice;
    EvictionFacts(t, ps[..|ps| - 1]);
    ChoiceIn(Remaining(t, ps[..|ps| - 1]), ps[|ps| - 1]);
  }

  /** The blocks of the removed nodes come in the order of removal. */
  lemma {:induction false} FreedInOrder(t: Trie, ps: seq<Path>, i: nat)
    requires WellFormed(t) && Evictable(t, ps) && i < |ps|
    ensures Evictable(t, ps[..i]) && ps[i] in t
    ensures var before, n := |Freed(t, ps[..i])|, |t[ps[i]].blocks|;
      before + n <= |Freed(t, ps)| && Freed(t, ps)[before..before + n] == t[ps[i]].blocks
    decreases |ps|
  {
    FreedLast(t, ps);
    hide WellFormed, Evictable, Freed;
    var init := ps[..|ps| - 1];
    if i < |ps| - 1 {
      FreedInOrder(t, init, i);
      assert init[..i] == ps[..i];
    }
  }

  lemma RootHoldsNothing(t: Trie)
    requires WellFormed(t) && t.Keys == {[]}
    ensures TreeBlocks(t) == multiset{}
  {
    TotalRemove(Store(t), []);
    assert Store(t) - {[]} == map[];
  }

  lemma EvictRunPermits(t: Trie, capacity: nat, ps: seq<Path>)
    requires EvictRun(t, capacity, ps)
    ensures Evictable(t, ps)
  {
  }

  /** After `evict_lru` the tree fits. */
  lemma EvictRunFits(t: Trie, capacity: nat, ps: seq<Path>)
    requires WellFormed(t) && EvictRun(t, capacity, ps)
    ensures WellFormed(Remaining(t, ps)) && |TreeBlocks(Remaining(t, ps))| <= capacity
  {
    EvictionFacts(t, ps);
    if Remaining(t, ps).Keys == {[]} {
      RootHoldsNothing(Remaining(t, ps));
    }
  }

  lemma {:induction false} PrefixEvictable(t: Trie, ps: seq<Path>, i: nat)
    requires Evictable(t, ps) && i <= |ps|
    ensures Evictable(t, ps[..i])
    decreases |ps|
  {
    if i == |ps| {
      assert ps[..i] == ps;
    } else {
      PrefixEvictable(t, ps[..|ps| - 1], i);
      assert ps[..|ps| - 1][..i] == ps[..i];
    }
  }

  /**
   * Eviction from an overfull cache goes no further than it must: before every removal the cache was still over its
   * capacity, so what is left and the last node removed exceed it together, and one node suffices if it is big enough.
   */
  lemma EvictionNeeded(t: Trie, capacity: nat, ps: seq<Path>)
    requires WellFormed(t) && EvictRun(t, capacity, ps) && |TreeBlocks(t)| > capacity
    ensures ps != [] && |TreeBlocks(Remaining(t, ps))| <= capacity
    ensures forall i | 0 <= i < |ps| :: |TreeBlocks(Remaining(t, ps[..i]))| > capacity
    ensures var last := ps[|ps| - 1];
      last in t && |TreeBlocks(Remaining(t, ps))| + |t[last].blocks| > capacity
    ensures ps[0] in t && (|TreeBlocks(t)| - |t[ps[0]].blocks| <= capacity ==> |ps| == 1)
  {
    hide WellFormed, TreeBlocks, EvictChoice;
    EvictRunFits(t, capacity, ps);
    EvictRunPermits(t, capacity, ps);
    NoEviction(t);
    var n := |ps|;
    assert ps[..0] == [];
    assert ps == [] ==> Remaining(t, ps) == t;
    assert forall i | 0 <= i < n :: |TreeBlocks(Remaining(t, ps[..i]))| > capacity;
    LastRemoval(t, ps);
    FirstRemoval(t, ps);
    if n > 1 {
      assert |TreeBlocks(Remaining(t, ps[..1]))| > capacity;
    }
  }

  lemma LastRemoval(t: Trie, ps: seq<Path>)
    requires WellFormed(t) && Evictable(t, ps) && ps != []
    ensures var init, last := ps[..|ps| - 1], ps[|ps| - 1];
      last in t && |TreeBlocks(Remaining(t, init))| == |TreeBlocks(Remaining(t, ps))| + |t[last].blocks|
  {
    var init, last := ps[..|ps| - 1], ps[|ps| - 1];
    assert EvictChoice(Remaining(t, init), last);
    hide WellFormed, TreeBlocks, EvictChoice, Evictable, Freed;
    EvictionFacts(t, init);
    LastIsLeaf(Remaining(t, init), last);
    RemoveLeafFacts(Remaining(t, init), last);
    var blocks: seq<BlockId> := t[last].blocks;
    assert |multiset(blocks)| == |blocks|;
  }

  lemma LastIsLeaf(t: Trie, c: Path)
    requires EvictChoice(t, c)
    ensures c in t && c != [] && Leaf(t, c)
  {
  }

  lemma FirstRemoval(t: Trie, ps: seq<Path>)
    requires WellFormed(t) && Evictable(t, ps) && ps != []
    ensures ps[0] in t && |TreeBlocks(t)| == |TreeBlocks(Remaining(t, ps[..1]))| + |t[ps[0]].blocks|
  {
    hide WellFormed, TreeBlocks, EvictChoice;
    PrefixEvictable(t, ps, 1);
    LastRemoval(t, ps[..1]);
    assert ps[..1][..0] == [];
    NoEviction(t);
  }

  lemma {:induction false} OldestOf(t: Trie, s: set<Path>) returns (p: Path)
    requires s != {} && s <= t.Keys
    ensures p in s && forall q | q in s :: t[p].stamp <= t[q].stamp
    decreases s
  {
    p :| p in s;
    if s != {p} {
      var q := OldestOf(t, s - {p});
      if t[q].stamp < t[p].stamp {
        p := q;
      }
    }
  }

  ghost function Below(t: Trie, p: Path): set<Path> {
    set q | q in t && p < q
  }

  lemma BelowShrinks(t: Trie, p: Path, k: Token)
    requires Child(p, k) in t
    ensures Below(t, Child(p, k)) < Below(t, p)
  {
    assert Child(p, k) in Below(t, p) && Child(p, k) !in Below(t, Child(p, k));
    forall q | q in Below(t, Child(p, k))
      ensures q in Below(t, p)
    {
      assert p < Child(p, k);
    }
  }

  /** Descending through a node without leaf children widens the range a choice was made in. */
  lemma ChoiceWidens(t: Trie, p: Path, k: Token, c: Path)
    requires WellFormed(t) && NoLeafChild(t, p) && EvictChoiceBelow(t, Child(p, k), c)
    ensures EvictChoiceBelow(t, p, c) && c in t
  {
    assert p < Child(p, k) < c;
    forall i | |p| <= i < |c| - 1
      ensures NoLeafChild(t, c[..i])
    {
      if i == |p| {
        assert c[..i] == p;
      }
    }
  }

  lemma LeafChildChoice(t: Trie, p: Path, k: Token)
    requires Child(p, k) in t && Leaf(t, Child(p, k))
    requires forall j | Child(p, j) in t && Leaf(t, Child(p, j)) :: t[Child(p, k)].stamp <= t[Child(p, j)].stamp
    ensures EvictChoiceBelow(t, p, Child(p, k))
  {
    ParentOfChild(p, k);
  }

  lemma {:induction false} ChoiceBelow(t: Trie, p: Path) returns (c: Path)
    requires WellFormed(t) && p in t && !Leaf(t, p)
    ensures EvictChoiceBelow(t, p, c)
    decreases Below(t, p)
  {
    var leaves := set q | q in t && q != [] && Parent(q) == p && Leaf(t, q);
    if leaves == {} {
      forall k | Child(p, k) in t
        ensures !Leaf(t, Child(p, k))
      {
        ParentOfChild(p, k);
        assert Child(p, k) !in leaves;
      }
      var k :| Child(p, k) in t;
      BelowShrinks(t, p, k);
      c := ChoiceBelow(t, Child(p, k));
      ChoiceWidens(t, p, k, c);
    } else {
      c := OldestOf(t, leaves);
      ParentIn(t, c);
      forall k | Child(p, k) in t && Leaf(t, Child(p, k))
        ensures t[c].stamp <= t[Child(p, k)].stamp
      {
        ParentOfChild(p, k);
        assert Child(p, k) in leaves;
      }
      LeafChildChoice(t, p, Key(c));
    }
  }

  /** Eviction never gets stuck: a tree with a node besides the root offers an admissible choice. */
  lemma EvictChoiceExists(t: Trie) returns (c: Path)
    requires WellFormed(t) && t.Keys != {[]}
    ensures EvictChoice(t, c)
  {
    var q :| q in t && q != [];
    InnerNotLeaf(t, [], q);
    c := ChoiceBelow(t, []);
  }

  lemma {:induction false} EvictRunFrom(t: Trie, capacity: nat, ps: seq<Path>) returns (qs: seq<Path>)
    requires WellFormed(t) && Evictable(t, ps)
    requires forall i | 0 < i <= |ps| :: |TreeBlocks(Remaining(t, ps[..i]))| > capacity
    ensures EvictRun(t, capacity, qs)
    decreases |Remaining(t, ps)|
  {
    hide WellFormed, Evictable, Remaining, TreeBlocks, EvictChoice;
    EvictionFacts(t, ps);
    var u := Remaining(t, ps);
    if u.Keys == {[]} {
      qs := ps;
    } else {
      var c := EvictChoiceExists(u);
      ChoiceIn(u, c);
      EvictStep(t, ps, c);
      qs := ps + [c];
      assert qs[..|qs|] == qs;
      assert forall i | 0 < i < |qs| :: qs[..i] == ps[..i];
      if |TreeBlocks(Remaining(t, qs))| > capacity {
        qs := EvictRunFrom(t, capacity, qs);
      }
    }
  }

  lemma ChoiceIn(t: Trie, c: Path)
    requires EvictChoice(t, c)
    ensures c in t && c != [] && |t - {c}| < |t|
  {
    assert (t - {c}).Keys == t.Keys - {c};
  }

  /** A whole eviction can always be carried out. */
  lemma EvictRunExists(t: Trie, capacity: nat) returns (ps: seq<Path>)
    requires WellFormed(t)
    ensures EvictRun(t, capacity, ps)
  {
    NoEviction(t);
    ps := EvictRunFrom(t, capacity, []);
  }

  lemma LeafAbsent(t: Trie, c: Path)
    requires WellFormed(t) && c !in t
    ensures Leaf(t, c)
  {
  }

  lemma InsertedAt(t: Trie, p: Path, k: Token, tokens: seq<Token>, i: nat, blocks: seq<BlockId>, stamp: nat)
    requires WellFormed(t) && p in t && |Label(t, p)| == i <= |tokens|
    requires Slot(t, [], tokens) == Some(Child(p, k))
    ensures Inserted(t, tokens, blocks, stamp) == t[Child(p, k) := Entry(tokens[i..], blocks, stamp)]
    ensures StampsBelow(t, stamp) ==> StampsBelow(Inserted(t, tokens, blocks, stamp), stamp + 1)
  {
    ParentOfChild(p, k);
  }

  lemma InsertedNowhere(t: Trie, tokens: seq<Token>, blocks: seq<BlockId>, stamp: nat)
    requires WellFormed(t) && Slot(t, [], tokens) == None
    ensures Inserted(t, tokens, blocks, stamp) == t
  {
  }

  lemma NoEviction(t: Trie)
    ensures Evictable(t, []) && Remaining(t, []) == t && Freed(t, []) == []
  {
  }

  lemma EvictStep(t: Trie, ps: seq<Path>, c: Path)
    requires WellFormed(t) && Evictable(t, ps) && EvictChoice(Remaining(t, ps), c)
    ensures var qs := ps + [c];
      && Evictable(t, qs)
      && Remaining(t, qs) == Remaining(t, ps) - {c}
      && Freed(t, qs) == Freed(t, ps) + Remaining(t, ps)[c].blocks
      && WellFormed(Remaining(t, qs))
      && TreeBlocks(Remaining(t, ps)) == TreeBlocks(Remaining(t, qs)) + multiset(Remaining(t, ps)[c].blocks)
  {
    assert (ps + [c])[..|ps + [c]| - 1] == ps;
    EvictionFacts(t, ps);
    RemoveLeafFacts(Remaining(t, ps), c);
  }

  lemma OnlyRoot(t: Trie)
    requires WellFormed(t) && Leaf(t, [])
    ensures t.Keys == {[]}
  {
    forall q | q in t
      ensures q == []
    {
      if q != [] {
        InnerNotLeaf(t, [], q);
      }
    }
  }

  lemma StampsKept(t: Trie, ps: seq<Path>, clock: nat)
    requires WellFormed(t) && Evictable(t, ps) && StampsBelow(t, clock)
    ensures StampsBelow(Remaining(t, ps), clock)
  {
    EvictionFacts(t, ps);
  }
}
