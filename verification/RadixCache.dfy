/** The prefix cache: a linked radix tree updated in place, with its block counter and LRU eviction. */
module RadixCacheModule {
  import opened Types
  import opened RadixTrie

  class RadixNode {
    var tokens: seq<Token>
    var blockIds: seq<BlockId>
    var children: map<Token, RadixNode>
    var lastAccessed: nat
    // Where the node hangs in its tree.
    ghost const path: Path

    ghost function Value(): Entry
      reads `tokens, `blockIds, `lastAccessed
    {
      Entry(tokens, blockIds, lastAccessed)
    }

    constructor (tokens: seq<Token>, blockIds: seq<BlockId>, now: nat, ghost path: Path)
      ensures this.tokens == tokens && this.blockIds == blockIds && this.children == map[] && this.lastAccessed == now
      ensures this.path == path
    {
      this.path := path;
      this.tokens := tokens;
      this.blockIds := blockIds;
      this.children := map[];
      this.lastAccessed := now;
    }
  }

  /** Length of the common prefix of two token sequences. */
  function CommonPrefix(a: seq<Token>, b: seq<Token>): (n: nat)
    ensures n <= |a| && n <= |b| && a[..n] == b[..n]
    ensures n < |a| && n < |b| ==> a[n] != b[n]
    ensures n == |a| <==> a <= b
  {
    if a != [] && b != [] && a[0] == b[0] then 1 + CommonPrefix(a[1..], b[1..]) else 0
  }

  /** The child map of the node at `p` leads exactly to the nodes one key further down. */
  ghost predicate Wired(children: map<Token, RadixNode>, p: Path, nodes: map<Path, RadixNode>) {
    forall k ::
      && (k in children <==> Child(p, k) in nodes)
      && (k in children ==> children[k] == nodes[Child(p, k)])
  }

  lemma WiredElsewhere(children: map<Token, RadixNode>, p: Path,
                       before: map<Path, RadixNode>, after: map<Path, RadixNode>, c: Path)
    requires Wired(children, p, before) && c != [] && p != Parent(c)
    requires before - {c} == after - {c}
    ensures Wired(children, p, after)
  {
    forall k
      ensures Child(p, k) in after <==> Child(p, k) in before
      ensures Child(p, k) in after ==> after[Child(p, k)] == before[Child(p, k)]
    {
      ParentOfChild(p, k);
      assert Child(p, k) in after - {c} <==> Child(p, k) in before - {c};
    }
  }

  lemma WiredWith(children: map<Token, RadixNode>, p: Path, nodes: map<Path, RadixNode>, k: Token, node: RadixNode)
    requires Wired(children, p, nodes)
    ensures Wired(children[k := node], p, nodes[Child(p, k) := node])
  {
    forall j
      ensures Child(p, j) == Child(p, k) ==> j == k
    {
      ParentOfChild(p, j);
      ParentOfChild(p, k);
    }
  }

  lemma WiredLeaf(c: Path, t: Trie, nodes: map<Path, RadixNode>, node: RadixNode)
    requires Leaf(t, c) && t.Keys == nodes.Keys
    ensures Wired(map[], c, nodes[c := node])
  {
    forall j
      ensures Child(c, j) !in nodes[c := node]
    {
      assert Child(c, j) !in t;
    }
  }

  lemma WiredWithout(children: map<Token, RadixNode>, p: Path, nodes: map<Path, RadixNode>, k: Token)
    requires Wired(children, p, nodes)
    ensures Wired(children - {k}, p, nodes - {Child(p, k)})
  {
    forall j
      ensures Child(p, j) == Child(p, k) ==> j == k
    {
      ParentOfChild(p, j);
      ParentOfChild(p, k);
    }
  }

  /** The nodes and the entries they stand for. */
  ghost predicate Named(nodes: map<Path, RadixNode>, tree: Trie, repr: set<RadixNode>)
    requires nodes.Keys == tree.Keys
    reads repr`tokens, repr`blockIds, repr`lastAccessed
  {
    forall p | p in nodes :: nodes[p] in repr && nodes[p].path == p && nodes[p].Value() == tree[p]
  }

  /** All child maps are right. */
  ghost predicate WiredAll(nodes: map<Path, RadixNode>, repr: set<RadixNode>)
    requires forall p | p in nodes :: nodes[p] in repr
    reads repr`children
  {
    forall p | p in nodes :: Wired(nodes[p].children, p, nodes)
  }

  lemma NamedWith(nodes: map<Path, RadixNode>, tree: Trie, repr: set<RadixNode>, node: RadixNode)
    requires nodes.Keys == tree.Keys && Named(nodes, tree, repr)
    ensures Named(nodes[node.path := node], tree[node.path := node.Value()], repr + {node})
  {
  }

  class RadixCache {
    var root: RadixNode
    var numCachedBlocks: nat
    var maxCapacity: nat
    // The next instant of the strictly increasing clock: later than every access time handed out.
    var clock: nat
    // The node at each path, and the tree the nodes spell.
    ghost var nodes: map<Path, RadixNode>
    ghost var tree: Trie
    ghost var repr: set<RadixNode>

    /** The linked structure under the root consists of these nodes, each once, and spells this tree. */
    ghost predicate LinkedAs(nodes: map<Path, RadixNode>, tree: Trie, repr: set<RadixNode>)
      reads this`root, repr
    {
      && [] in nodes && nodes[[]] == root && nodes.Keys == tree.Keys
      && Named(nodes, tree, repr)
      && WiredAll(nodes, repr)
    }

    /** `nodes` names every node of the linked structure exactly once, and `tree` is its value. */
    ghost predicate Linked()
      reads this`root, this`nodes, this`tree, this`repr, repr
    {
      LinkedAs(nodes, tree, repr)
    }

    /** Everything except the capacity bound. */
    ghost predicate Coherent()
      reads this, repr
    {
      && Linked()
      && WellFormed(tree)
      && StampsBelow(tree, clock)
      && numCachedBlocks == |TreeBlocks(tree)|
    }

    ghost predicate Valid()
      reads this, repr
    {
      Coherent() && numCachedBlocks <= maxCapacity
    }

    constructor (maxCapacity: nat)
      ensures Valid() && fresh(repr)
      ensures this.maxCapacity == maxCapacity && clock == 1
      ensures tree == map[[] := Entry([], [], 0)]
    {
      var r := new RadixNode([], [], 0, []);
      this.root := r;
      this.numCachedBlocks := 0;
      this.maxCapacity := maxCapacity;
      this.clock := 1;
      this.nodes := map[[] := r];
      this.repr := {r};
      this.tree := map[[] := Entry([], [], 0)];
      new;
      RootHoldsNothing(tree);
    }

    lemma RootView()
      requires Linked()
      ensures [] in nodes && nodes[[]] == root && nodes.Keys == tree.Keys
    {
    }

    lemma ChildView(p: Path, k: Token)
      requires Linked() && p in nodes
      ensures nodes[p] in repr
      ensures k in nodes[p].children <==> Child(p, k) in tree
      ensures k in nodes[p].children ==>
        Child(p, k) in nodes && nodes[Child(p, k)] == nodes[p].children[k] && nodes[p].children[k] in repr
          && nodes[p].children[k].Value() == tree[Child(p, k)]
    {
    }

    /** Records an access to one node. */
    method Stamp(child: RadixNode, ghost c: Path)
      requires Linked() && c in nodes && nodes[c] == child
      modifies this`clock, this`tree, child`lastAccessed
      ensures Linked() && clock == old(clock) + 1
      ensures tree == old(tree)[c := old(tree)[c].(stamp := old(clock))]
    {
      hide Wired;
      var now := clock;
      clock := clock + 1;
      child.lastAccessed := now;
      tree := tree[c := tree[c].(stamp := now)];
      forall q | q in nodes
        ensures nodes[q].Value() == tree[q] && Wired(nodes[q].children, q, nodes)
      {
        if q != c {
          assert nodes[q].Value() == old(nodes[q].Value());
        }
      }
    }

    /** A lookup of `t` that has passed the nodes down to `p` goes on to the child under `k`. */
    method Enter(child: RadixNode, ghost t: Trie, ghost p: Path, ghost k: Token, ghost start: nat)
      requires Linked() && Child(p, k) in nodes && nodes[Child(p, k)] == child
      requires WellFormed(t) && tree == Touched(t, p, start) && clock == start + |p|
      modifies this`clock, this`tree, child`lastAccessed
      ensures Linked() && clock == start + |Child(p, k)|
      ensures tree == Touched(t, Child(p, k), start)
    {
      hide Linked, WellFormed, Touched;
      RootView();
      TouchedStep(t, p, k, start);
      Stamp(child, Child(p, k));
    }

    /** Longest cached prefix of `tokens`: its blocks, and how many tokens it covers. */
    method MatchPrefix(tokens: seq<Token>) returns (matchedBlocks: seq<BlockId>, totalMatched: nat)
      requires Coherent()
      modifies this`clock, this`tree, repr`lastAccessed
      ensures Coherent()
      ensures var t := old(tree); var m := Walk(t, [], tokens);
        && m in t
        && tree == Touched(t, m, old(clock)) && clock == old(clock) + |m|
        && matchedBlocks == PathBlocks(t, m) && totalMatched == |Label(t, m)| <= |tokens|
    {
      hide Linked, WellFormed, Walk, Label, PathBlocks, Touched, StampsBelow, TreeBlocks;
      ghost var t := tree;
      RootView();
      LookupStarts(t, clock);
      var currentNode := root;
      ghost var path: Path := [];
      matchedBlocks := [];
      totalMatched := 0;
      var tokenIdx := 0;
      while tokenIdx < |tokens|
        invariant Linked() && path in nodes && nodes[path] == currentNode
        invariant path in t && tokenIdx == totalMatched == |Label(t, path)| <= |tokens|
        invariant tree == Touched(t, path, old(clock)) && clock == old(clock) + |path|
        invariant matchedBlocks == PathBlocks(t, path)
        invariant Walk(t, [], tokens) == Walk(t, path, tokens[tokenIdx..])
      {
        var firstToken := tokens[tokenIdx];
        ghost var c := Child(path, firstToken);
        ChildView(path, firstToken);
        if firstToken in currentNode.children {
          var child := currentNode.children[firstToken];
          TouchedStep(t, path, firstToken, old(clock));
          var matchLen := CommonPrefix(child.tokens, tokens[tokenIdx..]);
          assert tree[c] == t[c] && child.tokens == t[c].tokens && child.blockIds == t[c].blocks;
          if matchLen == |child.tokens| {
            WalkStep(t, path, tokens[tokenIdx..]);
            matchedBlocks := matchedBlocks + child.blockIds;
            totalMatched := totalMatched + matchLen;
            SuffixOfSuffix(tokens, tokenIdx, matchLen);
            tokenIdx := tokenIdx + matchLen;
            Enter(child, t, path, firstToken, old(clock));
            currentNode := child;
            path := c;
          } else {
            WalkStops(t, path, tokens[tokenIdx..]);
            break;
          }
        } else {
          WalkStops(t, path, tokens[tokenIdx..]);
          break;
        }
      }
      assert Walk(t, [], tokens) == path by {
        if tokenIdx == |tokens| {
          WalkStops(t, path, tokens[tokenIdx..]);
        }
      }
      TouchedKeepsContents(t, path, old(clock));
    }

    /** The child maps a new childless node leaves right: all but its parent's, which gains it. */
    lemma WiringWith(p: Path, k: Token, node: RadixNode)
      requires Linked() && p in nodes && Child(p, k) !in nodes && Leaf(tree, Child(p, k))
      ensures var c, after := Child(p, k), nodes[Child(p, k) := node];
        && Wired(map[], c, after) && Wired(nodes[p].children[k := node], p, after)
        && forall q | q in nodes && q != p :: nodes[q] != nodes[p] && Wired(nodes[q].children, q, after)
    {
      hide Wired, Child, Parent, Key, Leaf;
      ParentOfChild(p, k);
      var c, after := Child(p, k), nodes[Child(p, k) := node];
      WiredWith(nodes[p].children, p, nodes, k, node);
      WiredLeaf(c, tree, nodes, node);
      assert nodes - {c} == after - {c};
      forall q | q in nodes && q != p
        ensures nodes[q] != nodes[p] && Wired(nodes[q].children, q, after)
      {
        WiredElsewhere(nodes[q].children, q, nodes, after, c);
      }
    }

    /** Files a childless node under `k` in the child map of the node at `p`. */
    method Adopt(parent: RadixNode, ghost p: Path, k: Token, node: RadixNode)
      requires Linked() && p in nodes && nodes[p] == parent && Child(p, k) !in nodes && Leaf(tree, Child(p, k))
      requires node !in repr && node.path == Child(p, k) && node.children == map[]
      modifies parent`children
      ensures LinkedAs(nodes[Child(p, k) := node], tree[Child(p, k) := old(node.Value())], repr + {node})
    {
      hide Wired, Child, Leaf;
      ghost var c, after := Child(p, k), nodes[Child(p, k) := node];
      assert c != [] by {
        ParentOfChild(p, k);
      }
      WiringWith(p, k, node);
      NamedWith(nodes, tree, repr, node);
      ghost var t, all := tree[c := node.Value()], repr + {node};
      assert forall q | q in after :: after[q] in all;
      hide Named;
      parent.children := parent.children[k := node];
      assert Named(after, t, all);
    }

    /** Hooks a childless node in under `k` at the node of path `p`. */
    method Hook(parent: RadixNode, ghost p: Path, k: Token, node: RadixNode)
      requires Linked() && p in nodes && nodes[p] == parent && Child(p, k) !in nodes && Leaf(tree, Child(p, k))
      requires node !in repr && node.path == Child(p, k) && node.children == map[]
      modifies this`nodes, this`tree, this`repr, parent`children
      ensures Linked() && repr == old(repr) + {node}
      ensures tree == old(tree)[Child(p, k) := old(node.Value())]
    {
      hide Child, Leaf, Named, WiredAll, RadixNode.Value;
      ghost var entry := node.Value();
      Adopt(parent, p, k, node);
      nodes, tree, repr := nodes[Child(p, k) := node], tree[Child(p, k) := entry], repr + {node};
    }

    /** Files a new childless node under `k` at the node of path `p`. */
    method Attach(parent: RadixNode, ghost p: Path, k: Token, tokens: seq<Token>, blockIds: seq<BlockId>)
      requires Linked() && p in nodes && nodes[p] == parent && Child(p, k) !in nodes && Leaf(tree, Child(p, k))
      modifies this`nodes, this`tree, this`repr, this`clock, parent`children
      ensures Linked() && fresh(repr - old(repr)) && clock == old(clock) + 1
      ensures tree == old(tree)[Child(p, k) := Entry(tokens, blockIds, old(clock))]
    {
      hide Linked, Leaf, Child;
      var now := clock;
      clock := clock + 1;
      var newNode := new RadixNode(tokens, blockIds, now, Child(p, k));
      Hook(parent, p, k, newNode);
    }

    /** Unhooks the childless node of path `p`. */
    method Detach(parent: RadixNode, ghost p: Path, k: Token)
      requires Linked() && p in nodes && nodes[p] == parent && Child(p, k) in nodes && Leaf(tree, Child(p, k))
      modifies this`nodes, this`tree, parent`children
      ensures Linked() && tree == old(tree) - {Child(p, k)}
      ensures nodes == old(nodes) - {Child(p, k)}
    {
      hide Wired, Child, Parent, Key;
      ParentOfChild(p, k);
      ghost var c, before := Child(p, k), nodes;
      WiredWithout(parent.children, p, nodes, k);
      parent.children := parent.children - {k};
      nodes, tree := nodes - {c}, tree - {c};
      forall q | q in nodes
        ensures nodes[q] in repr && nodes[q].path == q && nodes[q].Value() == tree[q]
          && Wired(nodes[q].children, q, nodes)
      {
        if q != p {
          WiredElsewhere(nodes[q].children, q, before, nodes, c);
        }
      }
    }

    /** Files the blocks in a new node at the vacant slot of `tokens`, `tokenIdx` of which the nodes above stand for. */
    method FileAt(node: RadixNode, ghost p: Path, k: Token, tokens: seq<Token>, tokenIdx: nat, blockIds: seq<BlockId>)
      requires Coherent() && p in nodes && nodes[p] == node && p in tree && tokenIdx == |Label(tree, p)| <= |tokens|
      requires Child(p, k) !in nodes && Slot(tree, [], tokens) == Some(Child(p, k))
      modifies this`nodes, this`tree, this`repr, this`clock, this`numCachedBlocks, node`children
      ensures Coherent() && fresh(repr - old(repr)) && clock == old(clock) + 1
      ensures tree == Inserted(old(tree), tokens, blockIds, old(clock))
    {
      hide Linked, Slot, Label, PathBlocks, Inserted, WellFormed, Leaf, StampsBelow, TreeBlocks, Child;
      RootView();
      LeafAbsent(tree, Child(p, k));
      InsertedFacts(tree, tokens, blockIds, clock);
      InsertedAt(tree, p, k, tokens, tokenIdx, blockIds, clock);
      Attach(node, p, k, tokens[tokenIdx..], blockIds);
      numCachedBlocks := numCachedBlocks + |blockIds|;
      assert |multiset(blockIds)| == |blockIds|;
    }

    /** The descent of `insert`: files the blocks at the first vacant slot, comparing first tokens only. */
    method Deposit(tokens: seq<Token>, blockIds: seq<BlockId>)
      requires Coherent()
      modifies this`nodes, this`tree, this`repr, this`clock, this`numCachedBlocks, repr`children
      ensures Coherent() && fresh(repr - old(repr))
      ensures tree == Inserted(old(tree), tokens, blockIds, old(clock))
      ensures clock == old(clock) + if Slot(old(tree), [], tokens).Some? then 1 else 0
    {
      hide Linked, Slot, Label, PathBlocks, Inserted, WellFormed, Leaf, StampsBelow, TreeBlocks;
      ghost var t := tree;
      RootView();
      LookupStarts(t, clock);
      var currentNode := root;
      ghost var path: Path := [];
      var tokenIdx := 0;
      while tokenIdx < |tokens|
        invariant Coherent() && tree == t && repr == old(repr) && clock == old(clock)
        invariant path in nodes && nodes[path] == currentNode && path in t && tokenIdx == |Label(t, path)|
        invariant Slot(t, [], tokens) == if tokenIdx <= |tokens| then Slot(t, path, tokens[tokenIdx..]) else None
      {
        var firstToken := tokens[tokenIdx];
        ghost var c := Child(path, firstToken);
        RootView();
        ChildView(path, firstToken);
        SlotStep(t, path, tokens[tokenIdx..]);
        if firstToken !in currentNode.children {
          FileAt(currentNode, path, firstToken, tokens, tokenIdx, blockIds);
          return;
        }
        var child := currentNode.children[firstToken];
        if tokenIdx + |child.tokens| <= |tokens| {
          SuffixOfSuffix(tokens, tokenIdx, |child.tokens|);
          SlotStep(t, c, tokens[tokenIdx + |child.tokens|..]);
        }
        tokenIdx := tokenIdx + |child.tokens|;
        currentNode := child;
        path := c;
      }
      if tokenIdx == |tokens| {
        SlotStep(t, path, tokens[tokenIdx..]);
      }
      InsertedNowhere(t, tokens, blockIds, clock);
    }

    lemma LeafView(p: Path)
      requires Linked() && p in nodes
      ensures nodes[p].children == map[] <==> Leaf(tree, p)
    {
      if nodes[p].children != map[] {
        var k := Member(nodes[p].children.Keys);
        assert Child(p, k) in tree;
      }
    }

    /** The sibling scan: the oldest childless child of `node`, if it has one. */
    method OldestLeafChild(node: RadixNode, ghost p: Path) returns (oldestToken: Option<Token>)
      requires Linked() && StampsBelow(tree, clock) && p in nodes && nodes[p] == node
      ensures oldestToken.None? ==> NoLeafChild(tree, p)
      ensures oldestToken.Some? ==>
        var c := Child(p, oldestToken.value);
        && oldestToken.value in node.children && c in tree && Leaf(tree, c)
        && EvictChoiceBelow(tree, p, c)
    {
      hide Linked;
      oldestToken := None;
      var oldestTime := clock;
      var rest := node.children.Keys;
      while rest != {}
        invariant rest <= node.children.Keys
        invariant oldestToken.None? ==> oldestTime == clock
        invariant oldestToken.Some? ==>
          var c := Child(p, oldestToken.value);
          oldestToken.value in node.children && c in tree && Leaf(tree, c) && oldestTime == tree[c].stamp
        invariant forall k | k in node.children.Keys - rest ::
          Child(p, k) in tree
            && (Leaf(tree, Child(p, k)) ==> oldestToken.Some? && oldestTime <= tree[Child(p, k)].stamp)
      {
        ghost var some := Member(rest);
        var token :| token in rest;
        rest := rest - {token};
        var child := node.children[token];
        ChildView(p, token);
        LeafView(Child(p, token));
        if child.children == map[] && child.lastAccessed < oldestTime {
          oldestTime := child.lastAccessed;
          oldestToken := Some(token);
        }
      }
      forall k | Child(p, k) in tree
        ensures k in node.children
      {
        ChildView(p, k);
      }
      if oldestToken.Some? {
        LeafChildChoice(tree, p, oldestToken.value);
      }
    }

    /**
     * Removes the oldest childless child of `node` or, when every child has children, does the same below one of them,
     * whichever the hash map yields first. Returns the keys down to the removed node and its blocks.
     */
    method FindOldestLeaf(node: RadixNode, ghost p: Path) returns (r: Option<(Path, seq<BlockId>)>)
      requires Linked() && WellFormed(tree) && StampsBelow(tree, clock) && p in nodes && nodes[p] == node
      modifies this`nodes, this`tree, repr`children
      ensures Linked()
      ensures r.None? <==> Leaf(old(tree), p)
      ensures r.None? ==> nodes == old(nodes) && tree == old(tree)
      ensures r.Some? ==>
        var c := p + r.value.0;
        && EvictChoiceBelow(old(tree), p, c) && c in old(tree)
        && tree == old(tree) - {c}
        && r.value.1 == old(tree)[c].blocks
      decreases Below(tree, p)
    {
      hide Linked, WellFormed, StampsBelow, EvictChoiceBelow;
      LeafView(p);
      if node.children == map[] {
        return None;
      }
      var oldestToken := OldestLeafChild(node, p);
      if oldestToken.Some? {
        var token := oldestToken.value;
        ChildView(p, token);
        var child := node.children[token];
        Detach(node, p, token);
        return Some(([token], child.blockIds));
      }
      r := None;
      var rest := node.children.Keys;
      ghost var keys := rest;
      ghost var first := Member(keys);
      while rest != {} && r.None?
        invariant Linked()
        invariant rest <= keys
        invariant r.None? ==> tree == old(tree) && nodes == old(nodes) && rest == keys == node.children.Keys
        invariant r.Some? ==> (
          var c := p + r.value.0;
          && EvictChoiceBelow(old(tree), p, c) && c in old(tree)
          && tree == old(tree) - {c}
          && r.value.1 == old(tree)[c].blocks)
      {
        ghost var some := Member(rest);
        var token :| token in rest;
        rest := rest - {token};
        ChildView(p, token);
        BelowShrinks(tree, p, token);
        var found := FindOldestLeaf(node.children[token], Child(p, token));
        if found.Some? {
          ChoiceWidens(old(tree), p, token, Child(p, token) + found.value.0);
          assert Child(p, token) + found.value.0 == p + ([token] + found.value.0);
          r := Some(([token] + found.value.0, found.value.1));
        }
      }
    }

    method RemoveOldestLeaf() returns (r: Option<seq<BlockId>>, ghost c: Path)
      requires Linked() && WellFormed(tree) && StampsBelow(tree, clock)
      modifies this`nodes, this`tree, repr`children
      ensures Linked()
      ensures r.None? ==> tree == old(tree) && tree.Keys == {[]}
      ensures r.Some?
        ==> EvictChoice(old(tree), c) && c in old(tree) && tree == old(tree) - {c} && r.value == old(tree)[c].blocks
    {
      hide Linked, EvictChoiceBelow;
      RootView();
      var found := FindOldestLeaf(root, []);
      if found.None? {
        OnlyRoot(tree);
        r := None;
        c := [];
      } else {
        r := Some(found.value.1);
        c := found.value.0;
        assert [] + c == c;
      }
    }

    /** Evicts at least one node, if there is one, and goes on until the cache fits. */
    method EvictLru() returns (blocksToFree: seq<BlockId>, ghost ps: seq<Path>)
      requires Coherent()
      modifies this`nodes, this`tree, this`numCachedBlocks, repr`children
      ensures Valid()
      ensures EvictRun(old(tree), maxCapacity, ps)
      ensures tree == Remaining(old(tree), ps) && blocksToFree == Freed(old(tree), ps)
      ensures old(tree).Keys != {[]} ==> ps != []
      ensures old(numCachedBlocks) > maxCapacity ==>
        ps != [] && ps[|ps| - 1] in old(tree) && numCachedBlocks + |old(tree)[ps[|ps| - 1]].blocks| > maxCapacity
    {
      hide Linked, WellFormed, StampsBelow, EvictChoice, EvictChoiceBelow, Evictable, Freed, Remaining, TreeBlocks;
      ghost var t := tree;
      blocksToFree := [];
      ps := [];
      NoEviction(t);
      while true
        invariant Coherent() && Evictable(t, ps)
        invariant tree == Remaining(t, ps) && blocksToFree == Freed(t, ps)
        invariant forall i | 0 < i <= |ps| :: |TreeBlocks(Remaining(t, ps[..i]))| > maxCapacity
        decreases tree.Keys
      {
        var blocks, c := RemoveOldestLeaf();
        if blocks.None? {
          RootHoldsNothing(tree);
          break;
        }
        EvictStep(t, ps, c);
        StampsKept(t, ps + [c], clock);
        assert |multiset(blocks.value)| == |blocks.value|;
        numCachedBlocks := numCachedBlocks - |blocks.value|;
        blocksToFree := blocksToFree + blocks.value;
        ghost var qs := ps + [c];
        assert qs[..|qs|] == qs;
        forall i | 0 < i < |qs|
          ensures |TreeBlocks(Remaining(t, qs[..i]))| > maxCapacity
        {
          assert qs[..i] == ps[..i];
        }
        ps := qs;
        if numCachedBlocks <= maxCapacity {
          break;
        }
      }
      EvictLruNeeded(t, ps);
    }

    lemma EvictLruNeeded(t: Trie, ps: seq<Path>)
      requires WellFormed(t) && EvictRun(t, maxCapacity, ps) && tree == Remaining(t, ps)
      ensures |TreeBlocks(t)| > maxCapacity ==>
        ps != [] && ps[|ps| - 1] in t && |TreeBlocks(tree)| + |t[ps[|ps| - 1]].blocks| > maxCapacity
    {
      hide WellFormed, EvictRun, TreeBlocks, Remaining;
      if |TreeBlocks(t)| > maxCapacity {
        EvictionNeeded(t, maxCapacity, ps);
      }
    }

    /**
     * Files the blocks under the tokens, then evicts if the cache has outgrown its capacity; the evicted blocks are
     * dropped.
     */
    method Insert(tokens: seq<Token>, blockIds: seq<BlockId>) returns (ghost ps: seq<Path>)
      requires Valid()
      modifies this`nodes, this`tree, this`repr, this`clock, this`numCachedBlocks, repr`children
      ensures Valid() && fresh(repr - old(repr))
      ensures var u := Inserted(old(tree), tokens, blockIds, old(clock));
        if |TreeBlocks(u)| > maxCapacity then EvictRun(u, maxCapacity, ps) && tree == Remaining(u, ps)
        else tree == u && ps == []
      ensures var u := Inserted(old(tree), tokens, blockIds, old(clock));
        |TreeBlocks(u)| > maxCapacity ==>
          ps != [] && ps[|ps| - 1] in u && numCachedBlocks + |u[ps[|ps| - 1]].blocks| > maxCapacity
      ensures clock == old(clock) + if Slot(old(tree), [], tokens).Some? then 1 else 0
    {
      hide Linked, WellFormed, StampsBelow, EvictRun, Evictable, Remaining, TreeBlocks, Inserted, Slot;
      Deposit(tokens, blockIds);
      ps := [];
      if numCachedBlocks > maxCapacity {
        var dropped;
        dropped, ps := EvictLru();
      }
    }
  }
}
