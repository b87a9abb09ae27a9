/** Vocabulary shared by the scheduler stack. */
module Types {

  /** A token id (`u32` in the engine; only compared, never computed with). */
  type Token = int

  /** Index of a physical KV block on the GPU. */
  type BlockId = nat

  type RequestId = nat

  datatype Option<+T> = None | Some(value: T)

  predicate NoDup<T(==)>(s: seq<T>) {
    forall i, j | 0 <= i < j < |s| :: s[i] != s[j]
  }

  /** Quotient rounded up. */
  function CeilDiv(a: nat, b: nat): nat
    requires b >= 1
  {
    (a + b - 1) / b
  }

  lemma MulMonotone(a: nat, b: nat, c: nat)
    requires a <= b
    ensures a * c <= b * c
  {
  }

  /** `k` is the least number of groups of `size` that hold `n` items. */
  ghost predicate LeastCover(k: int, size: nat, n: int) {
    k >= 0 && n <= k * size && (k > 0 ==> (k - 1) * size < n)
  }

  lemma CeilIsLeast(n: nat, size: nat)
    requires size >= 1
    ensures LeastCover(CeilDiv(n, size), size, n)
  {
    var k := CeilDiv(n, size);
    assert n + size - 1 == k * size + (n + size - 1) % size;
    assert (k - 1) * size == k * size - size;
  }

  lemma LeastUnique(j: int, k: int, size: nat, n: int)
    requires size >= 1 && LeastCover(j, size, n) && LeastCover(k, size, n)
    ensures j == k
  {
    if j < k {
      MulMonotone(j, k - 1, size);
    } else if k < j {
      MulMonotone(k, j - 1, size);
    }
  }

  lemma LeastFits(k: int, groups: nat, size: nat, n: int)
    requires size >= 1 && LeastCover(k, size, n)
    ensures k <= groups <==> n <= groups * size
  {
    if k <= groups {
      MulMonotone(k, groups, size);
    } else {
      MulMonotone(groups, k - 1, size);
    }
  }

  lemma Member(s: set<Token>) returns (x: Token)
    requires s != {}
    ensures x in s
  {
    assert (forall y :: y !in s) ==> s == {};
    x :| x in s;
  }

  lemma SuffixOfSuffix<T>(s: seq<T>, i: nat, n: nat)
    requires i + n <= |s|
    ensures s[i..][n..] == s[i + n..]
  {
  }

  lemma NoDupAppend<T>(s: seq<T>, x: T)
    requires NoDup(s) && x !in s
    ensures NoDup(s + [x])
  {
  }
}

/** Multisets of blocks held by the entries of a table (request table or cache tree). */
module Holdings {
  import opened Types

  /** All blocks listed by the entries of `m`, with multiplicity. */
  ghost function Total<K(!new)>(m: map<K, seq<BlockId>>): multiset<BlockId>
    decreases |m|
  {
    if m == map[] then multiset{}
    else
      var k :| k in m;
      multiset(m[k]) + Total(m - {k})
  }

  lemma {:induction false} TotalRemove<K(!new)>(m: map<K, seq<BlockId>>, k: K)
    requires k in m
    ensures Total(m) == multiset(m[k]) + Total(m - {k})
    decreases |m|
  {
    var c :| c in m && Total(m) == multiset(m[c]) + Total(m - {c});
    if c != k {
      TotalRemove(m - {c}, k);
      TotalRemove(m - {k}, c);
      assert m - {c} - {k} == m - {k} - {c};
    }
  }

  lemma TotalAdd<K(!new)>(m: map<K, seq<BlockId>>, k: K, blocks: seq<BlockId>)
    requires k !in m
    ensures Total(m[k := blocks]) == Total(m) + multiset(blocks)
  {
    TotalRemove(m[k := blocks], k);
    assert m[k := blocks] - {k} == m;
  }

  lemma TotalMember<K(!new)>(m: map<K, seq<BlockId>>, k: K, b: BlockId)
    requires k in m && b in m[k]
    ensures Total(m)[b] >= 1
  {
    TotalRemove(m, k);
    assert b in multiset(m[k]);
  }

  /** A block counted in the total is listed by some entry. */
  lemma {:induction false} TotalWitness<K(!new)>(m: map<K, seq<BlockId>>, b: BlockId)
    requires b in Total(m)
    ensures exists k :: k in m && b in m[k]
    decreases |m|
  {
    var c :| c in m && Total(m) == multiset(m[c]) + Total(m - {c});
    if b !in m[c] {
      assert b !in multiset(m[c]);
      TotalWitness(m - {c}, b);
      var k :| k in m - {c} && b in (m - {c})[k];
      assert k in m && b in m[k];
    }
  }
}
