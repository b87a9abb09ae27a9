/** Drawing a token from softmax weights after top-k and nucleus (top-p) filtering, over exact reals. */
module Sampler {
  import opened Types

  type Candidate = (nat, real)

  /** Total weight of the first `n` candidates. */
  function Mass(ps: seq<Candidate>, n: nat): real
    requires n <= |ps|
  {
    if n == 0 then 0.0 else Mass(ps, n - 1) + ps[n - 1].1
  }

  ghost predicate Positive(ps: seq<Candidate>) {
    forall i | 0 <= i < |ps| :: ps[i].1 > 0.0
  }

  ghost predicate Descending(ps: seq<Candidate>) {
    forall i, j | 0 <= i < j < |ps| :: ps[i].1 >= ps[j].1
  }

  lemma {:induction false} MassGrows(ps: seq<Candidate>, m: nat, n: nat)
    requires Positive(ps) && m <= n <= |ps|
    ensures Mass(ps, m) <= Mass(ps, n) && (m < n ==> Mass(ps, m) < Mass(ps, n))
  {
    if m < n {
      MassGrows(ps, m, n - 1);
    }
  }

  lemma {:induction false} MassOfPrefix(ps: seq<Candidate>, k: nat, n: nat)
    requires n <= k <= |ps|
    ensures Mass(ps[..k], n) == Mass(ps, n)
  {
    if n > 0 {
      MassOfPrefix(ps, k, n - 1);
    }
  }

  lemma {:induction false} MassOfScaled(ps: seq<Candidate>, qs: seq<Candidate>, c: real, n: nat)
    requires |qs| == |ps| && n <= |ps| && c != 0.0
    requires forall i | 0 <= i < |ps| :: qs[i].1 == ps[i].1 / c
    ensures Mass(qs, n) == Mass(ps, n) / c
  {
    if n > 0 {
      MassOfScaled(ps, qs, c, n - 1);
      assert Mass(ps, n - 1) / c + ps[n - 1].1 / c == (Mass(ps, n - 1) + ps[n - 1].1) / c;
    }
  }

  // ---------------------------------------------------------------- softmax

  /** The largest logit; an empty list has none. */
  function MaxLogit(logits: seq<Candidate>): real
    requires logits != []
  {
    if |logits| == 1 then logits[0].1
    else
      var m := MaxLogit(logits[..|logits| - 1]);
      if logits[|logits| - 1].1 > m then logits[|logits| - 1].1 else m
  }

  /** Exponentials relative to the largest logit. `expo` stands for the exponential. */
  function Exponentials(logits: seq<Candidate>, expo: real -> real): (es: seq<Candidate>)
    requires logits != []
    ensures |es| == |logits| && forall i | 0 <= i < |es| :: es[i] == (logits[i].0, expo(logits[i].1 - MaxLogit(logits)))
  {
    var maxLogit := MaxLogit(logits);
    seq(|logits|, i requires 0 <= i < |logits| => (logits[i].0, expo(logits[i].1 - maxLogit)))
  }

  function Normalized(es: seq<Candidate>, sum: real): (prs: seq<Candidate>)
    requires sum != 0.0
    ensures |prs| == |es| && forall i | 0 <= i < |prs| :: prs[i] == (es[i].0, es[i].1 / sum)
  {
    seq(|es|, i requires 0 <= i < |es| => (es[i].0, es[i].1 / sum))
  }

  lemma NormalizedMass(es: seq<Candidate>, sum: real)
    requires es != [] && Positive(es) && sum == Mass(es, |es|)
    ensures sum > 0.0
    ensures Positive(Normalized(es, sum)) && Mass(Normalized(es, sum), |es|) == 1.0
  {
    MassGrows(es, 0, |es|);
    var prs := Normalized(es, sum);
    MassOfScaled(es, prs, sum, |es|);
    hide Mass;
    forall i | 0 <= i < |prs|
      ensures prs[i].1 > 0.0
    {
      PositiveShare(es[i].1, sum);
    }
    PositiveShare(sum, sum);
  }

  lemma PositiveShare(a: real, c: real)
    requires a > 0.0 && c > 0.0
    ensures a / c > 0.0 && c / c == 1.0
  {
    assert a / c * c == a && c / c * c == c;
  }

  lemma NormalizedRatios(es: seq<Candidate>, sum: real)
    requires sum != 0.0
    ensures var prs := Normalized(es, sum);
      forall i, j | 0 <= i < |prs| && 0 <= j < |prs| :: prs[i].1 * es[j].1 == prs[j].1 * es[i].1
  {
    var prs := Normalized(es, sum);
    forall i, j | 0 <= i < |prs| && 0 <= j < |prs|
      ensures prs[i].1 * es[j].1 == prs[j].1 * es[i].1
    {
      Proportional(es[i].1, es[j].1, sum);
    }
  }

  /** Weights for the same candidates, positive, adding up to one and proportional to the exponentials of the logits. */
  ghost predicate IsSoftmax(prs: seq<Candidate>, logits: seq<Candidate>, expo: real -> real) {
    && |prs| == |logits| && Positive(prs)
    && (forall i | 0 <= i < |prs| :: prs[i].0 == logits[i].0)
    && (prs != [] ==> Mass(prs, |prs|) == 1.0)
    && (forall i, j | 0 <= i < |prs| && 0 <= j < |prs| ::
          prs[i].1 * expo(logits[j].1 - MaxLogit(logits)) == prs[j].1 * expo(logits[i].1 - MaxLogit(logits)))
  }

  method Softmax(logits: seq<Candidate>, expo: real -> real) returns (prs: seq<Candidate>)
    requires forall x :: expo(x) > 0.0
    ensures IsSoftmax(prs, logits, expo)
  {
    hide Mass, Exponentials, Normalized, MaxLogit;
    if logits == [] {
      return [];
    }
    var exps := Exponentials(logits, expo);
    var sum := Mass(exps, |exps|);
    NormalizedMass(exps, sum);
    NormalizedRatios(exps, sum);
    prs := Normalized(exps, sum);
    forall i, j | 0 <= i < |prs| && 0 <= j < |prs|
      ensures prs[i].1 * expo(logits[j].1 - MaxLogit(logits)) == prs[j].1 * expo(logits[i].1 - MaxLogit(logits))
    {
      assert prs[i].1 * exps[j].1 == prs[j].1 * exps[i].1;
    }
  }

  lemma Proportional(a: real, b: real, c: real)
    requires c != 0.0
    ensures a / c * b == b / c * a
  {
    assert a / c * c == a && b / c * c == b;
    assert (a / c * b) * c == a * b && (b / c * a) * c == a * b;
  }

  // ---------------------------------------------------------------- filters

  /**
   * `kept` is what selecting and truncating to the `k` largest may leave: `k` of the entries, none smaller than one
   * left out.
   */
  ghost predicate IsTopK(kept: seq<Candidate>, all: seq<Candidate>, k: nat) {
    exists rest: seq<Candidate> ::
      && multiset(kept) + multiset(rest) == multiset(all)
      && |kept| == k
      && forall a: Candidate, b: Candidate | a in kept && b in rest :: a.1 >= b.1
  }

  /** Inserts after every entry that is at least as heavy, so equal weights keep their order. */
  function InsertDescending(p: Candidate, ps: seq<Candidate>): seq<Candidate> {
    if ps == [] then [p]
    else if ps[|ps| - 1].1 >= p.1 then ps + [p]
    else InsertDescending(p, ps[..|ps| - 1]) + [ps[|ps| - 1]]
  }

  /** Stable sort by descending weight. */
  function SortDescending(ps: seq<Candidate>): seq<Candidate> {
    if ps == [] then [] else InsertDescending(ps[|ps| - 1], SortDescending(ps[..|ps| - 1]))
  }

  lemma {:induction false} InsertFacts(p: Candidate, ps: seq<Candidate>)
    requires Descending(ps)
    ensures multiset(InsertDescending(p, ps)) == multiset(ps) + multiset{p} && Descending(InsertDescending(p, ps))
    ensures forall q | q in InsertDescending(p, ps) :: q == p || q in ps
  {
    if ps != [] {
      var init: seq<Candidate>, last: Candidate := ps[..|ps| - 1], ps[|ps| - 1];
      assert ps == init + [last];
      if last.1 < p.1 {
        InsertFacts(p, init);
        hide InsertDescending;
        DescendingAppend(InsertDescending(p, init), last);
      }
    }
  }

  lemma DescendingAppend(ps: seq<Candidate>, p: Candidate)
    requires Descending(ps) && forall q | q in ps :: q.1 >= p.1
    ensures Descending(ps + [p])
  {
  }

  lemma {:induction false} SortFacts(ps: seq<Candidate>)
    ensures multiset(SortDescending(ps)) == multiset(ps) && Descending(SortDescending(ps))
      && |SortDescending(ps)| == |ps|
  {
    if ps != [] {
      SortFacts(ps[..|ps| - 1]);
      InsertFacts(ps[|ps| - 1], SortDescending(ps[..|ps| - 1]));
      assert ps == ps[..|ps| - 1] + [ps[|ps| - 1]];
      assert |multiset(SortDescending(ps))| == |multiset(ps)|;
    }
  }

  /** The entries of weight `w`, in order. */
  function OfWeight(ps: seq<Candidate>, w: real): seq<Candidate> {
    if ps == [] then []
    else OfWeight(ps[..|ps| - 1], w) + if ps[|ps| - 1].1 == w then [ps[|ps| - 1]] else []
  }

  lemma OfWeightSnoc(ps: seq<Candidate>, p: Candidate, w: real)
    ensures OfWeight(ps + [p], w) == OfWeight(ps, w) + if p.1 == w then [p] else []
  {
    assert (ps + [p])[..|ps|] == ps;
  }

  lemma {:induction false} InsertStable(p: Candidate, ps: seq<Candidate>, w: real)
    requires Descending(ps)
    ensures OfWeight(InsertDescending(p, ps), w) == OfWeight(ps, w) + if p.1 == w then [p] else []
  {
    if ps == [] {
      assert OfWeight([p], w) == OfWeight([], w) + if p.1 == w then [p] else [] by {
        OfWeightSnoc([], p, w);
        assert [] + [p] == [p];
      }
    } else {
      var init, last := ps[..|ps| - 1], ps[|ps| - 1];
      if last.1 >= p.1 {
        OfWeightSnoc(ps, p, w);
      } else {
        InsertStable(p, init, w);
        OfWeightSnoc(InsertDescending(p, init), last, w);
      }
    }
  }

  /** Candidates of equal weight keep their order, so the sorted list is determined. */
  lemma {:induction false} SortStable(ps: seq<Candidate>, w: real)
    ensures OfWeight(SortDescending(ps), w) == OfWeight(ps, w)
  {
    if ps != [] {
      var init := ps[..|ps| - 1];
      SortStable(init, w);
      SortFacts(init);
      InsertStable(ps[|ps| - 1], SortDescending(init), w);
    }
  }

  /** The nucleus cut: the length of the shortest prefix whose mass exceeds `topP`, or everything when none does. */
  method NucleusCut(sorted: seq<Candidate>, topP: real) returns (cutOff: nat)
    requires Positive(sorted)
    ensures cutOff <= |sorted|
    ensures cutOff < |sorted| ==> Mass(sorted, cutOff) > topP
    ensures sorted != [] ==> cutOff >= 1
    ensures forall n | 1 <= n < cutOff :: Mass(sorted, n) <= topP
  {
    var cumsum := 0.0;
    cutOff := |sorted|;
    for i := 0 to |sorted|
      invariant cumsum == Mass(sorted, i)
      invariant cutOff == |sorted|
      invariant forall n | 1 <= n <= i :: Mass(sorted, n) <= topP
    {
      cumsum := cumsum + sorted[i].1;
      if cumsum > topP {
        cutOff := i + 1;
        return;
      }
    }
  }

  // ---------------------------------------------------------------- the draw

  /** `r` lies in the cumulative interval of position `i`: open below, closed above, the first one closed at zero. */
  ghost predicate Selects(ps: seq<Candidate>, r: real, i: nat)
    requires i < |ps|
  {
    (Mass(ps, i) < r || i == 0) && r <= Mass(ps, i + 1)
  }

  /** A draw from [0, 1) scaled to the total mass. */
  function Scaled(u: real, ps: seq<Candidate>): real {
    u * Mass(ps, |ps|)
  }

  /**
   * Walks the cumulative weights. For a draw below the total mass it returns the one position whose interval contains
   * the draw; running off the end does not happen.
   */
  method Walk(ps: seq<Candidate>, r0: real) returns (pos: Option<nat>)
    requires Positive(ps)
    ensures pos.Some? ==> pos.value < |ps| && Selects(ps, r0, pos.value)
    ensures pos.None? <==> ps == [] || r0 > Mass(ps, |ps|)
  {
    var r := r0;
    for i := 0 to |ps|
      invariant r == r0 - Mass(ps, i)
      invariant i > 0 ==> r > 0.0
    {
      r := r - ps[i].1;
      if r <= 0.0 {
        MassGrows(ps, i + 1, |ps|);
        return Some(i);
      }
    }
    return None;
  }

  /** The intervals are disjoint, so the selected position is determined by the draw. */
  lemma SelectionUnique(ps: seq<Candidate>, r: real, i: nat, j: nat)
    requires Positive(ps) && i < |ps| && j < |ps| && Selects(ps, r, i) && Selects(ps, r, j)
    ensures i == j
  {
    if i < j {
      MassGrows(ps, i + 1, j);
    } else if j < i {
      MassGrows(ps, j + 1, i);
    }
  }

  /** How a sampling call ends: with a token, or with an index out of range in the source. */
  datatype Sample = Token(id: nat) | Panic

  /** The fallback after a nucleus draw: the first candidate by index. */
  function FirstOrPanic(ps: seq<Candidate>): Sample {
    if ps == [] then Panic else Token(ps[0].0)
  }

  /** The fallback after a plain draw: the last candidate, or token 0. */
  function LastOrZero(ps: seq<Candidate>): Sample {
    Token(if ps == [] then 0 else ps[|ps| - 1].0)
  }

  /** The candidates the draw is made from, in drawing order. */
  ghost predicate DrawnFrom(kept: seq<Candidate>, prs: seq<Candidate>, topP: real) {
    if topP < 1.0 then
      && kept <= SortDescending(prs)
      && (prs != [] ==> kept != [])
      && (|kept| < |prs| ==> Mass(kept, |kept|) > topP)
      && (forall n | 1 <= n < |kept| :: Mass(kept, n) <= topP)
    else kept == prs
  }

  /** The draw with a nucleus: sort, cut, and draw from what is left. */
  method SampleNucleus(prs: seq<Candidate>, topP: real, u: real)
    returns (s: Sample, ghost kept: seq<Candidate>, ghost pos: nat)
    requires Positive(prs) && 0.0 <= u < 1.0 && topP < 1.0
    ensures DrawnFrom(kept, prs, topP) && Positive(kept)
    ensures prs != [] ==> pos < |kept| && s == Token(kept[pos].0) && Selects(kept, Scaled(u, kept), pos)
    ensures prs == [] ==> s == Panic
  {
    hide Mass, SortDescending, Selects, Descending, Scaled;
    pos := 0;
    SortFacts(prs);
    var sorted := SortDescending(prs);
    SortedPositive(prs, sorted);
    var cutOff := NucleusCut(sorted, topP);
    var nucleus := sorted[..cutOff];
    kept := nucleus;
    CutPrefix(sorted, cutOff, topP);
    DrawBelow(u, nucleus);
    var found := Walk(nucleus, Scaled(u, nucleus));
    match found
    case Some(i) =>
      pos := i;
      s := Token(nucleus[i].0);
    case None =>
      s := FirstOrPanic(nucleus);
  }

  lemma PositiveMass(ps: seq<Candidate>)
    requires Positive(ps) && ps != []
    ensures Mass(ps, |ps|) > 0.0
  {
    MassGrows(ps, 0, |ps|);
  }

  /**
   * Samples from the weights `prs` with uniform draw `u`. The answer is the candidate whose cumulative interval, as a
   * share of the kept mass, contains the draw.
   */
  method SampleWeights(prs: seq<Candidate>, topP: real, u: real)
    returns (s: Sample, ghost kept: seq<Candidate>, ghost pos: nat)
    requires Positive(prs) && 0.0 <= u < 1.0 && (prs != [] ==> Mass(prs, |prs|) == 1.0)
    ensures DrawnFrom(kept, prs, topP) && Positive(kept)
    ensures prs != [] ==> pos < |kept| && s == Token(kept[pos].0) && Selects(kept, Scaled(u, kept), pos)
    ensures prs == [] ==> s == if topP < 1.0 then Panic else Token(0)
  {
    hide Mass, Selects;
    pos := 0;
    assert prs != [] ==> Scaled(u, prs) == u;
    if topP < 1.0 {
      s, kept, pos := SampleNucleus(prs, topP, u);
    } else {
      kept := prs;
      var found := Walk(prs, u);
      match found
      case Some(i) =>
        pos := i;
        s := Token(prs[i].0);
      case None =>
        s := LastOrZero(prs);
    }
  }

  lemma SortedPositive(prs: seq<Candidate>, sorted: seq<Candidate>)
    requires Positive(prs) && multiset(sorted) == multiset(prs)
    ensures Positive(sorted)
  {
    forall i | 0 <= i < |sorted|
      ensures sorted[i].1 > 0.0
    {
      assert sorted[i] in multiset(sorted);
      assert sorted[i] in prs;
    }
  }

  lemma CutPrefix(sorted: seq<Candidate>, cutOff: nat, topP: real)
    requires Positive(sorted) && cutOff <= |sorted|
    requires cutOff < |sorted| ==> Mass(sorted, cutOff) > topP
    requires forall n | 1 <= n < cutOff :: Mass(sorted, n) <= topP
    ensures var kept := sorted[..cutOff];
      && Positive(kept)
      && (|kept| < |sorted| ==> Mass(kept, |kept|) > topP)
      && forall n | 1 <= n < |kept| :: Mass(kept, n) <= topP
  {
    var kept := sorted[..cutOff];
    forall n | 0 <= n <= |kept|
      ensures Mass(kept, n) == Mass(sorted, n)
    {
      MassOfPrefix(sorted, cutOff, n);
    }
  }

  lemma DrawBelow(u: real, ps: seq<Candidate>)
    requires 0.0 <= u < 1.0 && Positive(ps)
    ensures ps != [] ==> 0.0 <= Scaled(u, ps) < Mass(ps, |ps|)
  {
    hide Mass;
    if ps != [] {
      PositiveMass(ps);
      BelowTotal(u, Mass(ps, |ps|), Scaled(u, ps));
    }
  }

  lemma BelowTotal(u: real, total: real, r: real)
    requires 0.0 <= u < 1.0 && total > 0.0 && r == u * total
    ensures 0.0 <= r < total
  {
  }

  /**
   * Inverse-CDF sampling is exact: position `i` is selected by precisely the draws in its share of [0, 1), an interval
   * whose width is the candidate's weight divided by the kept mass.
   */
  lemma DrawsOfPosition(kept: seq<Candidate>, i: nat, u: real)
    requires Positive(kept) && i < |kept| && 0.0 <= u < 1.0
    ensures var total := Mass(kept, |kept|);
      && total > 0.0 && Mass(kept, 0) == 0.0
      && (Selects(kept, Scaled(u, kept), i) <==>
            (Mass(kept, i) / total < u || i == 0) && u <= Mass(kept, i + 1) / total)
      && Mass(kept, i + 1) / total - Mass(kept, i) / total == kept[i].1 / total
      && 0.0 <= Mass(kept, i) / total < Mass(kept, i + 1) / total <= 1.0
  {
    PositiveMass(kept);
    MassGrows(kept, 0, i);
    MassGrows(kept, i, i + 1);
    MassGrows(kept, i + 1, |kept|);
    var total, a, b := Mass(kept, |kept|), Mass(kept, i), Mass(kept, i + 1);
    var r := Scaled(u, kept);
    ShareOf(a, total, u, r);
    ShareOf(b, total, u, r);
    SharesDiffer(a, kept[i].1, total);
  }

  lemma SharesDiffer(a: real, w: real, total: real)
    requires total > 0.0 && w > 0.0
    ensures (a + w) / total - a / total == w / total && a / total < (a + w) / total
  {
    assert w / total * total == w;
  }

  lemma ShareOf(m: real, total: real, u: real, r: real)
    requires total > 0.0 && 0.0 <= m <= total && r == u * total
    ensures (m < r <==> m / total < u) && 0.0 <= m / total <= 1.0
  {
    var q := m / total;
    assert m == q * total;
    if q < u {
      assert q * total < u * total;
    } else {
      assert q * total >= u * total;
    }
    assert q > 1.0 ==> q * total > total;
    assert q < 0.0 ==> q * total < 0.0;
  }

  // ---------------------------------------------------------------- from logits to token

  /** The logits paired with their token ids. */
  function Indexed(logits: seq<real>): (ps: seq<Candidate>)
    ensures |ps| == |logits|
  {
    seq(|logits|, i requires 0 <= i < |logits| => (i, logits[i]))
  }

  ghost predicate CutsTopK(logits: seq<real>, topK: Option<nat>) {
    topK.Some? && topK.value < |logits|
  }

  /** The candidates' ids are distinct token ids, each with its own logit. */
  ghost predicate OwnLogits(cs: seq<Candidate>, logits: seq<real>) {
    && (forall i | 0 <= i < |cs| :: cs[i].0 < |logits| && cs[i].1 == logits[cs[i].0])
    && (forall i, j | 0 <= i < j < |cs| :: cs[i].0 != cs[j].0)
  }

  lemma CandidateIn(cs: seq<Candidate>, c: Candidate, i: nat)
    requires i < |cs| && cs[i] == c
    ensures multiset(cs)[c] >= 1
  {
    assert c in cs;
  }

  lemma TwiceIn(cs: seq<Candidate>, i: nat, j: nat)
    requires i < j < |cs| && cs[i] == cs[j]
    ensures multiset(cs)[cs[i]] >= 2
  {
    assert cs == cs[..j] + [cs[j]] + cs[j + 1..];
    assert cs[..j][i] == cs[i];
    assert cs[i] in multiset(cs[..j]);
  }

  lemma {:induction false} IndexedOnce(logits: seq<real>, c: Candidate)
    ensures multiset(Indexed(logits))[c] <= 1
  {
    if logits != [] {
      var n := |logits| - 1;
      IndexedOnce(logits[..n], c);
      var init: seq<Candidate>, all: seq<Candidate> := Indexed(logits[..n]), Indexed(logits);
      assert all == init + [(n, logits[n])];
      if c == (n, logits[n]) {
        assert c !in init;
      }
    }
  }

  /** What top-k selection leaves: `k` token ids with their logits, none smaller than that of a token left out. */
  lemma ArrangedLogits(logits: seq<real>, arranged: seq<Candidate>, k: nat)
    requires IsTopK(arranged, Indexed(logits), k)
    ensures |arranged| == k && OwnLogits(arranged, logits)
    ensures forall i, id | 0 <= i < |arranged| && 0 <= id < |logits| ::
      id in Tokens(arranged) || logits[id] <= arranged[i].1
  {
    var all: seq<Candidate> := Indexed(logits);
    var rest: seq<Candidate> :|
      && multiset(arranged) + multiset(rest) == multiset(all)
      && |arranged| == k
      && forall a: Candidate, b: Candidate | a in arranged && b in rest :: a.1 >= b.1;
    forall i | 0 <= i < |arranged|
      ensures arranged[i].0 < |logits| && arranged[i].1 == logits[arranged[i].0]
    {
      CandidateIn(arranged, arranged[i], i);
      assert arranged[i] in multiset(all);
    }
    forall i, j | 0 <= i < j < |arranged|
      ensures arranged[i].0 != arranged[j].0
    {
      if arranged[i].0 == arranged[j].0 {
        TwiceIn(arranged, i, j);
        IndexedOnce(logits, arranged[i]);
      }
    }
    forall i, id | 0 <= i < |arranged| && 0 <= id < |logits|
      ensures id in Tokens(arranged) || logits[id] <= arranged[i].1
    {
      var c: Candidate := (id, logits[id]);
      CandidateIn(all, c, id);
      if c in multiset(arranged) {
        var j :| 0 <= j < |arranged| && arranged[j] == c;
        assert Tokens(arranged)[j] == id;
      } else {
        assert c in multiset(rest);
        assert arranged[i] in arranged && c in rest;
      }
    }
  }

  function Tokens(cs: seq<Candidate>): (ids: seq<nat>)
    ensures |ids| == |cs| && forall i | 0 <= i < |cs| :: ids[i] == cs[i].0
  {
    seq(|cs|, i requires 0 <= i < |cs| => cs[i].0)
  }

  lemma {:induction false} MaxLogitIs(cs: seq<Candidate>)
    requires cs != []
    ensures forall i | 0 <= i < |cs| :: cs[i].1 <= MaxLogit(cs)
    ensures exists i | 0 <= i < |cs| :: cs[i].1 == MaxLogit(cs)
  {
    if |cs| > 1 {
      var init := cs[..|cs| - 1];
      MaxLogitIs(init);
      var i :| 0 <= i < |init| && init[i].1 == MaxLogit(init);
      assert cs[i] == init[i];
      assert forall i | 0 <= i < |cs| - 1 :: cs[i] == init[i];
    } else {
      assert cs[0].1 == MaxLogit(cs);
    }
  }

  /**
   * The weights belong to the tokens' own logits: proportional to their exponentials relative to the largest of them.
   */
  ghost predicate WeighsLogits(prs: seq<Candidate>, logits: seq<real>, expo: real -> real, top: real) {
    && (forall i | 0 <= i < |prs| :: prs[i].0 < |logits| && logits[prs[i].0] <= top)
    && (forall i, j | 0 <= i < j < |prs| :: prs[i].0 != prs[j].0)
    && (prs != [] ==> exists i | 0 <= i < |prs| :: logits[prs[i].0] == top)
    && (forall i, j | 0 <= i < |prs| && 0 <= j < |prs| ::
          prs[i].1 * expo(logits[prs[j].0] - top) == prs[j].1 * expo(logits[prs[i].0] - top))
  }

  lemma SoftmaxWeighs(prs: seq<Candidate>, cs: seq<Candidate>, logits: seq<real>, expo: real -> real)
    requires IsSoftmax(prs, cs, expo) && OwnLogits(cs, logits)
    ensures WeighsLogits(prs, logits, expo, if cs == [] then 0.0 else MaxLogit(cs))
  {
    hide Mass, MaxLogit, IsSoftmax;
    SameTokens(prs, cs, logits, expo);
    if cs != [] {
      MaxLogitIs(cs);
      var i :| 0 <= i < |cs| && cs[i].1 == MaxLogit(cs);
      assert logits[prs[i].0] == MaxLogit(cs);
      forall i, j | 0 <= i < |prs| && 0 <= j < |prs|
        ensures prs[i].1 * expo(logits[prs[j].0] - MaxLogit(cs)) == prs[j].1 * expo(logits[prs[i].0] - MaxLogit(cs))
      {
        WeightsOf(prs, cs, expo, i, j);
      }
    }
  }

  lemma SameTokens(prs: seq<Candidate>, cs: seq<Candidate>, logits: seq<real>, expo: real -> real)
    requires IsSoftmax(prs, cs, expo) && OwnLogits(cs, logits)
    ensures |prs| == |cs| && forall i | 0 <= i < |prs| :: prs[i].0 == cs[i].0 < |logits| && logits[prs[i].0] == cs[i].1
  {
    hide Mass, Positive;
  }

  lemma WeightsOf(prs: seq<Candidate>, cs: seq<Candidate>, expo: real -> real, i: nat, j: nat)
    requires IsSoftmax(prs, cs, expo) && i < |prs| && j < |prs|
    ensures |prs| == |cs| && prs[i].1 * expo(cs[j].1 - MaxLogit(cs)) == prs[j].1 * expo(cs[i].1 - MaxLogit(cs))
  {
    hide Mass, Positive, MaxLogit;
  }

  /** Which tokens are candidates: the `topK` with the largest logits when there are more tokens than that, else all. */
  ghost predicate Candidates(prs: seq<Candidate>, logits: seq<real>, topK: Option<nat>) {
    if topK.Some? && topK.value < |logits| then
      && |prs| == topK.value
      && forall i, id | 0 <= i < |prs| && 0 <= id < |logits| ::
           id in Tokens(prs) || (prs[i].0 < |logits| && logits[id] <= logits[prs[i].0])
    else |prs| == |logits| && forall i | 0 <= i < |prs| :: prs[i].0 == i
  }

  /**
   * Sampling from nonempty logits. `arranged` is what selecting the `topK` largest leaves, in whatever order; `u` is
   * the uniform draw, `top` the largest logit of a candidate. With `topK` not zero the call always returns a candidate.
   */
  method SampleToken(logits: seq<real>, expo: real -> real, topP: real, topK: Option<nat>, arranged: seq<Candidate>,
    u: real)
    returns (s: Sample, ghost prs: seq<Candidate>, ghost kept: seq<Candidate>, ghost pos: nat, ghost top: real)
    requires logits != [] && 0.0 <= u < 1.0
    requires forall x :: expo(x) > 0.0
    requires CutsTopK(logits, topK) ==> IsTopK(arranged, Indexed(logits), topK.value)
    ensures Candidates(prs, logits, topK) && WeighsLogits(prs, logits, expo, top)
    ensures IsSoftmax(prs, if CutsTopK(logits, topK) then arranged else Indexed(logits), expo)
    ensures DrawnFrom(kept, prs, topP) && Positive(kept)
    ensures topK != Some(0) ==>
      && pos < |kept| && s == Token(kept[pos].0) && Selects(kept, Scaled(u, kept), pos)
    ensures topK == Some(0) ==> s == if topP < 1.0 then Panic else Token(0)
  {
    hide Mass, Selects, Scaled, DrawnFrom, MaxLogit, WeighsLogits, IsTopK, OwnLogits;
    var indexed := Indexed(logits);
    IndexedLogits(logits);
    if topK.Some? && topK.value < |indexed| {
      ArrangedLogits(logits, arranged, topK.value);
      indexed := arranged;
    }
    var weights := Softmax(indexed, expo);
    prs := weights;
    top := if indexed == [] then 0.0 else MaxLogit(indexed);
    SoftmaxWeighs(prs, indexed, logits, expo);
    CandidatesKept(indexed, prs, logits, topK);
    s, kept, pos := SampleWeights(weights, topP, u);
  }

  lemma IndexedLogits(logits: seq<real>)
    ensures OwnLogits(Indexed(logits), logits) && forall i | 0 <= i < |logits| :: Indexed(logits)[i].0 == i
  {
  }

  lemma CandidatesKept(cs: seq<Candidate>, prs: seq<Candidate>, logits: seq<real>, topK: Option<nat>)
    requires |prs| == |cs| && (forall i | 0 <= i < |prs| :: prs[i].0 == cs[i].0) && OwnLogits(cs, logits)
    requires CutsTopK(logits, topK) ==> |cs| == topK.value
    requires CutsTopK(logits, topK) ==>
      forall i, id | 0 <= i < |cs| && 0 <= id < |logits| :: id in Tokens(cs) || logits[id] <= cs[i].1
    requires !CutsTopK(logits, topK) ==> |cs| == |logits| && forall i | 0 <= i < |cs| :: cs[i].0 == i
    ensures Candidates(prs, logits, topK)
  {
    assert Tokens(prs) == Tokens(cs);
  }

  /**
   * The kept candidates: without a nucleus all of them; with one, the heaviest, in descending order, and as few of them
   * as have a mass above `topP`, or all.
   */
  lemma KeptFacts(kept: seq<Candidate>, prs: seq<Candidate>, topP: real)
    requires DrawnFrom(kept, prs, topP)
    ensures topP >= 1.0 ==> kept == prs
    ensures topP < 1.0 ==>
      && Descending(kept) && IsTopK(kept, prs, |kept|)
      && (|kept| < |prs| ==> Mass(kept, |kept|) > topP) && forall n | 1 <= n < |kept| :: Mass(kept, n) <= topP
  {
    hide Mass, SortDescending, Descending, IsTopK;
    if topP < 1.0 {
      SortFacts(prs);
      HeaviestFirst(SortDescending(prs), prs, kept);
    }
  }

  lemma HeaviestFirst(sorted: seq<Candidate>, prs: seq<Candidate>, kept: seq<Candidate>)
    requires Descending(sorted) && multiset(sorted) == multiset(prs) && kept <= sorted
    ensures Descending(kept) && IsTopK(kept, prs, |kept|)
  {
    var rest: seq<Candidate> := sorted[|kept|..];
    assert sorted == kept + rest;
    forall a: Candidate, b: Candidate | a in kept && b in rest
      ensures a.1 >= b.1
    {
      var i :| 0 <= i < |kept| && kept[i] == a;
      var j :| 0 <= j < |rest| && rest[j] == b;
      assert sorted[i] == a && sorted[|kept| + j] == b;
    }
  }

  /** Drawing a token is drawing by its own logit: the kept weights stand in the proportions of the exponentials. */
  lemma KeptWeighs(kept: seq<Candidate>, prs: seq<Candidate>, topP: real, logits: seq<real>, expo: real -> real,
    top: real, i: nat, j: nat)
    requires DrawnFrom(kept, prs, topP) && WeighsLogits(prs, logits, expo, top) && i < |kept| && j < |kept|
    ensures kept[i].0 < |logits| && kept[j].0 < |logits|
    ensures kept[i].1 * expo(logits[kept[j].0] - top) == kept[j].1 * expo(logits[kept[i].0] - top)
  {
    hide Mass, SortDescending, Descending, WeighsLogits;
    KeptFacts(kept, prs, topP);
    var a := KeptAt(kept, prs, topP, i);
    var b := KeptAt(kept, prs, topP, j);
    WeighsAt(prs, logits, expo, top, a, b);
  }

  lemma KeptAt(kept: seq<Candidate>, prs: seq<Candidate>, topP: real, i: nat) returns (a: nat)
    requires DrawnFrom(kept, prs, topP) && i < |kept|
    ensures a < |prs| && prs[a] == kept[i]
  {
    hide Mass;
    if topP < 1.0 {
      SortFacts(prs);
      CandidateIn(SortDescending(prs), kept[i], i);
      assert kept[i] in multiset(prs);
      a :| 0 <= a < |prs| && prs[a] == kept[i];
    } else {
      a := i;
    }
  }

  lemma WeighsAt(prs: seq<Candidate>, logits: seq<real>, expo: real -> real, top: real, a: nat, b: nat)
    requires WeighsLogits(prs, logits, expo, top) && a < |prs| && b < |prs|
    ensures prs[a].0 < |logits| && prs[b].0 < |logits|
    ensures prs[a].1 * expo(logits[prs[b].0] - top) == prs[b].1 * expo(logits[prs[a].0] - top)
  {
  }

  /** Total exponential of the first `n` kept tokens' own logits. */
  function ExpMass(kept: seq<Candidate>, logits: seq<real>, expo: real -> real, top: real, n: nat): real
    requires n <= |kept| && forall i | 0 <= i < n :: kept[i].0 < |logits|
  {
    if n == 0 then 0.0
    else ExpMass(kept, logits, expo, top, n - 1) + expo(logits[kept[n - 1].0] - top)
  }

  lemma {:induction false} ProportionalMass(kept: seq<Candidate>, prs: seq<Candidate>, topP: real, logits: seq<real>,
    expo: real -> real, top: real, i: nat, n: nat)
    requires DrawnFrom(kept, prs, topP) && WeighsLogits(prs, logits, expo, top) && i < |kept| && n <= |kept|
    ensures forall k | 0 <= k < |kept| :: kept[k].0 < |logits|
    ensures kept[i].1 * ExpMass(kept, logits, expo, top, n) == expo(logits[kept[i].0] - top) * Mass(kept, n)
  {
    hide DrawnFrom, WeighsLogits;
    forall k | 0 <= k < |kept|
      ensures kept[k].0 < |logits|
    {
      KeptWeighs(kept, prs, topP, logits, expo, top, k, k);
    }
    if n > 0 {
      ProportionalMass(kept, prs, topP, logits, expo, top, i, n - 1);
      KeptWeighs(kept, prs, topP, logits, expo, top, i, n - 1);
      Distribute(kept[i].1, ExpMass(kept, logits, expo, top, n - 1), expo(logits[kept[n - 1].0] - top));
      Distribute(expo(logits[kept[i].0] - top), Mass(kept, n - 1), kept[n - 1].1);
    }
  }

  lemma Distribute(a: real, b: real, c: real)
    ensures a * (b + c) == a * b + a * c
  {
  }

  /**
   * The share of the draws that select position `i` is the softmax of that token's own logit among the kept tokens: its
   * exponential over the sum of theirs.
   */
  lemma TokenShare(kept: seq<Candidate>, prs: seq<Candidate>, topP: real, logits: seq<real>, expo: real -> real,
    top: real, i: nat)
    requires DrawnFrom(kept, prs, topP) && WeighsLogits(prs, logits, expo, top) && Positive(kept) && i < |kept|
    requires forall x :: expo(x) > 0.0
    ensures forall k | 0 <= k < |kept| :: kept[k].0 < |logits|
    ensures var total, expTotal := Mass(kept, |kept|), ExpMass(kept, logits, expo, top, |kept|);
      && total > 0.0 && expTotal > 0.0
      && Mass(kept, i + 1) / total - Mass(kept, i) / total == expo(logits[kept[i].0] - top) / expTotal
  {
    hide Mass, DrawnFrom, WeighsLogits, ExpMass, Scaled, Selects;
    DrawsOfPosition(kept, i, 0.0);
    ProportionalMass(kept, prs, topP, logits, expo, top, i, |kept|);
    SameShare(kept[i].1, Mass(kept, |kept|), expo(logits[kept[i].0] - top), ExpMass(kept, logits, expo, top, |kept|));
  }

  lemma SameShare(a: real, total: real, e: real, expTotal: real)
    requires a > 0.0 && total > 0.0 && e > 0.0 && a * expTotal == e * total
    ensures expTotal > 0.0 && a / total == e / expTotal
  {
    var q := a / total;
    assert a == q * total;
    assert expTotal > 0.0 by {
      assert e * total > 0.0;
    }
    assert (q * expTotal) * total == e * total;
    assert q * expTotal == e;
  }
}
