/** When generation stops and what it outputs, said of token sequences alone. */
module ServingStops {
  import opened Types
  import opened RadixTrie
  import opened BlockAccounting
  import opened SchedulerModel
  import opened SchedulerCommit
  import opened ServingSystem
  import opened ServingMemory
  import opened ServingSteps
  import opened ServingRuns
  import opened ServingAmong

  // ---------------------------------------------------------------- stopping

  /** The output had to end: the limit is reached, or the last tokens are one of the stop sequences. */
  ghost predicate MustEnd(r: Request) {
    var gen := r.generatedTokens;
    || |gen| >= r.maxTokens
    || exists k | 0 <= k < |r.stopTokenIds| ::
      |r.stopTokenIds[k]| <= |gen| && gen[|gen| - |r.stopTokenIds[k]|..] == r.stopTokenIds[k]
  }

  /** No stop sequence makes up the tokens just before position `j`. */
  ghost predicate NoStopAt(r: Request, j: int)
    requires 0 <= j <= |r.generatedTokens|
  {
    forall k | 0 <= k < |r.stopTokenIds| && |r.stopTokenIds[k]| <= j ::
      r.generatedTokens[j - |r.stopTokenIds[k]|..j] != r.stopTokenIds[k]
  }

  /** No stop sequence is complete after any of the first `n` tokens. */
  ghost predicate NoStopWithin(r: Request, n: int) {
    forall j | 1 <= j <= n && j <= |r.generatedTokens| :: NoStopAt(r, j)
  }

  lemma FinishedIff(r: Request)
    ensures Finished(r) <==> MustEnd(r)
  {
  }

  lemma UnstoppedIff(r: Request, n: int)
    requires Unstopped(r, n)
    ensures NoStopWithin(r, n)
  {
    var gen := r.generatedTokens;
    forall j | 1 <= j <= n && j <= |gen|
      ensures NoStopAt(r, j)
    {
      forall k | 0 <= k < |r.stopTokenIds| && |r.stopTokenIds[k]| <= j
        ensures gen[j - |r.stopTokenIds[k]|..j] != r.stopTokenIds[k]
      {
        assert !EndsWith(gen[..j], r.stopTokenIds[k]);
        assert gen[..j][j - |r.stopTokenIds[k]|..] == gen[j - |r.stopTokenIds[k]|..j];
      }
    }
  }

  /** A commit lets go exactly those requests whose output had to end. */
  lemma CommitLetsGo(s: System, tokens: seq<Token>, pss: seq<seq<Path>>)
    requires Inv(s) && Enabled(s, CommitBatch(tokens, pss))
    ensures var u := Next(s, CommitBatch(tokens, pss));
      && s.gone <= u.gone
      && (forall r | r in u.gone[|s.gone|..] :: MustEnd(r))
      && (forall r | r in u.sched.running :: !MustEnd(r))
  {
    hide Inv, Sound, Ids, NoDup, Results, Batch, Feed, Computed, PermittedFrees, FreeAll, PermittedCommit, Commit,
         Finished, MustEnd, Committed;
    ConfigOk(s);
    CommitPermitted(s, tokens, pss);
    var u := Next(s, CommitBatch(tokens, pss));
    var rs := Computed(s.sched.running, s.phase.plan.toPrefill, Results(Items(s), tokens), s.sched.config);
    FinishSplit(rs);
    forall r | r in rs
      ensures Finished(r) <==> MustEnd(r)
    {
      FinishedIff(r);
    }
  }

  /** Requests leave because their output had to end or because they had a deadline. */
  ghost predicate LeftRightly(s: System) {
    forall r | r in s.gone :: MustEnd(r) || r.deadline.Some?
  }

  lemma {:induction false} ExpiredHadDeadline(rs: seq<Request>, now: nat)
    ensures forall r | r in ExpiredRequests(rs, now) :: r.deadline.Some?
  {
    if rs != [] {
      ExpiredHadDeadline(rs[..|rs| - 1], now);
    }
  }

  lemma NextLeftRightly(s: System, e: Event)
    requires Inv(s) && Enabled(s, e) && LeftRightly(s)
    ensures LeftRightly(Next(s, e))
  {
    hide Inv, Sound, MustEnd, PermittedSchedule, PermittedCommit, Schedule, Commit, ExpiredRequests, Computed, Results,
         FinishedRequests, Feed;
    ConfigOk(s);
    match e
    case Arrive(r) =>
    case PlanBatch(now, ev) =>
      ExpiredHadDeadline(s.sched.running, now);
      ExpiredHadDeadline(s.sched.waiting, now);
    case CommitBatch(tokens, pss) =>
      CommitLetsGo(s, tokens, pss);
      var u := Next(s, e);
      assert forall r | r in u.gone :: r in s.gone || r in u.gone[|s.gone|..] by {
        assert u.gone == s.gone + u.gone[|s.gone|..];
      }
  }

  lemma {:induction false} RunLeftRightly(s: System, es: seq<Event>)
    requires Inv(s) && Legal(s, es) && LeftRightly(s)
    ensures LeftRightly(After(s, es))
    decreases |es|
  {
    hide Inv, Enabled, Next, LeftRightly;
    if es != [] {
      ConfigOk(s);
      NextKeepsInv(s, es[0]);
      NextLeftRightly(s, es[0]);
      RunLeftRightly(Next(s, es[0]), es[1..]);
    }
  }

  /**
   * Stopping over all runs of a new engine. A request without a deadline leaves only when its output had to end; no
   * output goes on past a stop sequence; running requests with output are below their limit and have met none at all.
   */
  lemma StopsExactly(blockSize: nat, numBlocks: nat, config: Config, es: seq<Event>)
    requires Inv(Boot(blockSize, numBlocks, config)) && Legal(Boot(blockSize, numBlocks, config), es)
    ensures var u := After(Boot(blockSize, numBlocks, config), es);
      && (forall r | r in u.gone && r.deadline == None :: MustEnd(r))
      && (forall r | r in u.gone :: NoStopWithin(r, |r.generatedTokens| - 1))
      && (forall r | r in u.sched.running :: NoStopWithin(r, |r.generatedTokens|))
      && (forall r | r in u.sched.running && r.generatedTokens != [] :: |r.generatedTokens| < r.maxTokens)
  {
    hide Inv, Legal, After, Initial, MustEnd, Unstopped, NoStopWithin;
    var s := Boot(blockSize, numBlocks, config);
    RunLeftRightly(s, es);
    RunSafety(s, es);
    var u := After(s, es);
    forall r | r in u.sched.running + u.gone
      ensures NoStopWithin(r, |r.generatedTokens| - 1)
    {
      UnstoppedIff(r, |r.generatedTokens| - 1);
    }
    forall r | r in u.sched.running
      ensures NoStopWithin(r, |r.generatedTokens|)
      ensures r.generatedTokens != [] ==> |r.generatedTokens| < r.maxTokens
    {
      UnstoppedIff(r, |r.generatedTokens|);
      BelowLimit(u, r);
    }
  }

  lemma BelowLimit(s: System, r: Request)
    requires Inv(s) && r in s.sched.running
    ensures r.generatedTokens != [] ==> |r.generatedTokens| < r.maxTokens
  {
    assert RunningOk(r, s.sched.config);
  }

  // ---------------------------------------------------------------- output

  lemma {:induction false} TokenForAt(results: seq<ComputeResult>, j: nat)
    requires NoDup(ResultIds(results)) && j < |results|
    ensures TokenFor(results, results[j].reqId) == Some(results[j].token)
  {
    var last := |results| - 1;
    if j < last {
      assert ResultIds(results)[j] != ResultIds(results)[last];
      assert forall i, k | 0 <= i < k < last :: ResultIds(results)[i] != ResultIds(results)[k];
      TokenForAt(results[..last], j);
    }
  }

  /** The request after a commit: its output has grown by the token sampled for its work item, or not at all. */
  ghost predicate Outputs(items: seq<WorkItem>, tokens: seq<Token>, r: Request, q: Request) {
    && |tokens| == |items| && q.id == r.id
    && (forall j | 0 <= j < |items| && items[j].reqId == r.id :: q.generatedTokens == r.generatedTokens + [tokens[j]])
    && ((forall j | 0 <= j < |items| :: items[j].reqId != r.id) ==> q.generatedTokens == r.generatedTokens)
  }

  lemma ComputedOutputs(s: System, tokens: seq<Token>, i: nat)
    requires Inv(s) && s.phase.Computing? && |tokens| == |Items(s)| && i < |s.sched.running|
    ensures var rs := Computed(s.sched.running, s.phase.plan.toPrefill, Results(Items(s), tokens), s.sched.config);
      |rs| == |s.sched.running| && Outputs(Items(s), tokens, s.sched.running[i], rs[i])
  {
    hide Inv, Items, Computed, Ids, NoDup, TokenFor;
    DistinctEverywhere(s);
    BatchOf(s, tokens);
    var items, results := Items(s), Results(Items(s), tokens);
    var r := s.sched.running[i];
    ComputedFacts(s.sched.running, s.phase.plan.toPrefill, results, s.sched.config);
    assert |Ids(Computed(s.sched.running, s.phase.plan.toPrefill, results, s.sched.config))| == |Ids(s.sched.running)|;
    BatchDistinct(s, tokens);
    TokenForKnown(results, r.id);
    forall j | 0 <= j < |items| && items[j].reqId == r.id
      ensures TokenFor(results, r.id) == Some(tokens[j])
    {
      TokenForAt(results, j);
    }
  }

  lemma BatchDistinct(s: System, tokens: seq<Token>)
    requires Inv(s) && s.phase.Computing? && |tokens| == |Items(s)|
    ensures NoDup(ResultIds(Results(Items(s), tokens)))
  {
    hide Inv, Items, Results, NoDup;
    BatchOf(s, tokens);
  }

  /** Every running request comes out of a commit with exactly the output sampled for it, wherever it then is. */
  lemma CommitOutputs(s: System, tokens: seq<Token>, pss: seq<seq<Path>>, r: Request)
    requires Inv(s) && Enabled(s, CommitBatch(tokens, pss)) && r in s.sched.running
    ensures var u := Next(s, CommitBatch(tokens, pss));
      exists q :: q in u.sched.running + u.gone && Outputs(Items(s), tokens, r, q)
  {
    hide Inv, Sound, Results, Feed, Computed, PermittedFrees, FreeAll, PermittedCommit, Commit, Finished, Committed,
         Outputs, Items, FinishedRequests, Unfinished, Ids;
    ConfigOk(s);
    CommitPermitted(s, tokens, pss);
    var i :| 0 <= i < |s.sched.running| && s.sched.running[i] == r;
    ComputedOutputs(s, tokens, i);
    var rs := Computed(s.sched.running, s.phase.plan.toPrefill, Results(Items(s), tokens), s.sched.config);
    SplitMember(rs, i);
    var u := Next(s, CommitBatch(tokens, pss));
    assert rs[i] in u.sched.running + u.gone;
  }
}
