/** Whole runs of the serving loop, with arrivals at any point, arbitrary sampled tokens and arbitrary deadlines. */
module ServingRuns {
  import opened Types
  import opened BlockAccounting
  import opened BlockCoverage
  import opened SchedulerModel
  import opened SchedulerPlan
  import opened ServingSystem
  import opened ServingMemory
  import opened ServingSteps

  /** A new engine: empty queues, all blocks free. */
  ghost function Boot(blockSize: nat, numBlocks: nat, config: Config): System {
    System(State([], [], Initial(blockSize, numBlocks), config), Idle, [], [], map[])
  }

  lemma BootInv(blockSize: nat, numBlocks: nat, config: Config)
    requires blockSize >= 1 && config.maxTokensPerIter >= 1 && config.maxPrefillChunkSize >= 1
    ensures Inv(Boot(blockSize, numBlocks, config))
  {
    InitialSound(blockSize, numBlocks);
  }

  lemma NextKeepsInv(s: System, e: Event)
    requires Inv(s) && Enabled(s, e)
    ensures Inv(Next(s, e))
  {
    hide Inv, Enabled, Next;
    match e
    case Arrive(r) => ArriveKeepsInv(s, r);
    case PlanBatch(now, ev) => PlanKeepsInv(s, now, ev);
    case CommitBatch(tokens, pss) => CommitKeepsInv(s, tokens, pss);
  }

  ghost predicate Legal(s: System, es: seq<Event>)
    requires Inv(s)
    decreases |es|
  {
    es != [] ==>
      && Enabled(s, es[0])
      && (NextKeepsInv(s, es[0]); Legal(Next(s, es[0]), es[1..]))
  }

  ghost function After(s: System, es: seq<Event>): (u: System)
    requires Inv(s) && Legal(s, es)
    ensures Inv(u)
    decreases |es|
  {
    if es == [] then s
    else
      NextKeepsInv(s, es[0]);
      After(Next(s, es[0]), es[1..])
  }

  lemma RunCons(s: System, e: Event, es: seq<Event>)
    requires Inv(s) && Enabled(s, e) && Inv(Next(s, e)) && Legal(Next(s, e), es)
    ensures Legal(s, [e] + es) && After(s, [e] + es) == After(Next(s, e), es)
  {
    hide Inv, Enabled, Next;
    assert ([e] + es)[0] == e && ([e] + es)[1..] == es;
  }

  /** Safety: what the invariant means for a request in any reachable state. */
  lemma RunSafety(s: System, es: seq<Event>)
    requires Inv(s) && Legal(s, es)
    ensures var u := After(s, es);
      // each request that ever arrived is in exactly one place
      && NoDup(AllIds(u)) && multiset(AllIds(u)) == multiset(u.arrived)
      // block tables exist for exactly the running requests
      && (forall id :: id in u.sched.mem.table <==> id in Ids(u.sched.running))
      && (forall id :: id in u.sched.mem.prompts <==> id in Ids(u.sched.running))
      // and hold enough distinct blocks for the whole prompt
      && (forall r | r in u.sched.running ::
            r.id in u.sched.mem.table && Spans(u.sched.mem.table[r.id], u.sched.mem.blockSize, |r.promptTokens|))
      // prefill fed the model exactly the prompt between the cached prefix and the cursor
      && (forall r | r in u.sched.running + u.gone ::
            r.cachedPrefixLen <= r.prefillCursor <= |r.promptTokens|
              && FedTo(u.fed, r.id) == r.promptTokens[r.cachedPrefixLen..r.prefillCursor])
      // output stays within its limit, and a stop sequence occurs only as the end of a finished output
      && (forall r | r in u.sched.running + u.gone ::
            |r.generatedTokens| <= Limit(r) && Unstopped(r, |r.generatedTokens| - 1))
      && (forall r | r in u.sched.running :: Unstopped(r, |r.generatedTokens|))
  {
    hide Legal, After, Sound, TreeCovers, CursorExact, Exact, Unstopped, Unstarted, Ids;
    var u := After(s, es);
    DistinctEverywhere(u);
    forall r | r in u.sched.running
      ensures r.id in u.sched.mem.table && Spans(u.sched.mem.table[r.id], u.sched.mem.blockSize, |r.promptTokens|)
      ensures Unstopped(r, |r.generatedTokens| - 1)
    {
      IdOfMember(u.sched.running, r);
      FewerUnstopped(r);
    }
  }

  lemma FewerUnstopped(r: Request)
    requires Unstopped(r, |r.generatedTokens|)
    ensures Unstopped(r, |r.generatedTokens| - 1)
  {
  }
}
