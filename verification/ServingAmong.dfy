/** Finishing early among other requests: the bound known at admission is tight whatever else runs or waits. */
module ServingAmong {
  import opened Types
  import opened BlockAccounting
  import opened SchedulerModel
  import opened SchedulerPlan
  import opened SchedulerCommit
  import opened ServingSystem
  import opened ServingMemory
  import opened ServingSteps
  import opened ServingRuns
  import opened ServingProgress
  import opened ServingPrefill
  import opened ServingEarly
  import opened ServingDrain

  /** The same request, up to its prefill flag. */
  ghost predicate UpToFlag(q: Request, r: Request) {
    q == r.(isPrefill := q.isPrefill)
  }

  /** Unprefilled, unexpired, and on its way through `word`. */
  ghost predicate OnTheWay(r: Request, word: seq<Token>, config: Config) {
    !Decoding(r) && !Expired(r, 0) && Sampling(r, word, config)
  }

  lemma FlagOnTheWay(q: Request, r: Request, word: seq<Token>, config: Config)
    requires UpToFlag(q, r) && OnTheWay(r, word, config)
    ensures OnTheWay(q, word, config) && SameRequest(q, r) && (Finished(q) <==> Finished(r))
  {
    hide EarliestEnd, Finished, ChunksSuffice;
    SameLimits(q, r);
    SameLimits(q.(generatedTokens := word), r.(generatedTokens := word));
  }

  // ---------------------------------------------------------------- planning

  /** A running request that has not expired is still running after a plan. */
  lemma StaysRunning(s: State, now: nat, ev: Evictions, r: Request) returns (q: Request)
    requires Sound(s.mem) && PermittedSchedule(s, now, ev) && s.config.maxPrefillChunkSize >= 1
    requires r in s.running && !Expired(r, now)
    ensures q in Schedule(s, now, ev).running && UpToFlag(q, r)
  {
    hide Sound, Exact, PermittedTry, PermittedFrees, PermittedAdmissions, ExpiredIds, Admissions, PlanRunning, FreeAll,
         AllocateWithPrefix, Unexpired, Expired;
    PlanRunningFacts(s, now, ev.expiring);
    var pl := PlanRunning(s, now, ev.expiring);
    AdmissionsFacts(pl, s.config, ev.admitting);
    UnexpiredMember(s.running, now, r);
    var u, kept := Schedule(s, now, ev), Unexpired(s.running, now);
    var i :| 0 <= i < |kept| && kept[i] == r;
    q := pl.running[i];
    assert u.running[..|pl.running|][i] == q;
  }

  lemma PlanOn(s: System, r: Request) returns (e: Event, q: Request)
    requires Inv(s) && s.phase == Phase.Idle && r in s.sched.running && !Expired(r, 0)
    ensures Sound(s.sched.mem) && e.PlanBatch? && Enabled(s, e)
    ensures var u := Next(s, e);
      u.phase.Computing? && q in u.sched.running && UpToFlag(q, r) && u.sched.config == s.sched.config
  {
    hide Inv, Sound, PermittedSchedule, Schedule, Expired;
    ConfigOk(s);
    var ev := PlanPossible(s.sched, 0);
    e := PlanBatch(0, ev);
    q := StaysRunning(s.sched, 0, ev, r);
    EmptyPlanIdle(s, 0, ev);
  }

  // ---------------------------------------------------------------- committing

  /** Samples `token` for the request and 0 for all others. */
  function TokensFor(items: seq<WorkItem>, id: RequestId, token: Token): (ts: seq<Token>)
    ensures |ts| == |items|
  {
    seq(|items|, j requires 0 <= j < |items| => if items[j].reqId == id then token else 0)
  }

  lemma {:induction false} TokenForIs(results: seq<ComputeResult>, id: RequestId, token: Token)
    requires forall j | 0 <= j < |results| :: results[j].reqId == id ==> results[j].token == token
    ensures TokenFor(results, id) == if id in ResultIds(results) then Some(token) else None
  {
    TokenForKnown(results, id);
    if results != [] && results[|results| - 1].reqId != id {
      var init := results[..|results| - 1];
      assert ResultIds(results) == ResultIds(init) + [results[|results| - 1].reqId];
      TokenForIs(init, id, token);
    }
  }

  lemma {:induction false} DecodingMember(rs: seq<Request>, id: RequestId) returns (q: Request)
    requires id in DecodingIds(rs)
    ensures q in rs && q.id == id && Decoding(q)
  {
    var last := rs[|rs| - 1];
    if Decoding(last) && last.id == id {
      q := last;
    } else {
      q := DecodingMember(rs[..|rs| - 1], id);
    }
  }

  /** What a commit makes of a prefilling request: one token and one chunk more if it is in the batch, else nothing. */
  lemma CommittedAs(s: System, r: Request, token: Token) returns (tokens: seq<Token>, i: nat)
    requires Inv(s) && s.phase.Computing? && r in s.sched.running && !Decoding(r)
    ensures |tokens| == |Items(s)| && i < |s.sched.running| && s.sched.running[i] == r
    ensures var config := s.sched.config;
      var rs := Computed(s.sched.running, s.phase.plan.toPrefill, Results(Items(s), tokens), config);
      |rs| == |s.sched.running| && rs[i] == if r.id in s.phase.plan.toPrefill then Grown(r, token, config) else r
  {
    hide Inv, Items, Computed, NoDup, Ids, Decoding, Advanced;
    DistinctEverywhere(s);
    tokens := TokensFor(Items(s), r.id, token);
    BatchOf(s, tokens);
    var results, p := Results(Items(s), tokens), s.phase.plan;
    ComputedFacts(s.sched.running, p.toPrefill, results, s.sched.config);
    assert |Ids(Computed(s.sched.running, p.toPrefill, results, s.sched.config))| == |Ids(s.sched.running)|;
    TokenForIs(results, r.id, token);
    i :| 0 <= i < |s.sched.running| && s.sched.running[i] == r;
    if r.id in p.toDecode {
      var q := DecodingMember(s.sched.running, r.id);
      SameId(s.sched.running, q, r);
    }
  }

  lemma SplitMember(rs: seq<Request>, i: nat)
    requires i < |rs|
    ensures if Finished(rs[i]) then rs[i] in FinishedRequests(rs) else rs[i] in Unfinished(rs)
  {
    hide Finished, FinishedRequests, Unfinished;
    SplitFinished(rs, rs[i]);
  }

  lemma CommitOn(s: System, r: Request, token: Token) returns (e: Event)
    requires Inv(s) && s.phase.Computing? && r in s.sched.running && !Decoding(r)
    ensures Sound(s.sched.mem) && e.CommitBatch? && Enabled(s, e)
    ensures var u := Next(s, e);
      var q := if r.id in s.phase.plan.toPrefill then Grown(r, token, s.sched.config) else r;
      && u.phase == Phase.Idle && u.sched.config == s.sched.config
      && if Finished(q) then q in u.gone else q in u.sched.running
  {
    hide Inv, Sound, PermittedCommit, Commit, Items, Computed, Grown, Decoding, Finished, Results, FinishedRequests,
         Unfinished, Feed;
    ConfigOk(s);
    var tokens, i := CommittedAs(s, r, token);
    var pss := CommitPossible(s, tokens);
    e := CommitBatch(tokens, pss);
    CommitPermitted(s, tokens, pss);
    SplitMember(Computed(s.sched.running, s.phase.plan.toPrefill, Results(Items(s), tokens), s.sched.config), i);
  }

  lemma CursorOf(s: System, r: Request)
    requires Inv(s) && r in s.sched.running
    ensures CursorExact(r, s.sched.config)
  {
    assert RunningOk(r, s.sched.config);
  }

  /** One commit on the way: the request leaves with the whole word, or it is still on its way. */
  lemma CommitOnTheWay(s: System, r: Request, word: seq<Token>) returns (e: Event, q: Request)
    requires Inv(s) && s.phase.Computing? && r in s.sched.running && OnTheWay(r, word, s.sched.config)
    requires Finished(r) ==> r.id in s.phase.plan.toPrefill
    ensures Sound(s.sched.mem) && e.CommitBatch? && Enabled(s, e)
    ensures var u := Next(s, e);
      && u.phase == Phase.Idle && u.sched.config == s.sched.config && SameRequest(q, r)
      && (if q in u.gone then q.generatedTokens == word && !Decoding(q)
          else q in u.sched.running && OnTheWay(q, word, s.sched.config) && !Finished(q))
      && (q in u.gone || q in u.sched.running)
  {
    hide Inv, Enabled, Next, Grown, Sampling, CursorExact, Decoding, Expired, Finished;
    CursorOf(s, r);
    WordLonger(r, word, s.sched.config);
    var token := word[|r.generatedTokens|];
    e := CommitOn(s, r, token);
    NextKeepsInv(s, e);
    if r.id in s.phase.plan.toPrefill {
      q := Grown(r, token, s.sched.config);
      NextToken(r, word, s.sched.config);
      if |q.generatedTokens| != |word| {
        FlagBack(q, word, s.sched.config);
      }
    } else {
      q := r;
    }
    NotBoth(Next(s, e), q);
  }

  lemma FlagBack(q: Request, word: seq<Token>, config: Config)
    requires Sampling(q.(isPrefill := true), word, config)
    ensures Sampling(q, word, config)
  {
    hide EarliestEnd, Finished, ChunksSuffice;
    SameLimits(q, q.(isPrefill := true));
    SameLimits(q.(generatedTokens := word), q.(isPrefill := true, generatedTokens := word));
  }

  /** Nobody is running and gone. */
  lemma NotBoth(s: System, q: Request)
    requires Inv(s)
    ensures q in s.sched.running ==> q !in s.gone
  {
    hide Inv, Ids;
    DistinctEverywhere(s);
    if q in s.sched.running {
      IdOfMember(s.sched.running, q);
      assert q in s.gone ==> q.id in Ids(s.gone) by {
        if q in s.gone {
          IdOfMember(s.gone, q);
        }
      }
    }
  }

  // ---------------------------------------------------------------- runs

  lemma ArrivalFreeCons(e: Event, es: seq<Event>)
    requires !e.Arrive? && NoArrivals(es)
    ensures NoArrivals([e] + es)
  {
  }

  lemma SameChain(q: Request, r: Request, p: Request)
    requires SameRequest(q, r) && SameRequest(r, p)
    ensures SameRequest(q, p)
  {
  }

  lemma PlanStepDown(s: System, e: Event)
    requires Inv(s) && Enabled(s, e) && e.PlanBatch?
    ensures Measure(Next(s, e)) <= Measure(s) && Inv(Next(s, e))
  {
    hide Inv, Enabled, Next, Measure;
    NextKeepsInv(s, e);
    PlanRoom(s, e.now, e.ev);
  }

  lemma CommitStepDown(s: System, e: Event)
    requires Inv(s) && Enabled(s, e) && e.CommitBatch?
    ensures Measure(Next(s, e)) < Measure(s) && Inv(Next(s, e))
  {
    hide Inv, Enabled, Next, Measure;
    NextKeepsInv(s, e);
    CommitRoom(s, e.tokens, e.pss);
  }

  /**
   * Without arrivals, whatever else runs or waits, the request comes through `word` and leaves with part of its prompt
   * open.
   */
  lemma {:induction false} LeavesAmong(s: System, r: Request, word: seq<Token>) returns (es: seq<Event>, q: Request)
    requires Inv(s) && r in s.sched.running && OnTheWay(r, word, s.sched.config)
    requires Finished(r) ==> s.phase.Computing? && r.id in s.phase.plan.toPrefill
    ensures Legal(s, es) && NoArrivals(es) && q in After(s, es).gone
    ensures SameRequest(q, r) && q.generatedTokens == word && !Decoding(q)
    decreases Measure(s), if s.phase.Computing? then 0 else 1
  {
    hide Inv, Enabled, Next, OnTheWay, Measure, Finished, SameRequest, Legal, After, Decoding;
    RoomInState(s);
    var e;
    if s.phase.Computing? {
      e, q := CommitOnTheWay(s, r, word);
      CommitStepDown(s, e);
      var u := Next(s, e);
      var rest: seq<Event> := [];
      if q in u.gone {
        StopHere(u);
      } else {
        var p := q;
        rest, q := LeavesAmong(u, p, word);
        SameChain(q, p, r);
      }
      ServingRuns.RunCons(s, e, rest);
      ArrivalFreeCons(e, rest);
      es := [e] + rest;
    } else {
      var p;
      NotExpired(r, word, s.sched.config);
      e, p := PlanOn(s, r);
      FlagOnTheWay(p, r, word, s.sched.config);
      PlanStepDown(s, e);
      var rest;
      rest, q := LeavesAmong(Next(s, e), p, word);
      SameChain(q, p, r);
      ServingRuns.RunCons(s, e, rest);
      ArrivalFreeCons(e, rest);
      es := [e] + rest;
    }
  }

  lemma NotExpired(r: Request, word: seq<Token>, config: Config)
    requires OnTheWay(r, word, config)
    ensures !Expired(r, 0)
  {
  }

  /** A request just admitted, in the batch under way. */
  ghost predicate JustAdmitted(s: System, r: Request) {
    && s.phase.Computing? && r in s.sched.running && r.generatedTokens == []
    && r.id in s.phase.plan.toPrefill && !Decoding(r) && !Expired(r, 0)
  }

  lemma AdmittedSampling(s: System, r: Request) returns (word: seq<Token>)
    requires Inv(s) && JustAdmitted(s, r)
    requires r.cachedPrefixLen + EarliestEnd(r) * s.sched.config.maxPrefillChunkSize < |r.promptTokens|
    ensures OnTheWay(r, word, s.sched.config)
    ensures forall q | SameRequest(q, r) && q.generatedTokens == word :: Finished(q) && q.generatedTokens != []
  {
    hide Inv, EarliestEnd, Finished, Decoding, Expired;
    word := ShortestWord(r);
    assert r.generatedTokens == word[..0];
    forall q | SameRequest(q, r) && q.generatedTokens == word
      ensures Finished(q)
    {
      SameLimits(q, r.(generatedTokens := word));
    }
  }

  /**
   * A request admitted among any others, with `c` cached tokens, can finish before its prompt has been processed if and
   * only if the chunks of the fewest batches it can have fall short of the prompt.
   */
  lemma FinishesEarlyAmongIff(s: System, r: Request)
    requires Inv(s) && JustAdmitted(s, r)
    ensures (exists es, q :: LeavesUnprocessed(s, r, r.cachedPrefixLen, es, q)) <==>
      r.cachedPrefixLen + EarliestEnd(r) * s.sched.config.maxPrefillChunkSize < |r.promptTokens|
  {
    hide Inv, EarliestEnd, Finished, Legal, After;
    assert r.(cachedPrefixLen := r.cachedPrefixLen) == r;
    if r.cachedPrefixLen + EarliestEnd(r) * s.sched.config.maxPrefillChunkSize < |r.promptTokens| {
      var word := AdmittedSampling(s, r);
      var es, q := LeavesAmong(s, r, word);
      assert LeavesUnprocessed(s, r, r.cachedPrefixLen, es, q);
    } else {
      forall es, q
        ensures !LeavesUnprocessed(s, r, r.cachedPrefixLen, es, q)
      {
        if LeavesUnprocessed(s, r, r.cachedPrefixLen, es, q) {
          Processed(s, r, r.cachedPrefixLen, es, q);
        }
      }
    }
  }
}
