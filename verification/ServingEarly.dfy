/**
 * A request alone in the engine: for some sampled tokens it finishes as early as its limits allow, prefilled or not.
 */
module ServingEarly {
  import opened Types
  import opened RadixTrie
  import opened BlockAccounting
  import opened BlockSafety
  import opened SchedulerModel
  import opened SchedulerPlan
  import opened SchedulerCommit
  import opened ServingSystem
  import opened ServingSteps
  import opened ServingRuns
  import opened ServingPrefill

  /** `r` is the only request, a chunk of its prompt is being computed, and time 0 does not expire it. */
  ghost predicate Alone(s: System, r: Request) {
    s.phase.Computing? && s.sched.running == [r] && s.sched.waiting == [] && !Decoding(r) && !Expired(r, 0)
  }

  lemma OneQueue(r: Request, config: Config)
    requires !Decoding(r)
    ensures DecodingIds([r]) == [] && PrefillingIds([r]) == [r.id] && Ids([r]) == [r.id]
  {
    QueueAppend([], r, config);
    assert [] + [r] == [r] && [] + [r.id] == [r.id];
  }

  lemma AloneBatch(s: System, r: Request)
    requires Inv(s) && Alone(s, r)
    ensures s.phase.plan.toPrefill == [r.id] && s.phase.plan.toDecode == []
    ensures |Items(s)| == 1 && Items(s)[0].reqId == r.id
  {
    hide MemOk, RunningOk, FedExact, GoneOk, Unstarted, AllIds, Batch, IsChunkOf, IsDecodeOf, DecodingIds,
         PrefillingIds, PrefillChunks, Sum, Decoding;
    DistinctEverywhere(s);
    OneQueue(r, s.sched.config);
    var p := s.phase.plan;
    BatchExact(p, s.sched.config);
    assert p.toPrefill == [r.id][..|p.toPrefill|];
    assert ItemIds(Items(s)) == [r.id];
    assert |ItemIds(Items(s))| == 1 && ItemIds(Items(s))[0] == r.id;
  }

  /** The request after the commit. */
  function Grown(r: Request, token: Token, config: Config): Request {
    Advanced(r.(generatedTokens := r.generatedTokens + [token]), config)
  }

  lemma FirstOf(r: Request)
    ensures IndexOf([r], r.id) == Some(0)
  {
  }

  lemma PushedOne(r: Request, token: Token, config: Config)
    ensures Computed([r], [r.id], [ComputeResult(r.id, token)], config) == [Grown(r, token, config)]
  {
    var results, ids := [ComputeResult(r.id, token)], [r.id];
    var pushed := r.(generatedTokens := r.generatedTokens + [token]);
    FirstOf(r);
    FirstOf(pushed);
    hide IndexOf, Advanced;
    assert results[..0] == [] && ids[..0] == [];
    assert PushTokens([r], results) == [r][0 := pushed] == [pushed];
    assert AdvanceCursors([pushed], ids, config) == [pushed][0 := Advanced(pushed, config)]
      == [Grown(r, token, config)];
  }

  lemma AloneComputed(s: System, r: Request, token: Token)
    requires Inv(s) && Alone(s, r)
    ensures |Items(s)| == 1
    ensures Computed([r], s.phase.plan.toPrefill, Results(Items(s), [token]), s.sched.config)
      == [Grown(r, token, s.sched.config)]
  {
    hide Inv, Items, Computed, Grown;
    AloneBatch(s, r);
    assert Results(Items(s), [token]) == [ComputeResult(r.id, token)];
    PushedOne(r, token, s.sched.config);
  }

  lemma FreePermitted(m: Mem, id: RequestId) returns (ps: seq<Path>)
    requires Sound(m)
    ensures PermittedFree(m, id, ps)
  {
    hide WellFormed, EvictRun, Inserted, TreeBlocks;
    ps := [];
    if id in m.table && id in m.prompts && Overflows(m, id) {
      DepositedFacts(m, id);
      ps := EvictRunExists(Deposited(m, id), m.capacity);
    }
  }

  lemma FinishedOne(q: Request)
    ensures FinishedRequests([q]) == (if Finished(q) then [q] else [])
      && Unfinished([q]) == if Finished(q) then [] else [q]
    ensures Ids(if Finished(q) then [q] else []) == if Finished(q) then [q.id] else []
  {
    hide Finished;
    assert [q][..0] == [];
  }

  lemma FinishPermitted(l: Live, id: RequestId, ps: seq<Path>)
    requires Sound(l.mem) && PermittedFree(l.mem, id, ps)
    ensures PermittedFinishes(l, [], []) && (IndexOf(l.running, id).Some? ==> PermittedFinishes(l, [id], [ps]))
  {
    hide Sound, PermittedFree, IndexOf;
    var ids, pss := [id], [ps];
    assert ids[..0] == [] && pss[..0] == [];
  }

  /** A commit while the request is alone: it grows by the token and leaves when finished. */
  lemma CommitAlone(s: System, r: Request, token: Token) returns (pss: seq<seq<Path>>)
    requires Inv(s) && Alone(s, r)
    ensures Sound(s.sched.mem) && Enabled(s, CommitBatch([token], pss))
    ensures var u, q := Next(s, CommitBatch([token], pss)), Grown(r, token, s.sched.config);
      && u.phase == Phase.Idle && u.sched.waiting == [] && u.sched.config == s.sched.config
      && (if Finished(q) then u.gone == s.gone + [q] else u.gone == s.gone && u.sched.running == [q])
  {
    hide Inv, Grown, Finished, Computed, Items, Results, IndexOf, FinishEach, FinishedRequests, Unfinished,
         PermittedFree, Feed, Sound, Ids;
    ConfigOk(s);
    var q := Grown(r, token, s.sched.config);
    AloneComputed(s, r, token);
    FinishedOne(q);
    var ps := FreePermitted(s.sched.mem, q.id);
    FinishPermitted(Live([q], s.sched.mem), q.id, ps);
    FirstOf(q);
    pss := if Finished(q) then [ps] else [];
    assert Enabled(s, CommitBatch([token], pss));
    CommitPermitted(s, [token], pss);
  }

  lemma QueueOfOne(r: Request, now: nat)
    requires !Expired(r, now)
    ensures Unexpired([r], now) == [r] && ExpiredIds([r], now) == [] && ExpiredRequests([r], now) == []
    ensures Unexpired([], now) == [] && ExpiredIds([], now) == [] && ExpiredRequests([], now) == []
  {
    hide Expired;
    assert [r][..0] == [];
  }

  lemma PassesOfOne(m: Mem, r: Request, config: Config)
    requires !Decoding(r) && config.maxTokensPerIter >= 1
    ensures var start := Plan([], [r], m, [], [], 0);
      var decoded := DecodePass(start, start.running);
      && decoded == start
      && PrefillPass(decoded, decoded.running, config)
        == Plan([], [r.(isPrefill := true)], m, [r.id], [], ChunkSize(r, config))
  {
    hide Decoding, ChunkSize;
    assert [r][..0] == [];
    assert [] + [r] == [r] && [] + [r.(isPrefill := true)] == [r.(isPrefill := true)] && [] + [r.id] == [r.id];
  }

  lemma PassesOfNone(m: Mem, waiting: seq<Request>, config: Config)
    ensures var start := Plan(waiting, [], m, [], [], 0);
      DecodePass(start, []) == start && PrefillPass(start, [], config) == start
  {
  }

  ghost function NoEvictions(): Evictions {
    Evictions([], [], [])
  }

  /** Planning while the request is alone: its next chunk. */
  lemma PlanAlone(s: System, r: Request)
    requires Inv(s) && s.phase == Phase.Idle && s.sched.running == [r] && s.sched.waiting == [] && !Decoding(r)
      && !Expired(r, 0)
    ensures Sound(s.sched.mem) && Enabled(s, PlanBatch(0, NoEvictions()))
    ensures var u := Next(s, PlanBatch(0, NoEvictions()));
      Alone(u, r.(isPrefill := true)) && u.gone == s.gone && u.sched.config == s.sched.config
  {
    hide Inv, Sound, Decoding, Expired, Unexpired, ExpiredIds, ExpiredRequests, DecodePass, PrefillPass, ChunkSize;
    ConfigOk(s);
    QueueOfOne(r, 0);
    PassesOfOne(s.sched.mem, r, s.sched.config);
    SameProgress(r, true);
    var pl := PlanRunning(s.sched, 0, []);
    assert pl == Plan([], [r.(isPrefill := true)], s.sched.mem, [r.id], [], ChunkSize(r, s.sched.config));
    assert Schedule(s.sched, 0, NoEvictions()) == pl;
  }

  lemma SameProgress(r: Request, flag: bool)
    ensures Decoding(r.(isPrefill := flag)) == Decoding(r) && Expired(r.(isPrefill := flag), 0) == Expired(r, 0)
  {
  }

  lemma OneAdmission(pl: Plan, config: Config, ps: seq<Path>)
    requires Sound(pl.mem) && PermittedTry(pl, config, ps) && Try(pl, config, ps).result.Some? && |pl.waiting| == 1
    ensures PermittedAdmissions(pl, config, [ps]) && Admissions(pl, config, [ps]) == Admit(pl, config, ps)
    ensures PermittedEnd(Admissions(pl, config, [ps]), config, [])
      && End(Admissions(pl, config, [ps]), config, []) == Admit(pl, config, ps)
  {
    hide Sound, AllocateWithPrefix, PermittedAllocate;
    var pss: seq<seq<Path>> := [ps];
    assert pss[..0] == [];
    assert PermittedAdmissions(pl, config, []) && Admissions(pl, config, []) == pl;
    assert Admissions(pl, config, pss).waiting == [];
  }

  /** Planning while the request waits alone: it is admitted with what the cache has of its prompt. */
  lemma AdmitAlone(s: System, r: Request, ps: seq<Path>, c: nat)
    requires Inv(s) && s.phase == Phase.Idle && s.sched.running == [] && s.sched.waiting == [r] && !Expired(r, 0)
    requires Sound(s.sched.mem) && PermittedAllocate(s.sched.mem, r.promptTokens, ps)
    requires var a := AllocateWithPrefix(s.sched.mem, r.id, r.promptTokens, ps);
      a.result.Some? && a.result.value.1 == c < |r.promptTokens|
    ensures Enabled(s, PlanBatch(0, Evictions([], [ps], [])))
    ensures var u := Next(s, PlanBatch(0, Evictions([], [ps], [])));
      Alone(u, Started(r, c)) && u.gone == s.gone && u.sched.config == s.sched.config
  {
    hide Inv, Sound, Expired, Unexpired, ExpiredIds, ExpiredRequests, DecodePass, PrefillPass, ChunkSize,
         AllocateWithPrefix, PermittedAllocate, Admissions, PermittedAdmissions, End, PermittedEnd;
    ConfigOk(s);
    QueueOfOne(r, 0);
    PassesOfNone(s.sched.mem, [r], s.sched.config);
    var pl := PlanRunning(s.sched, 0, []);
    assert pl == Plan([r], [], s.sched.mem, [], [], 0);
    OneAdmission(pl, s.sched.config, ps);
    StartedDeadline(r, c);
    var u := Admit(pl, s.sched.config, ps);
    assert u.waiting == [] && u.running == [Started(r, c)] && u.toPrefill == [r.id];
    assert Schedule(s.sched, 0, Evictions([], [ps], [])) == u;
  }

  /** The evictions of a call that admits one request without evicting. */
  ghost function Admitting(): Evictions {
    Evictions([], [[]], [])
  }

  /** Admitting the only request, in terms of what the allocation yields. */
  lemma AdmissionIs(m: Mem, r: Request, u: Mem, blocks: seq<BlockId>, c: nat, config: Config)
    requires Sound(m) && PermittedAllocate(m, r.promptTokens, []) && !Expired(r, 0) && config.maxTokensPerIter >= 1
    requires AllocateWithPrefix(m, r.id, r.promptTokens, []) == Allocation(u, Some((blocks, c)))
    ensures PermittedSchedule(State([r], [], m, config), 0, Admitting())
    ensures var q := Started(r, c);
      Schedule(State([r], [], m, config), 0, Admitting()) ==
        if Decoding(q) then Plan([], [q], u, [], [r.id], 1) else Plan([], [q], u, [r.id], [], ChunkSize(q, config))
  {
    hide Sound, Expired, Unexpired, ExpiredIds, ExpiredRequests, DecodePass, PrefillPass, ChunkSize, AllocateWithPrefix,
         PermittedAllocate, Admissions, PermittedAdmissions, End, PermittedEnd, Decoding;
    QueueOfOne(r, 0);
    PassesOfNone(m, [r], config);
    var s := State([r], [], m, config);
    var pl := PlanRunning(s, 0, []);
    assert pl == Plan([r], [], m, [], [], 0);
    OneAdmission(pl, config, []);
    var q := Started(r, c);
    assert [] + [q] == [q] && [] + [r.id] == [r.id];
    assert Schedule(s, 0, Admitting()) == Admit(pl, config, []);
  }

  /** Planning for a request that waits alone, in terms of the plan. */
  lemma PlanIs(s: System, r: Request, pl: Plan)
    requires s.phase == Phase.Idle && s.sched.running == [] && s.sched.waiting == [r] && !Expired(r, 0)
    requires Sound(s.sched.mem) && PermittedSchedule(s.sched, 0, Admitting()) && Schedule(s.sched, 0, Admitting()) == pl
    requires pl.toPrefill != [] || pl.toDecode != []
    ensures Enabled(s, PlanBatch(0, Admitting()))
    ensures Next(s, PlanBatch(0, Admitting())) ==
      s.(sched := s.sched.(waiting := pl.waiting, running := pl.running, mem := pl.mem), phase := Computing(pl))
  {
    QueueOfOne(r, 0);
    hide Sound, Schedule, PermittedSchedule, ExpiredRequests, Expired;
    assert s.gone + [] + [] == s.gone;
  }

  lemma StartedDeadline(r: Request, c: nat)
    ensures Expired(Started(r, c), 0) == Expired(r, 0)
  {
  }

  // ---------------------------------------------------------------- the shortest run

  /** What does not change about a request while it runs. */
  ghost predicate SameRequest(q: Request, r: Request) {
    && q.id == r.id && q.promptTokens == r.promptTokens && q.cachedPrefixLen == r.cachedPrefixLen
    && q.maxTokens == r.maxTokens && q.stopTokenIds == r.stopTokenIds && q.deadline == r.deadline
  }

  lemma SameLimits(q: Request, r: Request)
    requires SameRequest(q, r)
    ensures EarliestEnd(q) == EarliestEnd(r) && Limit(q) == Limit(r) && Expired(q, 0) == Expired(r, 0)
    ensures q.generatedTokens == r.generatedTokens ==> Finished(q) == Finished(r)
    ensures forall n: nat, config :: ChunksSuffice(q, n, config) <==> ChunksSuffice(r, n, config)
  {
  }

  /** One more token and one more chunk, with some prompt still to go. */
  lemma GrownCursor(r: Request, token: Token, n: nat, config: Config)
    requires CursorExact(r, config) && !Decoding(r) && |r.generatedTokens| < n && !ChunksSuffice(r, n, config)
    ensures var q := Grown(r, token, config);
      SameRequest(q, r) && q.generatedTokens == r.generatedTokens + [token] && !Decoding(q)
  {
    var k, c := |r.generatedTokens|, config.maxPrefillChunkSize;
    assert (k + 1) * c == k * c + c;
    if ChunksSuffice(r, k + 1, config) {
      MoreChunks(r, k + 1, n, config);
    }
  }

  lemma AloneCursor(s: System, r: Request)
    requires Inv(s) && Alone(s, r)
    ensures CursorExact(r, s.sched.config) && !Decoding(r) && !Expired(r, 0)
  {
    assert r in s.sched.running;
    assert RunningOk(r, s.sched.config);
  }

  /**
   * The request has sampled a proper part of `word`, which is as short as its output can be and too short for its
   * prompt.
   */
  ghost predicate Sampling(r: Request, word: seq<Token>, config: Config) {
    && |r.generatedTokens| < |word| && r.generatedTokens == word[..|r.generatedTokens|]
    && |word| == EarliestEnd(r) && Finished(r.(generatedTokens := word)) && !ChunksSuffice(r, |word|, config)
  }

  /** The request with one more token of `word`. */
  lemma NextToken(r: Request, word: seq<Token>, config: Config)
    requires CursorExact(r, config) && !Decoding(r) && !Expired(r, 0) && Sampling(r, word, config)
    ensures var q := Grown(r, word[|r.generatedTokens|], config);
      && SameRequest(q, r) && !Decoding(q) && !Expired(q, 0)
      && (if |q.generatedTokens| == |word| then q.generatedTokens == word && Finished(q)
          else !Finished(q) && Sampling(q.(isPrefill := true), word, config))
  {
    hide Finished, EarliestEnd, ChunksSuffice, CursorExact, Grown, Decoding, Expired;
    var k := |r.generatedTokens|;
    var q := Grown(r, word[k], config);
    GrownCursor(r, word[k], |word|, config);
    assert word[..k + 1] == word[..k] + [word[k]];
    SameLimits(q, r);
    SameLimits(q.(isPrefill := true), r);
    SameLimits(q.(isPrefill := true, generatedTokens := word), r.(generatedTokens := word));
    if k + 1 == |word| {
      assert q.generatedTokens == word;
      SameLimits(q, r.(generatedTokens := word));
    } else if Finished(q) {
      FinishedLength(q);
    }
  }

  /** Commits the next token of `word`. */
  lemma CommitToken(s: System, r: Request, word: seq<Token>) returns (e: Event)
    requires Inv(s) && Alone(s, r) && Sampling(r, word, s.sched.config)
    ensures Enabled(s, e) && Inv(Next(s, e))
    ensures var u, q := Next(s, e), Grown(r, word[|r.generatedTokens|], s.sched.config);
      && u.phase == Phase.Idle && u.sched.waiting == [] && u.sched.config == s.sched.config
      && SameRequest(q, r) && !Decoding(q) && !Expired(q, 0)
      && (if |q.generatedTokens| == |word| then q.generatedTokens == word && u.gone == s.gone + [q]
          else u.gone == s.gone && u.sched.running == [q] && Sampling(q.(isPrefill := true), word, s.sched.config))
  {
    hide Inv, Enabled, Next, Grown, Alone, Sampling, CursorExact, Decoding, Expired, Finished, SameRequest;
    AloneCursor(s, r);
    WordLonger(r, word, s.sched.config);
    var token := word[|r.generatedTokens|];
    var pss := CommitAlone(s, r, token);
    e := CommitBatch([token], pss);
    NextToken(r, word, s.sched.config);
    NextKeepsInv(s, e);
  }

  lemma WordLonger(r: Request, word: seq<Token>, config: Config)
    requires Sampling(r, word, config)
    ensures |r.generatedTokens| < |word|
  {
  }

  lemma PlanNext(s: System, r: Request)
    requires Inv(s) && s.phase == Phase.Idle && s.sched.running == [r] && s.sched.waiting == [] && !Decoding(r)
      && !Expired(r, 0)
    ensures Enabled(s, PlanBatch(0, NoEvictions()))
    ensures var u := Next(s, PlanBatch(0, NoEvictions()));
      Inv(u) && Alone(u, r.(isPrefill := true)) && u.gone == s.gone && u.sched.config == s.sched.config
  {
    hide Inv, Enabled, Next, Alone, Decoding, Expired;
    PlanAlone(s, r);
    NextKeepsInv(s, PlanBatch(0, NoEvictions()));
  }

  /** Sampling the tokens of `word` one by one makes the request leave with exactly them. */
  lemma {:induction false} LeavesWith(s: System, r: Request, word: seq<Token>) returns (es: seq<Event>, q: Request)
    requires Inv(s) && Alone(s, r) && Sampling(r, word, s.sched.config)
    ensures Legal(s, es) && After(s, es).gone == s.gone + [q]
    ensures SameRequest(q, r) && q.generatedTokens == word && q.prefillCursor < |q.promptTokens|
    decreases |word| - |r.generatedTokens|
  {
    var e := CommitToken(s, r, word);
    var u, grown := Next(s, e), Grown(r, word[|r.generatedTokens|], s.sched.config);
    assert Legal(u, []) && After(u, []) == u;
    assert |grown.generatedTokens| == |r.generatedTokens| + 1;
    hide Inv, Enabled, Next, Grown, Alone, Sampling, Legal, After;
    if |grown.generatedTokens| == |word| {
      ServingRuns.RunCons(s, e, []);
      es, q := [e] + [], grown;
    } else {
      PlanNext(u, grown);
      var plan := PlanBatch(0, NoEvictions());
      var rest;
      rest, q := LeavesWith(Next(u, plan), grown.(isPrefill := true), word);
      ServingRuns.RunCons(u, plan, rest);
      ServingRuns.RunCons(s, e, [plan] + rest);
      es := [e] + ([plan] + rest);
    }
  }

  /** The shortest stop sequence, or any tokens up to the limit. */
  lemma ShortestWord(r: Request) returns (word: seq<Token>)
    ensures |word| == EarliestEnd(r) && Finished(r.(generatedTokens := word))
  {
    word := seq(EarliestEnd(r), _ => 0);
    if EarliestEnd(r) < Limit(r) {
      var k :| 0 <= k < |r.stopTokenIds| && MinLength(r.stopTokenIds) == |r.stopTokenIds[k]|;
      if r.stopTokenIds[k] != [] {
        word := r.stopTokenIds[k];
      }
      assert EndsWith(word, r.stopTokenIds[k]);
    }
  }

  lemma SamplingStarts(r: Request, c: nat, config: Config) returns (word: seq<Token>)
    requires Unstarted(r) && c + EarliestEnd(r) * config.maxPrefillChunkSize < |r.promptTokens|
    ensures Sampling(Started(r, c), word, config)
    ensures forall q | SameRequest(q, Started(r, c)) && q.generatedTokens == word ::
      Finished(q) && SameRequest(q, r.(cachedPrefixLen := c))
  {
    hide EarliestEnd, Finished;
    word := ShortestWord(r);
    var started := Started(r, c);
    LimitsWithoutHit(r, c);
    SameLimits(started, r.(cachedPrefixLen := c));
    SameLimits(started.(generatedTokens := word), r.(cachedPrefixLen := c, generatedTokens := word));
    forall q | SameRequest(q, started) && q.generatedTokens == word
      ensures Finished(q)
    {
      SameLimits(q, started.(generatedTokens := word));
    }
  }

  /**
   * The guarantee is tight: when the chunks of a request do not fit into the fewest batches it can have, and it waits
   * alone and gets its blocks, then for some sampled tokens it finishes with part of its prompt unprocessed.
   */
  lemma FinishesEarly(s: System, r: Request, ps: seq<Path>, c: nat) returns (es: seq<Event>, q: Request)
    requires Inv(s) && s.phase == Phase.Idle && s.sched.running == [] && s.sched.waiting == [r] && !Expired(r, 0)
    requires Sound(s.sched.mem) && PermittedAllocate(s.sched.mem, r.promptTokens, ps)
    requires var a := AllocateWithPrefix(s.sched.mem, r.id, r.promptTokens, ps);
      a.result.Some? && a.result.value.1 == c
    requires c + EarliestEnd(r) * s.sched.config.maxPrefillChunkSize < |r.promptTokens|
    ensures Legal(s, es) && q in After(s, es).gone
    ensures SameRequest(q, r.(cachedPrefixLen := c)) && Finished(q) && q.generatedTokens != []
      && q.prefillCursor < |q.promptTokens|
  {
    hide Sound, AllocateWithPrefix, PermittedAllocate, EarliestEnd, Finished, Inv, Enabled, Next, Alone, Sampling,
         SameRequest, Legal, After;
    UnstartedWaits(s, r);
    AdmitAlone(s, r, ps, c);
    var word := SamplingStarts(r, c, s.sched.config);
    WordLonger(Started(r, c), word, s.sched.config);
    var e := PlanBatch(0, Evictions([], [ps], []));
    NextKeepsInv(s, e);
    var rest;
    rest, q := LeavesWith(Next(s, e), Started(r, c), word);
    ServingRuns.RunCons(s, e, rest);
    es := [e] + rest;
  }

  lemma UnstartedWaits(s: System, r: Request)
    requires Inv(s) && s.sched.waiting == [r]
    ensures Unstarted(r)
  {
    assert r in s.sched.waiting;
  }

  lemma LimitsWithoutHit(r: Request, c: nat)
    ensures EarliestEnd(r.(cachedPrefixLen := c)) == EarliestEnd(r)
    ensures forall w :: Finished(r.(cachedPrefixLen := c, generatedTokens := w)) == Finished(r.(generatedTokens := w))
  {
  }

  lemma {:induction false} ConfigKept(s: System, es: seq<Event>)
    requires Inv(s) && Legal(s, es)
    ensures After(s, es).sched.config == s.sched.config
    decreases |es|
  {
    hide Inv, Enabled;
    if es != [] {
      ConfigOk(s);
      NextKeepsInv(s, es[0]);
      NextConfig(s, es[0]);
      ConfigKept(Next(s, es[0]), es[1..]);
    }
  }

  lemma NextConfig(s: System, e: Event)
    requires Sound(s.sched.mem) && Enabled(s, e)
    ensures Next(s, e).sched.config == s.sched.config
  {
    hide Sound, Enabled, PermittedSchedule, Schedule, FinishEach, Computed;
  }

  /** The run ends with request `r`, admitted with `c` cached tokens, finished and part of its prompt unprocessed. */
  ghost predicate LeavesUnprocessed(s: System, r: Request, c: nat, es: seq<Event>, q: Request)
    requires Inv(s)
  {
    && Legal(s, es) && q in After(s, es).gone
    && SameRequest(q, r.(cachedPrefixLen := c)) && Finished(q) && q.generatedTokens != []
      && q.prefillCursor < |q.promptTokens|
  }

  /**
   * A request waiting alone, whose allocation finds `c` cached tokens, can finish before its prompt has been processed
   * if and only if the chunks of the fewest batches it can have fall short of the prompt.
   */
  lemma FinishesEarlyIff(s: System, r: Request, ps: seq<Path>, c: nat)
    requires Inv(s) && s.phase == Phase.Idle && s.sched.running == [] && s.sched.waiting == [r] && !Expired(r, 0)
    requires Sound(s.sched.mem) && PermittedAllocate(s.sched.mem, r.promptTokens, ps)
    requires var a := AllocateWithPrefix(s.sched.mem, r.id, r.promptTokens, ps);
      a.result.Some? && a.result.value.1 == c
    ensures (exists es, q :: LeavesUnprocessed(s, r, c, es, q)) <==>
      c + EarliestEnd(r) * s.sched.config.maxPrefillChunkSize < |r.promptTokens|
  {
    hide Sound, AllocateWithPrefix, PermittedAllocate, EarliestEnd, Finished, Inv, Legal, After, Expired;
    if c + EarliestEnd(r) * s.sched.config.maxPrefillChunkSize < |r.promptTokens| {
      var es, q := FinishesEarly(s, r, ps, c);
      assert LeavesUnprocessed(s, r, c, es, q);
    } else {
      forall es, q
        ensures !LeavesUnprocessed(s, r, c, es, q)
      {
        if LeavesUnprocessed(s, r, c, es, q) {
          Processed(s, r, c, es, q);
        }
      }
    }
  }

  lemma Processed(s: System, r: Request, c: nat, es: seq<Event>, q: Request)
    requires Inv(s) && LeavesUnprocessed(s, r, c, es, q)
    ensures c + EarliestEnd(r) * s.sched.config.maxPrefillChunkSize < |r.promptTokens|
  {
    hide EarliestEnd, Finished, Inv, Legal, After;
    ConfigKept(s, es);
    SameLimits(q, r.(cachedPrefixLen := c));
    LimitsWithoutHit(r, c);
    if ChunksSuffice(q, EarliestEnd(q), s.sched.config) {
      PrefillGuaranteed(s, es, q);
    }
  }
}
