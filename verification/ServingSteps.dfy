/** Every step of the serving loop keeps the invariant. */
module ServingSteps {
  import opened Types
  import opened RadixTrie
  import opened BlockAccounting
  import opened BlockSafety
  import opened BlockCoverage
  import opened SchedulerModel
  import opened SchedulerPlan
  import opened SchedulerCommit
  import opened ServingSystem
  import opened ServingMemory

  // ---------------------------------------------------------------- planning: block manager

  lemma NoDupParts(a: seq<RequestId>, b: seq<RequestId>)
    requires NoDup(a + b)
    ensures NoDup(a) && NoDup(b) && forall x | x in b :: x !in a
  {
    assert forall i | 0 <= i < |a| :: (a + b)[i] == a[i];
    assert forall i | 0 <= i < |b| :: (a + b)[|a| + i] == b[i];
  }

  lemma {:induction false} AdmissionsMem(pl: Plan, config: Config, pss: seq<seq<Path>>)
    requires MemOk(pl.mem, pl.running) && PermittedAdmissions(pl, config, pss)
    requires Exact(pl, config) && config.maxPrefillChunkSize >= 1
    requires NoDup(Ids(pl.running) + Ids(pl.waiting))
    ensures MemOk(Admissions(pl, config, pss).mem, Admissions(pl, config, pss).running)
    ensures var u := Admissions(pl, config, pss); Ids(u.running) + Ids(u.waiting) == Ids(pl.running) + Ids(pl.waiting)
  {
    hide Sound, Covers, Tracks, Exact, NoDup, PermittedAllocate, AllocateWithPrefix, Ids, Admit;
    AdmissionsFacts(pl, config, pss);
    var u := Admissions(pl, config, pss);
    MovedIds(pl.running, pl.waiting, u.running, |pss|);
    if pss != [] {
      var init, ps := pss[..|pss| - 1], pss[|pss| - 1];
      AdmissionsMem(pl, config, init);
      var v := Admissions(pl, config, init);
      NoDupParts(Ids(v.running), Ids(v.waiting));
      assert Ids(v.waiting)[0] == v.waiting[0].id;
      AdmitTracks(v, config, ps);
    }
  }

  lemma FlagsKeepTracks(m: Mem, a: seq<Request>, b: seq<Request>)
    requires SameButFlags(a, b) && MemOk(m, b)
    ensures MemOk(m, a)
  {
    FlagsDoNotCount(a, b, Config(1, 1));
    forall r | r in a
      ensures r.id in m.prompts && m.prompts[r.id] == r.promptTokens
    {
      var i :| 0 <= i < |a| && a[i] == r;
      assert b[i] in b;
    }
  }

  lemma EndMem(pl: Plan, config: Config, ps: seq<Path>)
    requires MemOk(pl.mem, pl.running) && PermittedEnd(pl, config, ps)
    ensures MemOk(End(pl, config, ps).mem, pl.running)
  {
    hide Sound, Covers, PermittedAllocate, AllocateWithPrefix;
    if Tries(pl, config) {
      AllocateWithPrefixSound(pl.mem, pl.waiting[0].id, pl.waiting[0].promptTokens, ps);
      AllocationCovers(pl.mem, pl.waiting[0].id, pl.waiting[0].promptTokens, ps);
    }
  }

  lemma ExpiredDistinct(s: State, now: nat)
    requires NoDup(Ids(s.running) + Ids(s.waiting))
    ensures NoDup(Ids(Unexpired(s.running, now)) + Ids(Unexpired(s.waiting, now)))
    ensures NoDup(Ids(s.running))
  {
    ExpirySplit(s.running, now);
    ExpirySplit(s.waiting, now);
    NoDupParts(Ids(s.running), Ids(s.waiting));
    NoDupCounts(Ids(s.running) + Ids(s.waiting));
    var left := Ids(Unexpired(s.running, now)) + Ids(Unexpired(s.waiting, now));
    forall x
      ensures multiset(left)[x] <= 1
    {
      assert multiset(Ids(s.running) + Ids(s.waiting))[x] == multiset(Ids(s.running))[x] + multiset(Ids(s.waiting))[x];
      assert multiset(left)[x]
        == multiset(Ids(Unexpired(s.running, now)))[x] + multiset(Ids(Unexpired(s.waiting, now)))[x];
    }
    CountsNoDup(left);
  }

  lemma ScheduleMem(s: State, now: nat, ev: Evictions)
    requires MemOk(s.mem, s.running) && PermittedSchedule(s, now, ev) && s.config.maxPrefillChunkSize >= 1
    requires NoDup(Ids(s.running) + Ids(s.waiting))
    ensures MemOk(Schedule(s, now, ev).mem, Schedule(s, now, ev).running)
  {
    hide Sound, Covers, Tracks, Exact, NoDup, PermittedFrees, PermittedAdmissions, PermittedTry, FreeAll, Ids,
         PlanRunning, Admissions, AllocateWithPrefix, Unexpired, ExpiredIds, SameButFlags;
    ExpiredDistinct(s, now);
    ExpirySplit(s.running, now);
    FreeAllTracks(s.mem, s.running, Unexpired(s.running, now), ExpiredIds(s.running, now), ev.expiring);
    PlanRunningFacts(s, now, ev.expiring);
    var pl := PlanRunning(s, now, ev.expiring);
    FlagsKeepTracks(pl.mem, pl.running, Unexpired(s.running, now));
    FlagsDoNotCount(pl.running, Unexpired(s.running, now), s.config);
    AdmissionsMem(pl, s.config, ev.admitting);
    EndMem(Admissions(pl, s.config, ev.admitting), s.config, ev.refusing);
  }

  // ---------------------------------------------------------------- planning: requests

  /** Where a running request of a new plan comes from. */
  ghost predicate ComesFrom(r: Request, running: seq<Request>, waiting: seq<Request>) {
    || (exists q :: q in running && r == q.(isPrefill := r.isPrefill))
    || (r.cachedPrefixLen <= |r.promptTokens| && exists w :: w in waiting && r == Started(w, r.cachedPrefixLen))
  }

  lemma ScheduleOrigin(s: State, now: nat, ev: Evictions)
    requires Sound(s.mem) && PermittedSchedule(s, now, ev) && s.config.maxPrefillChunkSize >= 1
    ensures var u := Schedule(s, now, ev);
      && (forall r | r in u.running :: ComesFrom(r, s.running, s.waiting))
      && (forall r | r in u.waiting :: r in s.waiting)
  {
    hide Sound, Exact, PermittedTry, PermittedFrees, PermittedAdmissions, ExpiredIds, Admissions, PlanRunning, FreeAll,
         AllocateWithPrefix, Unexpired;
    PlanRunningFacts(s, now, ev.expiring);
    var pl := PlanRunning(s, now, ev.expiring);
    AdmissionsFacts(pl, s.config, ev.admitting);
    ExpirySplit(s.running, now);
    ExpirySplit(s.waiting, now);
    var u, kept := Schedule(s, now, ev), Unexpired(s.running, now);
    forall r | r in u.running
      ensures ComesFrom(r, s.running, s.waiting)
    {
      var i :| 0 <= i < |u.running| && u.running[i] == r;
      if i < |pl.running| {
        assert u.running[..|pl.running|][i] == r;
        assert kept[i] in s.running && r == kept[i].(isPrefill := r.isPrefill);
      } else {
        var w := pl.waiting[i - |pl.running|];
        assert u.running[|pl.running| + (i - |pl.running|)] == r;
        assert w in s.waiting && r == Started(w, r.cachedPrefixLen);
      }
    }
  }

  lemma StartedOk(w: Request, cached: nat, config: Config)
    requires Unstarted(w) && cached <= |w.promptTokens|
    ensures RunningOk(Started(w, cached), config)
  {
  }

  lemma ScheduledOk(r: Request, running: seq<Request>, waiting: seq<Request>, config: Config,
                    fed: map<RequestId, seq<Token>>)
    requires ComesFrom(r, running, waiting)
    requires forall q | q in running :: RunningOk(q, config) && FedExact(q, fed)
    requires forall w | w in waiting :: Unstarted(w) && w.id !in fed
    ensures RunningOk(r, config) && FedExact(r, fed)
  {
    if q :| q in running && r == q.(isPrefill := r.isPrefill) {
      assert RunningOk(q, config) && FedExact(q, fed);
    } else {
      var w :| w in waiting && r == Started(w, r.cachedPrefixLen);
      StartedOk(w, r.cachedPrefixLen, config);
    }
  }

  // ---------------------------------------------------------------- the steps

  lemma ArriveKeepsInv(s: System, r: Request)
    requires Inv(s) && Enabled(s, Arrive(r))
    ensures Inv(Next(s, Arrive(r)))
  {
    hide MemOk, RunningOk, FedExact, GoneOk, PlanOk, Ids, NoDup, Unstarted, Sound;
    ConfigOk(s);
    var u := Next(s, Arrive(r));
    NoDupAppend(s.arrived, r.id);
    IdsSnoc(s.sched.waiting, r);
    PlanOkFrame(s, u);
    ArrivedIds(s.arrived, Ids(s.sched.running), Ids(s.sched.waiting), Ids(s.gone), r.id);
  }

  lemma ArrivedIds(arrived: seq<RequestId>, running: seq<RequestId>, waiting: seq<RequestId>, gone: seq<RequestId>,
    id: RequestId)
    requires multiset(arrived) == multiset(running + waiting + gone)
    ensures multiset(arrived + [id]) == multiset(running + (waiting + [id]) + gone)
  {
    assert multiset(arrived + [id]) == multiset(arrived) + multiset{id};
    assert multiset(waiting + [id]) == multiset(waiting) + multiset{id};
  }

  lemma PlanOkFrame(s: System, u: System)
    requires PlanOk(s) && u.phase == s.phase && u.sched.running == s.sched.running && u.sched.config == s.sched.config
    ensures PlanOk(u)
  {
  }

  lemma DistinctEverywhere(s: System)
    requires Inv(s)
    ensures NoDup(AllIds(s)) && NoDup(Ids(s.sched.running) + Ids(s.sched.waiting)) && NoDup(Ids(s.sched.running))
    ensures forall id | id in Ids(s.sched.running) ::
      id !in Ids(s.sched.waiting) && id !in Ids(s.gone) && id in s.arrived
  {
    hide MemOk, RunningOk, FedExact, GoneOk, PlanOk, Ids;
    NoDupSameElements(s.arrived, AllIds(s));
    NoDupParts(Ids(s.sched.running) + Ids(s.sched.waiting), Ids(s.gone));
    NoDupParts(Ids(s.sched.running), Ids(s.sched.waiting));
    forall id | id in Ids(s.sched.running)
      ensures id in s.arrived
    {
      assert id in AllIds(s);
      assert id in multiset(s.arrived);
    }
    forall id | id in Ids(s.sched.running)
      ensures id !in Ids(s.sched.waiting) && id !in Ids(s.gone)
    {
      assert id in Ids(s.sched.running) + Ids(s.sched.waiting);
    }
  }

  lemma ExpiredWaitingOk(w: Request, config: Config, fed: map<RequestId, seq<Token>>)
    requires Unstarted(w) && w.id !in fed
    ensures GoneOk(w, config) && FedExact(w, fed)
  {
  }

  lemma PlanKeepsIds(s: System, now: nat, ev: Evictions)
    requires Inv(s) && Enabled(s, PlanBatch(now, ev))
    ensures multiset(AllIds(Next(s, PlanBatch(now, ev)))) == multiset(AllIds(s))
  {
    hide Inv, Sound, Exact, PermittedSchedule, Ids, Schedule;
    ConfigOk(s);
    var u := Next(s, PlanBatch(now, ev));
    ScheduleFacts(s.sched, now, ev);
    ExpirySplit(s.sched.running, now);
    ExpirySplit(s.sched.waiting, now);
    IdsConcat(s.gone + ExpiredRequests(s.sched.running, now), ExpiredRequests(s.sched.waiting, now));
    IdsConcat(s.gone, ExpiredRequests(s.sched.running, now));
    calc {
      multiset(AllIds(u));
      multiset(Ids(u.sched.running) + Ids(u.sched.waiting)) + multiset(Ids(u.gone));
      multiset(Ids(Unexpired(s.sched.running, now))) + multiset(Ids(Unexpired(s.sched.waiting, now)))
        + multiset(Ids(u.gone));
      multiset(AllIds(s));
    }
  }

  lemma ConfigOk(s: System)
    requires Inv(s)
    ensures s.sched.config.maxPrefillChunkSize >= 1 && s.sched.config.maxTokensPerIter >= 1 && Sound(s.sched.mem)
  {
  }

  lemma PlanKeepsInv(s: System, now: nat, ev: Evictions)
    requires Inv(s) && Enabled(s, PlanBatch(now, ev))
    ensures Inv(Next(s, PlanBatch(now, ev)))
  {
    hide Sound, Covers, Tracks, Exact, NoDup, PermittedSchedule, Schedule, Ids, RunningOk, FedExact, GoneOk, Unstarted,
         ComesFrom;
    var u := Next(s, PlanBatch(now, ev));
    DistinctEverywhere(s);
    PlanKeepsIds(s, now, ev);
    ScheduleFacts(s.sched, now, ev);
    ScheduleMem(s.sched, now, ev);
    ScheduleOrigin(s.sched, now, ev);
    ExpirySplit(s.sched.running, now);
    ExpirySplit(s.sched.waiting, now);
    forall r | r in u.sched.running
      ensures RunningOk(r, u.sched.config) && FedExact(r, u.fed)
    {
      ScheduledOk(r, s.sched.running, s.sched.waiting, s.sched.config, s.fed);
    }
    forall r | r in u.gone
      ensures GoneOk(r, u.sched.config) && FedExact(r, u.fed)
    {
      if r in ExpiredRequests(s.sched.waiting, now) {
        ExpiredWaitingOk(r, s.sched.config, s.fed);
      } else if r in ExpiredRequests(s.sched.running, now) {
        RunningMayLeave(r, s.sched.config);
      }
    }
  }

  lemma RunningMayLeave(r: Request, config: Config)
    requires RunningOk(r, config)
    ensures GoneOk(r, config)
  {
  }

  // ---------------------------------------------------------------- commit

  lemma CursorStep(r: Request, config: Config, t: Token)
    requires CursorExact(r, config)
    ensures CursorExact(if Decoding(r) then r.(generatedTokens := r.generatedTokens + [t])
                        else Advanced(r.(generatedTokens := r.generatedTokens + [t]), config), config)
  {
    var n, c := |r.generatedTokens|, config.maxPrefillChunkSize;
    assert (n + 1) * c == n * c + c;
  }

  /** One more token keeps a running request within what a leaving request must satisfy. */
  lemma TokenStep(r: Request, u: Request, config: Config, t: Token)
    requires RunningOk(r, config) && CursorExact(u, config)
    requires u.generatedTokens == r.generatedTokens + [t] && u.maxTokens == r.maxTokens
      && u.stopTokenIds == r.stopTokenIds
    ensures GoneOk(u, config)
  {
    forall k, j | 0 <= k < |u.stopTokenIds| && 1 <= j <= |u.generatedTokens| - 1
      ensures !EndsWith(u.generatedTokens[..j], u.stopTokenIds[k])
    {
      assert u.generatedTokens[..j] == r.generatedTokens[..j];
    }
  }

  /** What survives the commit may run on. */
  lemma UnfinishedRunsOn(r: Request, config: Config)
    requires GoneOk(r, config) && !Finished(r)
    ensures RunningOk(r, config)
  {
    forall k, j | 0 <= k < |r.stopTokenIds| && 1 <= j <= |r.generatedTokens|
      ensures !EndsWith(r.generatedTokens[..j], r.stopTokenIds[k])
    {
      if j == |r.generatedTokens| {
        assert r.generatedTokens[..j] == r.generatedTokens;
      }
    }
  }

  lemma {:induction false} FeedFacts(fed: map<RequestId, seq<Token>>, items: seq<WorkItem>, id: RequestId)
    requires NoDup(ItemIds(items))
    ensures (forall j | 0 <= j < |items| && items[j].reqId == id && items[j].isPrefill ::
      FedTo(Feed(fed, items), id) == FedTo(fed, id) + items[j].input)
    ensures (forall j | 0 <= j < |items| && items[j].reqId == id :: !items[j].isPrefill)
      ==> FedTo(Feed(fed, items), id) == FedTo(fed, id)
    ensures id in Feed(fed, items) ==> id in fed || id in ItemIds(items)
  {
    if items != [] {
      var init, last := items[..|items| - 1], items[|items| - 1];
      assert ItemIds(items) == ItemIds(init) + [last.reqId];
      assert NoDup(ItemIds(init)) && last.reqId !in ItemIds(init) by {
        NoDupParts(ItemIds(init), [last.reqId]);
        assert last.reqId in [last.reqId];
      }
      FeedFacts(fed, init, id);
      if last.reqId == id {
        assert forall j | 0 <= j < |init| :: ItemIds(init)[j] in ItemIds(init);
      }
    }
  }

  /** A request after the commit, before it is known whether it goes on. */
  ghost predicate Committed(u: Request, config: Config, fed: map<RequestId, seq<Token>>) {
    GoneOk(u, config) && FedExact(u, fed)
  }

  lemma PrefilledRequest(r: Request, results: seq<ComputeResult>, toPrefill: seq<RequestId>, config: Config,
                         fed: map<RequestId, seq<Token>>, after: map<RequestId, seq<Token>>)
    requires RunningOk(r, config) && FedExact(r, fed) && !Decoding(r)
    requires r.id in toPrefill && TokenFor(results, r.id).Some?
    requires FedTo(after, r.id) == FedTo(fed, r.id) + Chunk(r, config)
    ensures Committed(ComputedRequest(r, toPrefill, results, config), config, after)
  {
    var t := TokenFor(results, r.id).value;
    var u := ComputedRequest(r, toPrefill, results, config);
    CursorStep(r, config, t);
    TokenStep(r, u, config, t);
    assert u.prefillCursor == r.prefillCursor + ChunkSize(r, config);
    assert u.promptTokens[u.cachedPrefixLen..u.prefillCursor] ==
      r.promptTokens[r.cachedPrefixLen..r.prefillCursor] + Chunk(r, config);
  }

  lemma DecodedRequest(r: Request, results: seq<ComputeResult>, toPrefill: seq<RequestId>, config: Config,
                       fed: map<RequestId, seq<Token>>, after: map<RequestId, seq<Token>>)
    requires RunningOk(r, config) && FedExact(r, fed) && Decoding(r)
    requires r.id !in toPrefill && TokenFor(results, r.id).Some?
    requires FedTo(after, r.id) == FedTo(fed, r.id)
    ensures Committed(ComputedRequest(r, toPrefill, results, config), config, after)
  {
    var t := TokenFor(results, r.id).value;
    CursorStep(r, config, t);
    TokenStep(r, ComputedRequest(r, toPrefill, results, config), config, t);
  }

  lemma IdleRequest(r: Request, results: seq<ComputeResult>, toPrefill: seq<RequestId>, config: Config,
                    fed: map<RequestId, seq<Token>>, after: map<RequestId, seq<Token>>)
    requires RunningOk(r, config) && FedExact(r, fed)
    requires r.id !in toPrefill && TokenFor(results, r.id).None?
    requires FedTo(after, r.id) == FedTo(fed, r.id)
    ensures Committed(ComputedRequest(r, toPrefill, results, config), config, after)
  {
    RunningMayLeave(r, config);
  }

  /** The commit uses the plan's batch, whose items name distinct running requests. */
  lemma BatchOf(s: System, tokens: seq<Token>)
    requires Inv(s) && s.phase.Computing? && |tokens| == |Items(s)|
    ensures var p := s.phase.plan;
      && ItemIds(Items(s)) == p.toPrefill + p.toDecode
        && ResultIds(Results(Items(s), tokens)) == p.toPrefill + p.toDecode
      && NoDup(p.toPrefill + p.toDecode) && NoDup(p.toPrefill)
      && (forall id | id in p.toPrefill + p.toDecode :: id in Ids(s.sched.running))
      && p.toDecode == DecodingIds(s.sched.running)
      && (forall j | 0 <= j < |p.toPrefill| :: IsChunkOf(Items(s)[j], s.sched.running, p.toPrefill[j], s.sched.config))
      && (forall j | |p.toPrefill| <= j < |Items(s)| :: !Items(s)[j].isPrefill)
  {
    hide MemOk, RunningOk, FedExact, GoneOk, Unstarted, NoDup, AllIds, Batch, IsChunkOf, IsDecodeOf, DecodingIds,
         PrefillingIds, PrefillChunks, Sum;
    DistinctEverywhere(s);
    BatchExact(s.phase.plan, s.sched.config);
    BatchIdsDistinct(s.phase.plan, s.sched.config);
    NoDupParts(s.phase.plan.toPrefill, s.phase.plan.toDecode);
    assert forall j | 0 <= j < |tokens| :: ResultIds(Results(Items(s), tokens))[j] == ItemIds(Items(s))[j];
  }

  lemma CommittedRequest(s: System, tokens: seq<Token>, i: nat)
    requires Inv(s) && s.phase.Computing? && |tokens| == |Items(s)| && i < |s.sched.running|
    ensures var results := Results(Items(s), tokens);
      Committed(ComputedRequest(s.sched.running[i], s.phase.plan.toPrefill, results, s.sched.config), s.sched.config,
        Feed(s.fed, Items(s)))
  {
    hide Sound, Covers, Tracks, Exact, RunningOk, FedExact, GoneOk, Unstarted, NoDup, Ids, Committed, ComputedRequest,
         Results, Batch, Feed, TokenFor, IndexOf;
    BatchOf(s, tokens);
    DistinctEverywhere(s);
    var items, p, r := Items(s), s.phase.plan, s.sched.running[i];
    var results, ids := Results(items, tokens), p.toPrefill + p.toDecode;
    var after := Feed(s.fed, items);
    TokenForKnown(results, r.id);
    FeedFacts(s.fed, items, r.id);
    assert r in s.sched.running;
    if r.id !in ids {
      assert forall j | 0 <= j < |items| :: ItemIds(items)[j] in ids;
      IdleRequest(r, results, p.toPrefill, s.sched.config, s.fed, after);
    } else {
      var j :| 0 <= j < |ids| && ids[j] == r.id;
      DistinctAt(ids, j);
      assert ItemIds(items)[j] == items[j].reqId == r.id;
      if j < |p.toPrefill| {
        IndexOfUnique(s.sched.running, i);
        assert IsChunkOf(items[j], s.sched.running, p.toPrefill[j], s.sched.config);
        PrefilledRequest(r, results, p.toPrefill, s.sched.config, s.fed, after);
      } else {
        assert r.id !in p.toPrefill by {
          assert forall x | 0 <= x < |p.toPrefill| :: ids[x] == p.toPrefill[x];
        }
        var d := DecodingAt(s.sched.running, j - |p.toPrefill|);
        SameId(s.sched.running, r, s.sched.running[d]);
        assert forall x | 0 <= x < |items| && items[x].reqId == r.id :: ItemIds(items)[x] == ids[x] && x == j;
        DecodedRequest(r, results, p.toPrefill, s.sched.config, s.fed, after);
      }
    }
  }

  lemma CommitPermitted(s: System, tokens: seq<Token>, pss: seq<seq<Path>>)
    requires Inv(s) && Enabled(s, CommitBatch(tokens, pss))
    ensures var results, u := Results(Items(s), tokens), Next(s, CommitBatch(tokens, pss));
      var rs := Computed(s.sched.running, s.phase.plan.toPrefill, results, s.sched.config);
      && Ids(rs) == Ids(s.sched.running)
      && (forall r | r in rs :: Committed(r, s.sched.config, u.fed))
      && u.sched.running == Unfinished(rs) && u.gone == s.gone + FinishedRequests(rs)
      && PermittedFrees(s.sched.mem, Ids(FinishedRequests(rs)), pss)
      && u.sched.mem == FreeAll(s.sched.mem, Ids(FinishedRequests(rs)), pss)
      && u.sched.waiting == s.sched.waiting && u.sched.config == s.sched.config
      && (forall r | r in rs :: exists q :: q in s.sched.running && q.id == r.id && q.promptTokens == r.promptTokens)
  {
    hide Sound, Covers, Tracks, Exact, RunningOk, FedExact, GoneOk, Unstarted, NoDup, Ids, Committed, Results, Batch,
         Feed, TokenFor, Computed, PermittedFrees, FreeAll;
    BatchOf(s, tokens);
    DistinctEverywhere(s);
    var results := Results(Items(s), tokens);
    CommitFacts(s.sched, s.phase.plan.toPrefill, results, pss);
    var rs := Computed(s.sched.running, s.phase.plan.toPrefill, results, s.sched.config);
    forall r | r in rs
      ensures Committed(r, s.sched.config, Feed(s.fed, Items(s)))
      ensures exists q :: q in s.sched.running && q.id == r.id && q.promptTokens == r.promptTokens
    {
      var i :| 0 <= i < |rs| && rs[i] == r;
      CommittedRequest(s, tokens, i);
      assert s.sched.running[i] in s.sched.running && s.sched.running[i].id == r.id
        && s.sched.running[i].promptTokens == r.promptTokens;
    }
  }

  lemma FedStaysInside(s: System, tokens: seq<Token>)
    requires Inv(s) && s.phase.Computing? && |tokens| == |Items(s)|
    ensures var after := Feed(s.fed, Items(s));
      && (forall id | id in after :: id in s.arrived)
      && (forall w | w in s.sched.waiting :: w.id !in after)
      && (forall r | r in s.gone :: FedExact(r, after))
  {
    hide Sound, MemOk, Exact, RunningOk, GoneOk, Unstarted, NoDup, Ids, Results, Batch, Feed;
    BatchOf(s, tokens);
    DistinctEverywhere(s);
    var items, after := Items(s), Feed(s.fed, Items(s));
    forall id | id in after
      ensures id in s.arrived
    {
      FeedFacts(s.fed, items, id);
    }
    forall w | w in s.sched.waiting
      ensures w.id !in after
    {
      FeedFacts(s.fed, items, w.id);
      IdOfMember(s.sched.waiting, w);
    }
    forall r | r in s.gone
      ensures FedExact(r, after)
    {
      FeedFacts(s.fed, items, r.id);
      IdOfMember(s.gone, r);
      assert forall j | 0 <= j < |items| :: ItemIds(items)[j] in ItemIds(items);
    }
  }

  lemma CommitKeepsIds(s: System, tokens: seq<Token>, pss: seq<seq<Path>>)
    requires Inv(s) && Enabled(s, CommitBatch(tokens, pss))
    ensures multiset(AllIds(Next(s, CommitBatch(tokens, pss)))) == multiset(AllIds(s))
  {
    hide Inv, Sound, Ids, Results, Batch, Feed, Computed, PermittedFrees, FreeAll, PermittedCommit, Commit, Finished,
         Committed;
    ConfigOk(s);
    CommitPermitted(s, tokens, pss);
    var u := Next(s, CommitBatch(tokens, pss));
    var rs := Computed(s.sched.running, s.phase.plan.toPrefill, Results(Items(s), tokens), s.sched.config);
    FinishSplit(rs);
    IdsConcat(s.gone, FinishedRequests(rs));
  }

  lemma CommitKeepsMem(s: System, tokens: seq<Token>, pss: seq<seq<Path>>)
    requires Inv(s) && Enabled(s, CommitBatch(tokens, pss))
    ensures var u := Next(s, CommitBatch(tokens, pss)); MemOk(u.sched.mem, u.sched.running)
  {
    hide Sound, Covers, Tracks, Exact, Ids, NoDup, Results, Batch, Feed, Computed, PermittedFrees, FreeAll,
         PermittedCommit, Commit, Finished, Committed;
    CommitPermitted(s, tokens, pss);
    DistinctEverywhere(s);
    var u := Next(s, CommitBatch(tokens, pss));
    var rs := Computed(s.sched.running, s.phase.plan.toPrefill, Results(Items(s), tokens), s.sched.config);
    FinishSplit(rs);
    FreeAllTracks(s.sched.mem, s.sched.running, u.sched.running, Ids(FinishedRequests(rs)), pss);
  }

  lemma CommitKeepsInv(s: System, tokens: seq<Token>, pss: seq<seq<Path>>)
    requires Inv(s) && Enabled(s, CommitBatch(tokens, pss))
    ensures Inv(Next(s, CommitBatch(tokens, pss)))
  {
    hide MemOk, Sound, Exact, RunningOk, FedExact, GoneOk, Unstarted, NoDup, AllIds, Results, Batch, Feed, Computed,
         PermittedFrees, FreeAll, PermittedCommit, Commit, Finished;
    ConfigOk(s);
    CommitKeepsIds(s, tokens, pss);
    CommitKeepsMem(s, tokens, pss);
    CommitPermitted(s, tokens, pss);
    FedStaysInside(s, tokens);
    var u := Next(s, CommitBatch(tokens, pss));
    var rs := Computed(s.sched.running, s.phase.plan.toPrefill, Results(Items(s), tokens), s.sched.config);
    FinishSplit(rs);
    forall r | r in u.sched.running
      ensures RunningOk(r, u.sched.config) && FedExact(r, u.fed)
    {
      UnfinishedRunsOn(r, s.sched.config);
    }
    forall r | r in u.gone
      ensures GoneOk(r, u.sched.config) && FedExact(r, u.fed)
    {
      if r !in s.gone {
        assert r in FinishedRequests(rs);
      }
    }
    assert u.arrived == s.arrived && u.phase == Idle;
  }
}
