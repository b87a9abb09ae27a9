/** Write isolation over whole runs: the blocks a running request computes into are its own. */
module ServingIsolation {
  import opened Types
  import opened RadixTrie
  import opened BlockAccounting
  import BlockCoverage
  import opened BlockIsolation
  import opened SchedulerModel
  import opened SchedulerPlan
  import opened SchedulerCommit
  import opened ServingSystem
  import opened ServingMemory
  import opened ServingSteps
  import opened ServingRuns

  /** How many blocks a request got beyond the cached ones: room for the prompt tokens it computes itself. */
  function OwnCount(r: Request, blockSize: nat): nat {
    if blockSize == 0 || r.cachedPrefixLen > |r.promptTokens| then 0
    else CeilDiv(|r.promptTokens| - r.cachedPrefixLen, blockSize)
  }

  /** Every request in the queue holds those blocks alone. */
  ghost predicate Isolated(m: Mem, rs: seq<Request>) {
    forall r | r in rs :: Owns(m, r.id, OwnCount(r, m.blockSize))
  }

  // ---------------------------------------------------------------- planning

  lemma {:induction false} FreeAllOwns(m: Mem, ids: seq<RequestId>, pss: seq<seq<Path>>, id: RequestId, n: nat)
    requires Sound(m) && PermittedFrees(m, ids, pss) && id !in ids && Owns(m, id, n)
    ensures Owns(FreeAll(m, ids, pss), id, n) && FreeAll(m, ids, pss).blockSize == m.blockSize
  {
    hide Sound, PermittedFree, Free, Owns;
    if ids != [] {
      var init, last := ids[..|ids| - 1], ids[|ids| - 1];
      FreeAllOwns(m, init, pss[..|pss| - 1], id, n);
      FreeTables(FreeAll(m, init, pss[..|pss| - 1]), last, pss[|pss| - 1]);
      FreeOwns(FreeAll(m, init, pss[..|pss| - 1]), last, pss[|pss| - 1], id, n);
    }
  }

  lemma {:induction false} FreeAllBlockSize(m: Mem, ids: seq<RequestId>, pss: seq<seq<Path>>)
    requires Sound(m) && PermittedFrees(m, ids, pss)
    ensures FreeAll(m, ids, pss).blockSize == m.blockSize && FreeAll(m, ids, pss).capacity == m.capacity
  {
    hide Sound, PermittedFree, Free;
    if ids != [] {
      FreeAllBlockSize(m, ids[..|ids| - 1], pss[..|pss| - 1]);
      FreeTables(FreeAll(m, ids[..|ids| - 1], pss[..|pss| - 1]), ids[|ids| - 1], pss[|pss| - 1]);
    }
  }

  /** Freeing requests that leave keeps those that stay isolated, with whatever else changes about them. */
  lemma FreeAllIsolated(m: Mem, rs: seq<Request>, left: seq<Request>, ids: seq<RequestId>, pss: seq<seq<Path>>)
    requires Sound(m) && PermittedFrees(m, ids, pss) && Isolated(m, rs)
    requires forall r | r in left :: r.id !in ids && exists q :: q in rs && SameNeeds(q, r)
    ensures Isolated(FreeAll(m, ids, pss), left)
  {
    hide Sound, PermittedFrees, FreeAll, Owns;
    FreeAllBlockSize(m, ids, pss);
    forall r | r in left
      ensures Owns(FreeAll(m, ids, pss), r.id, OwnCount(r, m.blockSize))
    {
      var q :| q in rs && SameNeeds(q, r);
      FreeAllOwns(m, ids, pss, r.id, OwnCount(r, m.blockSize));
    }
  }

  /** Same prompt, same cached prefix. */
  ghost predicate SameNeeds(q: Request, r: Request) {
    q.id == r.id && q.promptTokens == r.promptTokens && q.cachedPrefixLen == r.cachedPrefixLen
  }

  lemma FlagsIsolated(m: Mem, a: seq<Request>, b: seq<Request>)
    requires SameButFlags(a, b) && Isolated(m, b)
    ensures Isolated(m, a)
  {
    hide Owns;
    forall r | r in a
      ensures Owns(m, r.id, OwnCount(r, m.blockSize))
    {
      var i :| 0 <= i < |a| && a[i] == r;
      assert b[i] in b && SameNeeds(b[i], r);
    }
  }

  lemma AdmitIsolated(pl: Plan, config: Config, ps: seq<Path>)
    requires Sound(pl.mem) && Tracks(pl.mem, pl.running) && Isolated(pl.mem, pl.running)
    requires PermittedTry(pl, config, ps) && Try(pl, config, ps).result.Some? && pl.waiting[0].id !in Ids(pl.running)
    ensures Isolated(Admit(pl, config, ps).mem, Admit(pl, config, ps).running)
  {
    hide Sound, PermittedAllocate, AllocateWithPrefix, Owns, CeilDiv;
    var w, m := pl.waiting[0], pl.mem;
    AllocationTables(m, w.id, w.promptTokens, ps);
    AllocationOwnsNew(m, w.id, w.promptTokens, ps);
    var u := Admit(pl, config, ps);
    var started := u.running[|u.running| - 1];
    BlockSizePositive(m);
    forall r | r in u.running
      ensures Owns(u.mem, r.id, OwnCount(r, m.blockSize))
    {
      if r != started {
        assert r in pl.running;
        IdOfMember(pl.running, r);
        AllocationOwns(m, w.id, w.promptTokens, ps, r.id, OwnCount(r, m.blockSize));
      }
    }
  }

  lemma BlockSizePositive(m: Mem)
    requires Sound(m)
    ensures m.blockSize >= 1
  {
  }

  lemma {:induction false} AdmissionsIsolated(pl: Plan, config: Config, pss: seq<seq<Path>>)
    requires MemOk(pl.mem, pl.running) && PermittedAdmissions(pl, config, pss) && Isolated(pl.mem, pl.running)
    requires Exact(pl, config) && config.maxPrefillChunkSize >= 1
    requires NoDup(Ids(pl.running) + Ids(pl.waiting))
    ensures var u := Admissions(pl, config, pss); Isolated(u.mem, u.running)
  {
    hide Sound, BlockCoverage.Covers, Tracks, Exact, NoDup, PermittedAllocate, AllocateWithPrefix, Ids, Admit, Isolated;
    if pss != [] {
      var init, ps := pss[..|pss| - 1], pss[|pss| - 1];
      AdmissionsIsolated(pl, config, init);
      AdmissionsMem(pl, config, init);
      var v := Admissions(pl, config, init);
      NoDupParts(Ids(v.running), Ids(v.waiting));
      assert Ids(v.waiting)[0] == v.waiting[0].id;
      AdmitIsolated(v, config, ps);
    }
  }

  lemma EndIsolated(pl: Plan, config: Config, ps: seq<Path>)
    requires Sound(pl.mem) && Tracks(pl.mem, pl.running) && Isolated(pl.mem, pl.running)
    requires PermittedEnd(pl, config, ps) && (pl.waiting != [] ==> pl.waiting[0].id !in Ids(pl.running))
    ensures Isolated(End(pl, config, ps).mem, pl.running)
  {
    hide Sound, PermittedAllocate, AllocateWithPrefix, Owns;
    if Tries(pl, config) {
      var w, m := pl.waiting[0], pl.mem;
      AllocationTables(m, w.id, w.promptTokens, ps);
      forall r | r in pl.running
        ensures Owns(End(pl, config, ps).mem, r.id, OwnCount(r, m.blockSize))
      {
        IdOfMember(pl.running, r);
        AllocationOwns(m, w.id, w.promptTokens, ps, r.id, OwnCount(r, m.blockSize));
      }
    }
  }

  lemma UnexpiredNeeds(rs: seq<Request>, now: nat)
    requires NoDup(Ids(rs))
    ensures forall r | r in Unexpired(rs, now) :: r.id !in ExpiredIds(rs, now) && exists q :: q in rs && SameNeeds(q, r)
  {
    hide NoDup, Ids, Expired, Unexpired, ExpiredIds;
    ExpirySplit(rs, now);
    var left, out := Unexpired(rs, now), ExpiredIds(rs, now);
    SplitMembers(Ids(rs), Ids(left), out);
    forall r | r in left
      ensures r.id !in out && exists q :: q in rs && SameNeeds(q, r)
    {
      IdOfMember(left, r);
      assert r in rs && SameNeeds(r, r);
    }
  }

  lemma ScheduleIsolated(s: State, now: nat, ev: Evictions)
    requires MemOk(s.mem, s.running) && PermittedSchedule(s, now, ev) && s.config.maxPrefillChunkSize >= 1
    requires NoDup(Ids(s.running) + Ids(s.waiting)) && Isolated(s.mem, s.running)
    ensures Isolated(Schedule(s, now, ev).mem, Schedule(s, now, ev).running)
  {
    hide Sound, BlockCoverage.Covers, Tracks, Exact, NoDup, PermittedFrees, PermittedAdmissions, PermittedTry, FreeAll,
         Ids, PlanRunning, Admissions, AllocateWithPrefix, Unexpired, ExpiredIds, SameButFlags, Isolated, PermittedEnd,
         End;
    ExpiredDistinct(s, now);
    ExpirySplit(s.running, now);
    UnexpiredNeeds(s.running, now);
    FreeAllTracks(s.mem, s.running, Unexpired(s.running, now), ExpiredIds(s.running, now), ev.expiring);
    FreeAllIsolated(s.mem, s.running, Unexpired(s.running, now), ExpiredIds(s.running, now), ev.expiring);
    PlanRunningFacts(s, now, ev.expiring);
    var pl := PlanRunning(s, now, ev.expiring);
    FlagsKeepTracks(pl.mem, pl.running, Unexpired(s.running, now));
    FlagsIsolated(pl.mem, pl.running, Unexpired(s.running, now));
    FlagsDoNotCount(pl.running, Unexpired(s.running, now), s.config);
    AdmissionsMem(pl, s.config, ev.admitting);
    AdmissionsIsolated(pl, s.config, ev.admitting);
    var v := Admissions(pl, s.config, ev.admitting);
    FrontNotRunning(v);
    EndIsolated(v, s.config, ev.refusing);
    EndRunning(v, s.config, ev.refusing);
  }

  lemma EndRunning(pl: Plan, config: Config, ps: seq<Path>)
    requires Sound(pl.mem) && PermittedEnd(pl, config, ps)
    ensures End(pl, config, ps).running == pl.running
  {
    hide Sound, PermittedAllocate, AllocateWithPrefix;
  }

  lemma FrontNotRunning(pl: Plan)
    requires NoDup(Ids(pl.running) + Ids(pl.waiting))
    ensures pl.waiting != [] ==> pl.waiting[0].id !in Ids(pl.running)
  {
    hide Ids;
    NoDupParts(Ids(pl.running), Ids(pl.waiting));
    assert pl.waiting != [] ==> Ids(pl.waiting)[0] == pl.waiting[0].id;
  }

  // ---------------------------------------------------------------- the steps

  lemma ComputedNeeds(rs: seq<Request>, toPrefill: seq<RequestId>, results: seq<ComputeResult>, config: Config)
    requires NoDup(Ids(rs)) && NoDup(ResultIds(results)) && NoDup(toPrefill)
    ensures forall r | r in Computed(rs, toPrefill, results, config) :: exists q :: q in rs && SameNeeds(q, r)
  {
    hide NoDup, Ids, Computed;
    ComputedFacts(rs, toPrefill, results, config);
    var u := Computed(rs, toPrefill, results, config);
    forall r | r in u
      ensures exists q :: q in rs && SameNeeds(q, r)
    {
      var i :| 0 <= i < |u| && u[i] == r;
      assert |Ids(u)| == |Ids(rs)|;
      assert rs[i] in rs && SameNeeds(rs[i], r);
    }
  }

  lemma CommitIsolated(s: System, tokens: seq<Token>, pss: seq<seq<Path>>)
    requires Inv(s) && Enabled(s, CommitBatch(tokens, pss)) && Isolated(s.sched.mem, s.sched.running)
    ensures var u := Next(s, CommitBatch(tokens, pss)); Isolated(u.sched.mem, u.sched.running)
  {
    hide Inv, Sound, Ids, NoDup, Results, Batch, Feed, Computed, PermittedFrees, FreeAll, PermittedCommit, Commit,
         Finished, Committed, Isolated, Unfinished, FinishedRequests, Items;
    ConfigOk(s);
    DistinctEverywhere(s);
    CommitPermitted(s, tokens, pss);
    BatchOf(s, tokens);
    var results := Results(Items(s), tokens);
    var rs := Computed(s.sched.running, s.phase.plan.toPrefill, results, s.sched.config);
    ComputedNeeds(s.sched.running, s.phase.plan.toPrefill, results, s.sched.config);
    FinishSplit(rs);
    SplitMembers(Ids(rs), Ids(Unfinished(rs)), Ids(FinishedRequests(rs)));
    forall r | r in Unfinished(rs)
      ensures r.id !in Ids(FinishedRequests(rs)) && exists q :: q in s.sched.running && SameNeeds(q, r)
    {
      IdOfMember(Unfinished(rs), r);
    }
    FreeAllIsolated(s.sched.mem, s.sched.running, Unfinished(rs), Ids(FinishedRequests(rs)), pss);
  }

  lemma PlanIsolated(s: System, now: nat, ev: Evictions)
    requires Inv(s) && Enabled(s, PlanBatch(now, ev)) && Isolated(s.sched.mem, s.sched.running)
    ensures var u := Next(s, PlanBatch(now, ev)); Isolated(u.sched.mem, u.sched.running)
  {
    hide Sound, Isolated, PermittedSchedule, Schedule, NoDup, Ids, RunningOk, FedExact, GoneOk, Unstarted, PlanOk,
         MemOk;
    DistinctEverywhere(s);
    ScheduleIsolated(s.sched, now, ev);
  }

  lemma NextIsolated(s: System, e: Event)
    requires Inv(s) && Enabled(s, e) && Isolated(s.sched.mem, s.sched.running)
    ensures Isolated(Next(s, e).sched.mem, Next(s, e).sched.running)
  {
    hide Inv, Sound, Isolated, PermittedSchedule, PermittedCommit;
    match e
    case Arrive(r) =>
    case PlanBatch(now, ev) => PlanIsolated(s, now, ev);
    case CommitBatch(tokens, pss) => CommitIsolated(s, tokens, pss);
  }

  lemma {:induction false} RunIsolated(s: System, es: seq<Event>)
    requires Inv(s) && Legal(s, es) && Isolated(s.sched.mem, s.sched.running)
    ensures Isolated(After(s, es).sched.mem, After(s, es).sched.running)
    decreases |es|
  {
    hide Inv, Enabled, Next, Isolated;
    if es != [] {
      ConfigOk(s);
      NextKeepsInv(s, es[0]);
      NextIsolated(s, es[0]);
      RunIsolated(Next(s, es[0]), es[1..]);
    }
  }

  lemma SameIdSame(s: System, r: Request, q: Request)
    requires Inv(s) && r in s.sched.running && q in s.sched.running && r.id == q.id
    ensures r == q
  {
    hide Inv, Ids;
    DistinctEverywhere(s);
    SameId(s.sched.running, r, q);
  }

  /** The blocks `r` computes into are in no table of `q` and in no cache node. */
  ghost predicate WritesApart(m: Mem, r: Request, q: Request) {
    && m.blockSize >= 1 && r.cachedPrefixLen <= |r.promptTokens| && r.id in m.table && q.id in m.table
    && var own := CeilDiv(|r.promptTokens| - r.cachedPrefixLen, m.blockSize);
      && own <= |m.table[r.id]|
      && forall b | b in m.table[r.id][|m.table[r.id]| - own..] ::
           b !in m.table[q.id] && forall p | p in m.tree :: b !in m.tree[p].blocks
  }

  lemma RunningFacts(s: System, r: Request)
    requires Inv(s) && r in s.sched.running
    ensures r.cachedPrefixLen <= |r.promptTokens| && r.id in s.sched.mem.table && s.sched.mem.blockSize >= 1
  {
    hide FedExact, GoneOk, PlanOk, Unstopped, Unstarted, AllIds, Ids, BlockCoverage.Covers;
    assert CursorExact(r, s.sched.config);
    IdOfMember(s.sched.running, r);
    BlockSizePositive(s.sched.mem);
  }

  lemma IsolatedPair(s: System, r: Request, q: Request)
    requires Inv(s) && Isolated(s.sched.mem, s.sched.running)
    requires r in s.sched.running && q in s.sched.running && r != q
    ensures WritesApart(s.sched.mem, r, q)
  {
    RunningFacts(s, r);
    RunningFacts(s, q);
    if r.id == q.id {
      SameIdSame(s, r, q);
    }
    hide Inv, Owns, CeilDiv;
    OwnedAlone(s.sched.mem, r.id, OwnCount(r, s.sched.mem.blockSize), q.id);
  }

  /**
   * Write isolation, in every state of every run of a new engine: the last blocks of a running request, as many as the
   * uncached rest of its prompt needs, are in no other running request's table and in no cache node.
   */
  lemma WriteIsolation(blockSize: nat, numBlocks: nat, config: Config, es: seq<Event>, r: Request, q: Request)
    requires Inv(Boot(blockSize, numBlocks, config)) && Legal(Boot(blockSize, numBlocks, config), es)
    requires var u := After(Boot(blockSize, numBlocks, config), es);
      r in u.sched.running && q in u.sched.running && r != q
    ensures WritesApart(After(Boot(blockSize, numBlocks, config), es).sched.mem, r, q)
  {
    hide Inv, Legal, After, Initial, Owns, WritesApart;
    var s := Boot(blockSize, numBlocks, config);
    RunIsolated(s, es);
    IsolatedPair(After(s, es), r, q);
  }

  lemma OwnedAlone(m: Mem, id: RequestId, n: nat, other: RequestId)
    requires Owns(m, id, n) && other in m.table && other != id
    ensures id in m.table && n <= |m.table[id]|
    ensures forall b | b in m.table[id][|m.table[id]| - n..] ::
      b !in m.table[other] && forall p | p in m.tree :: b !in m.tree[p].blocks
  {
    forall b | b in m.table[id][|m.table[id]| - n..]
      ensures b !in m.table[other] && forall p | p in m.tree :: b !in m.tree[p].blocks
    {
      OwnedListed(m, id, n, b);
      HeldOnce(m, id, b);
    }
  }
}
