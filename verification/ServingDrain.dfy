/**
 * What repeated `schedule` calls achieve without arrivals: a state in which nothing runs and the cache can give nothing
 * more. Whether the worker makes these calls is another matter, see `ServingWakeup`.
 */
module ServingDrain {
  import opened Types
  import opened Holdings
  import opened RadixTrie
  import opened BlockAccounting
  import opened BlockCoverage
  import opened BlockSafety
  import opened BlockIsolation
  import opened BlockRefusal
  import opened SchedulerModel
  import opened SchedulerPlan
  import opened SchedulerCommit
  import opened ServingSystem
  import opened ServingSteps
  import opened ServingRuns
  import opened ServingProgress
  import opened ServingRefusals
  import opened ServingPrefill
  import opened ServingIsolation
  import ServingEarly

  // ---------------------------------------------------------------- a bound on the nodes of the cache

  lemma {:induction false} TotalSize<K(!new)>(m: map<K, seq<BlockId>>)
    requires forall k | k in m :: m[k] != []
    ensures |Total(m)| >= |m|
    decreases |m|
  {
    if m != map[] {
      var k :| k in m && Total(m) == multiset(m[k]) + Total(m - {k});
      TotalSize(m - {k});
      assert |multiset(m[k])| == |m[k]|;
      assert m.Keys == (m - {k}).Keys + {k};
    }
  }

  /** Every node but the root holds a block, so the cache has at most as many of them as its capacity. */
  lemma NodesFit(m: Mem)
    requires Sound(m) && Covers(m)
    ensures 1 <= |m.tree| <= m.capacity + 1
  {
    hide StampsBelow, Counted, TableCovers, WellFormed, Label;
    SoundFits(m);
    TreeSizes(m);
    var s := Store(m.tree);
    forall p | p in s - {[]}
      ensures s[p] != []
    {
      NodeHasBlock(m, p);
    }
    TotalSize(s - {[]});
    TotalRemove(s, []);
    assert (s - {[]}).Keys == m.tree.Keys - {[]};
  }

  lemma NodeHasBlock(m: Mem, p: Path)
    requires Sound(m) && Covers(m) && p in m.tree && p != []
    ensures m.tree[p].blocks != []
  {
    LookupStarts(m.tree, 0);
    LabelExtends(m.tree, [], p);
    var none: seq<BlockId> := [];
    assert Elements(none) == {};
  }

  // ---------------------------------------------------------------- one call

  /**
   * An allocation adds no node, keeps the capacity, and when refused leaves fewer free blocks than the prompt needs in
   * all.
   */
  lemma AllocationNodes(m: Mem, id: RequestId, prompt: seq<Token>, ps: seq<Path>)
    requires Sound(m) && PermittedAllocate(m, prompt, ps)
    ensures var a := AllocateWithPrefix(m, id, prompt, ps);
      && |a.mem.tree| <= |m.tree| && a.mem.capacity == m.capacity && a.mem.blockSize == m.blockSize
      && m.blockSize >= 1 && (a.result.None? ==> |a.mem.free| < CeilDiv(|prompt|, m.blockSize))
  {
    hide WellFormed, EvictChoice, PermittedAllocate, HitBlocks, HitLength, CeilDiv, Sound, Release, Touched;
    SoundFits(m);
    AllocationTables(m, id, prompt, ps);
    PreparedIs(m, prompt, ps);
    var cached, all := HitLength(m, prompt), CeilDiv(|prompt|, m.blockSize);
    CeilHolds(|prompt|, m.blockSize);
    CeilLeast(|prompt| - cached, m.blockSize, all);
    if ps == [] {
      assert |Pin(m, prompt).tree.Keys| == |m.tree.Keys|;
    } else {
      SmallerKeys(m.tree, Pin(m, prompt).tree - {ps[0]});
    }
  }

  lemma SmallerKeys(t: Trie, u: Trie)
    requires u.Keys <= t.Keys
    ensures |u| <= |t|
  {
    assert t.Keys == u.Keys + (t.Keys - u.Keys);
    assert |t.Keys| == |u.Keys| + |t.Keys - u.Keys|;
  }

  lemma {:induction false} AdmissionsNodes(pl: Plan, config: Config, pss: seq<seq<Path>>)
    requires Sound(pl.mem) && PermittedAdmissions(pl, config, pss)
    ensures var u := Admissions(pl, config, pss).mem; |u.tree| <= |pl.mem.tree| && u.capacity == pl.mem.capacity
  {
    hide Sound, PermittedAllocate, AllocateWithPrefix;
    if pss != [] {
      var init, ps := pss[..|pss| - 1], pss[|pss| - 1];
      AdmissionsNodes(pl, config, init);
      var v := Admissions(pl, config, init);
      AllocationNodes(v.mem, v.waiting[0].id, v.waiting[0].promptTokens, ps);
    }
  }

  /** Only freeing expired requests can add nodes. */
  lemma ScheduleNodes(s: State, now: nat, ev: Evictions)
    requires Sound(s.mem) && PermittedSchedule(s, now, ev)
    ensures Schedule(s, now, ev).mem.capacity == s.mem.capacity
    ensures |Schedule(s, now, ev).mem.tree| <= |FreeAll(s.mem, ExpiredIds(s.running, now), ev.expiring).tree|
  {
    hide Sound, PermittedFrees, PermittedAdmissions, FreeAll, PlanRunning, Admissions, PermittedAllocate,
         AllocateWithPrefix, Exact, SameButFlags;
    PlanRunningFacts(s, now, ev.expiring);
    var pl := PlanRunning(s, now, ev.expiring);
    FreeAllBlockSize(s.mem, ExpiredIds(s.running, now), ev.expiring);
    AdmissionsNodes(pl, s.config, ev.admitting);
    var v := Admissions(pl, s.config, ev.admitting);
    if Tries(v, s.config) {
      AllocationNodes(v.mem, v.waiting[0].id, v.waiting[0].promptTokens, ev.refusing);
    }
  }

  // ---------------------------------------------------------------- the potential

  /**
   * Nothing runs, and either nothing waits or the cache is empty and the front request needs more than the free blocks.
   */
  ghost predicate Drained(s: System) {
    var m := s.sched.mem;
    && s.phase == Phase.Idle && s.sched.running == []
    && (s.sched.waiting != [] ==>
          && m.tree.Keys == {[]} && m.blockSize >= 1
          && |m.free| < CeilDiv(|s.sched.waiting[0].promptTokens|, m.blockSize))
  }

  /** Each unit of room for output weighs as much as a full cache; each cached node weighs one. */
  ghost function Potential(s: System): int {
    Measure(s) * (s.sched.mem.capacity + 1) + |s.sched.mem.tree| - 1
  }

  lemma Lighter(measure: int, less: int, capacity: nat, nodes: nat, after: nat)
    requires less <= measure && 1 <= after <= capacity + 1 && 1 <= nodes
    ensures less < measure ==> less * (capacity + 1) + after - 1 <= measure * (capacity + 1) + nodes - 2
    ensures after <= nodes ==> less * (capacity + 1) + after - 1 <= measure * (capacity + 1) + nodes - 1
    ensures after < nodes ==> less * (capacity + 1) + after - 1 <= measure * (capacity + 1) + nodes - 2
  {
    var c := capacity + 1;
    assert measure * c == less * c + (measure - less) * c;
    if less < measure {
      assert (measure - less) * c == c + (measure - less - 1) * c;
      assert (measure - less - 1) * c >= 0;
    }
  }

  lemma MemOfInv(s: System)
    requires Inv(s)
    ensures Sound(s.sched.mem) && Covers(s.sched.mem)
  {
  }

  lemma PotentialNonnegative(s: System)
    requires Inv(s)
    ensures Potential(s) >= 0 && 1 <= |s.sched.mem.tree| <= s.sched.mem.capacity + 1
  {
    hide Inv, Sound, Covers, Measure;
    MemOfInv(s);
    RoomInState(s);
    NodesFit(s.sched.mem);
    assert Measure(s) * (s.sched.mem.capacity + 1) >= 0;
  }

  lemma {:induction false} ExpiryRoom(rs: seq<Request>, now: nat)
    requires forall r | r in rs :: Room(r) >= 1
    ensures TotalRoom(Unexpired(rs, now)) <= TotalRoom(rs) - |ExpiredIds(rs, now)|
  {
    if rs != [] {
      hide Room, Expired;
      var init, last := rs[..|rs| - 1], rs[|rs| - 1];
      ExpiryRoom(init, now);
      assert last in rs;
      if Expired(last, now) {
        assert Unexpired(rs, now) == Unexpired(init, now);
      } else {
        TotalRoomConcat(Unexpired(init, now), [last]);
      }
    }
  }

  /** A request that expires while running takes at least one unit of room with it. */
  lemma PlanMeasure(s: System, now: nat, ev: Evictions)
    requires Inv(s) && Enabled(s, PlanBatch(now, ev))
    ensures Measure(Next(s, PlanBatch(now, ev))) <= Measure(s) - |ExpiredIds(s.sched.running, now)|
  {
    hide Inv, Sound, PermittedSchedule, Schedule, Unexpired, SameRooms, TotalRoom, ExpiredIds;
    ConfigOk(s);
    RoomInState(s);
    RunningRoom(s);
    var pl := Schedule(s.sched, now, ev);
    ScheduleRooms(s.sched, now, ev);
    SameTotal(pl.running + pl.waiting, Unexpired(s.sched.running, now) + Unexpired(s.sched.waiting, now));
    TotalRoomConcat(pl.running, pl.waiting);
    TotalRoomConcat(Unexpired(s.sched.running, now), Unexpired(s.sched.waiting, now));
    ExpiryRoom(s.sched.running, now);
    UnexpiredRoom(s.sched.waiting, now);
  }

  lemma RunningRoom(s: System)
    requires Inv(s)
    ensures forall r | r in s.sched.running :: Room(r) >= 1
  {
    hide MemOk, FedExact, GoneOk, PlanOk, CursorExact, Unstopped, AllIds, Limit;
    forall r | r in s.sched.running
      ensures Room(r) >= 1
    {
      assert RunningOk(r, s.sched.config);
    }
  }

  /** The state a plan leaves when it starts no batch. */
  lemma IdlePlan(s: System, now: nat, ev: Evictions)
    requires Inv(s) && Enabled(s, PlanBatch(now, ev)) && Next(s, PlanBatch(now, ev)).phase == Phase.Idle
    requires ExpiredIds(s.sched.running, now) == []
    ensures var u := Next(s, PlanBatch(now, ev));
      Drained(u) || |u.sched.mem.tree| < |s.sched.mem.tree|
  {
    hide Inv, Sound, PermittedSchedule, Schedule, Unexpired, ExpiredIds, AllocateWithPrefix, PermittedAllocate, CeilDiv,
         Obtainable, NewBlocksNeeded;
    ConfigOk(s);
    var u, pl := Next(s, PlanBatch(now, ev)), Schedule(s.sched, now, ev);
    ScheduleProgress(s.sched, now, ev);
    if pl.waiting != [] {
      EmptyPlan(s.sched, now, ev);
      NothingFreed(s.sched, now, ev);
      var w := pl.waiting[0];
      AllocationNodes(s.sched.mem, w.id, w.promptTokens, ev.refusing);
      RefusalSize(s.sched.mem, w.id, w.promptTokens, ev.refusing);
      NextKeepsInv(s, PlanBatch(now, ev));
      ConfigOk(u);
      TreeSizes(u.sched.mem);
    }
  }

  lemma NothingFreed(s: State, now: nat, ev: Evictions)
    requires Sound(s.mem) && PermittedSchedule(s, now, ev) && ExpiredIds(s.running, now) == []
    ensures FreeAll(s.mem, ExpiredIds(s.running, now), ev.expiring) == s.mem
  {
    hide Sound, PermittedAdmissions, PermittedEnd, PlanRunning, Admissions, ExpiredIds;
  }

  /** A plan never adds potential; one that starts no batch drains the engine or uses some up. */
  lemma PlanPotential(s: System, now: nat, ev: Evictions)
    requires Inv(s) && Enabled(s, PlanBatch(now, ev))
    ensures var u := Next(s, PlanBatch(now, ev));
      && Potential(u) <= Potential(s)
      && (u.phase == Phase.Idle ==> Drained(u) || Potential(u) < Potential(s))
  {
    hide Inv, Enabled, Next, Sound, Measure, Drained, ExpiredIds, PermittedFrees, FreeAll;
    ConfigOk(s);
    var e := PlanBatch(now, ev);
    var u := Next(s, e);
    PlanFrame(s, now, ev);
    NextKeepsInv(s, e);
    PotentialNonnegative(s);
    PotentialNonnegative(u);
    PlanMeasure(s, now, ev);
    PlanLighter(s, u, |ExpiredIds(s.sched.running, now)|);
    if ExpiredIds(s.sched.running, now) == [] && u.phase == Phase.Idle {
      IdlePlan(s, now, ev);
    }
  }

  lemma PlanLighter(s: System, u: System, expired: nat)
    requires u.sched.mem.capacity == s.sched.mem.capacity && Measure(u) <= Measure(s) - expired
    requires 1 <= |s.sched.mem.tree| && 1 <= |u.sched.mem.tree| <= u.sched.mem.capacity + 1
    ensures expired > 0 || |u.sched.mem.tree| < |s.sched.mem.tree| ==> Potential(u) < Potential(s)
    ensures |u.sched.mem.tree| <= |s.sched.mem.tree| ==> Potential(u) <= Potential(s)
  {
    hide Measure;
    Lighter(Measure(s), Measure(u), s.sched.mem.capacity, |s.sched.mem.tree|, |u.sched.mem.tree|);
  }

  lemma PlanFrame(s: System, now: nat, ev: Evictions)
    requires Inv(s) && Enabled(s, PlanBatch(now, ev))
    ensures var u := Next(s, PlanBatch(now, ev)).sched.mem;
      && u.capacity == s.sched.mem.capacity
      && (ExpiredIds(s.sched.running, now) == [] ==> |u.tree| <= |s.sched.mem.tree|)
  {
    hide Inv, Sound, Schedule, ExpiredIds, PermittedSchedule;
    ConfigOk(s);
    ScheduleNodes(s.sched, now, ev);
    if ExpiredIds(s.sched.running, now) == [] {
      NothingFreed(s.sched, now, ev);
    }
  }

  /** A commit uses up potential, whatever it files in the cache. */
  lemma CommitPotential(s: System, tokens: seq<Token>, pss: seq<seq<Path>>)
    requires Inv(s) && Enabled(s, CommitBatch(tokens, pss))
    ensures Potential(Next(s, CommitBatch(tokens, pss))) < Potential(s)
  {
    hide Inv, Enabled, Next, Sound, Measure;
    ConfigOk(s);
    var e := CommitBatch(tokens, pss);
    var u := Next(s, e);
    NextKeepsInv(s, e);
    CommitRoom(s, tokens, pss);
    CommitCapacity(s, tokens, pss);
    PotentialNonnegative(s);
    PotentialNonnegative(u);
    Lighter(Measure(s), Measure(u), s.sched.mem.capacity, |s.sched.mem.tree|, |u.sched.mem.tree|);
  }

  lemma CommitCapacity(s: System, tokens: seq<Token>, pss: seq<seq<Path>>)
    requires Inv(s) && Enabled(s, CommitBatch(tokens, pss))
    ensures Next(s, CommitBatch(tokens, pss)).sched.mem.capacity == s.sched.mem.capacity
  {
    hide Inv, Next, Sound, PermittedFrees, FreeAll, Computed, FinishedRequests, Ids, Items, Committed, PermittedCommit;
    ConfigOk(s);
    CommitPermitted(s, tokens, pss);
    var rs := Computed(s.sched.running, s.phase.plan.toPrefill, Results(Items(s), tokens), s.sched.config);
    FreeAllBlockSize(s.sched.mem, Ids(FinishedRequests(rs)), pss);
  }

  // ---------------------------------------------------------------- runs without arrivals

  function Plans(es: seq<Event>): nat {
    if es == [] then 0 else (if es[0].PlanBatch? then 1 else 0) + Plans(es[1..])
  }

  ghost predicate NoArrivals(es: seq<Event>) {
    forall i | 0 <= i < |es| :: !es[i].Arrive?
  }

  /** How many plans are still to come before the engine must have drained: a batch under way pays for one. */
  ghost function Fuel(s: System): int {
    if s.phase.Computing? then Potential(s) - 1 else Potential(s)
  }

  lemma StepFuel(s: System, e: Event)
    requires Inv(s) && Enabled(s, e) && !e.Arrive?
    ensures var u := Next(s, e);
      if e.PlanBatch? then Drained(u) || Fuel(u) < Fuel(s) else Fuel(u) <= Fuel(s)
  {
    hide Inv, Potential, Drained, Sound, PermittedSchedule, PermittedCommit, Schedule, Commit;
    ConfigOk(s);
    match e
    case Arrive(r) =>
    case PlanBatch(now, ev) => PlanPotential(s, now, ev);
    case CommitBatch(tokens, pss) => CommitPotential(s, tokens, pss);
  }

  lemma PrefixRun(s: System, e: Event, es: seq<Event>, k: nat)
    requires Inv(s) && Enabled(s, e) && k <= |es| && Inv(Next(s, e)) && Legal(Next(s, e), es[..k])
    ensures Legal(s, ([e] + es)[..k + 1]) && After(s, ([e] + es)[..k + 1]) == After(Next(s, e), es[..k])
  {
    hide Inv, Enabled, Next, Legal, After;
    assert ([e] + es)[..k + 1] == [e] + es[..k];
    ServingRuns.RunCons(s, e, es[..k]);
  }

  /**
   * Drain, if `schedule` is called that often: a run without arrivals that plans more often than the potential of its
   * first state comes through a state in which nothing runs and either nothing waits or the cache is used up and the
   * front request needs more than is free.
   */
  lemma {:induction false} DrainReached(s: System, es: seq<Event>) returns (k: nat)
    requires Inv(s) && Legal(s, es) && NoArrivals(es) && Plans(es) > Fuel(s)
    ensures k <= |es| && Legal(s, es[..k]) && Drained(After(s, es[..k]))
    decreases |es|
  {
    hide Inv, Enabled, Next, Drained, Potential;
    FuelNonnegative(s);
    var e, rest := es[0], es[1..];
    ConfigOk(s);
    NextKeepsInv(s, e);
    StepFuel(s, e);
    var u := Next(s, e);
    assert [e] + rest == es;
    if e.PlanBatch? && Drained(u) {
      k := 0;
      assert rest[..0] == [];
    } else {
      k := DrainReached(u, rest);
    }
    PrefixRun(s, e, rest, k);
    k := k + 1;
  }

  lemma {:induction false} RoomForEach(rs: seq<Request>)
    requires forall r | r in rs :: Room(r) >= 1
    ensures TotalRoom(rs) >= |rs|
  {
    if rs != [] {
      hide Room;
      assert rs[|rs| - 1] in rs;
      RoomForEach(rs[..|rs| - 1]);
    }
  }

  /** With a batch under way somebody runs. */
  lemma BusyRuns(s: System)
    requires Inv(s) && s.phase.Computing?
    ensures s.sched.running != []
  {
    hide MemOk, RunningOk, FedExact, GoneOk, Unstarted, AllIds, Sum, PrefillChunks;
  }

  lemma FuelNonnegative(s: System)
    requires Inv(s)
    ensures Fuel(s) >= 0
  {
    hide Inv, TotalRoom;
    PotentialNonnegative(s);
    if s.phase.Computing? {
      BusyRuns(s);
      RunningRoom(s);
      RoomForEach(s.sched.running);
      RoomInState(s);
      WaitingRoom(s);
      assert Measure(s) * (s.sched.mem.capacity + 1) >= 1;
    }
  }

  lemma WaitingRoom(s: System)
    requires Inv(s)
    ensures TotalRoom(s.sched.waiting) >= 0
  {
    hide Inv;
    RoomInState(s);
    TotalRoomNonnegative(s.sched.waiting);
  }

  /** An empty plan leaves nothing running. */
  lemma EmptyPlanIdle(s: System, now: nat, ev: Evictions)
    requires Inv(s) && Enabled(s, PlanBatch(now, ev))
    ensures var u := Next(s, PlanBatch(now, ev)); u.phase.Idle? <==> u.sched.running == []
  {
    hide Inv, Sound, PermittedSchedule, Schedule;
    ConfigOk(s);
    ScheduleProgress(s.sched, now, ev);
  }

  // ---------------------------------------------------------------- such runs exist

  lemma {:induction false} FreesPossible(m: Mem, ids: seq<RequestId>) returns (pss: seq<seq<Path>>)
    requires Sound(m)
    ensures PermittedFrees(m, ids, pss)
  {
    hide Sound, PermittedFree, Free;
    pss := [];
    if ids != [] {
      var init := FreesPossible(m, ids[..|ids| - 1]);
      var ps := ServingEarly.FreePermitted(FreeAll(m, ids[..|ids| - 1], init), ids[|ids| - 1]);
      pss := init + [ps];
      assert pss[..|pss| - 1] == init;
    }
  }

  lemma AllocationPossible(m: Mem, prompt: seq<Token>) returns (ps: seq<Path>)
    requires Sound(m)
    ensures PermittedAllocate(m, prompt, ps)
  {
    hide WellFormed, EvictRun, TreeBlocks, Walk, Label, PathBlocks;
    SoundFits(m);
    ps := [];
    if MustEvict(m, prompt) {
      TouchedKeepsContents(m.tree, Hit(m, prompt), m.clock);
      ps := EvictRunExists(Pin(m, prompt).tree, m.capacity);
    }
  }

  lemma {:induction false} AdmissionsPossible(pl: Plan, config: Config, pss: seq<seq<Path>>)
    returns (admitting: seq<seq<Path>>, refusing: seq<Path>)
    requires Sound(pl.mem) && PermittedAdmissions(pl, config, pss)
    ensures PermittedAdmissions(pl, config, admitting)
    ensures PermittedEnd(Admissions(pl, config, admitting), config, refusing)
    decreases |Admissions(pl, config, pss).waiting|
  {
    hide Sound, PermittedAllocate, AllocateWithPrefix;
    var v := Admissions(pl, config, pss);
    admitting, refusing := pss, [];
    if Tries(v, config) {
      var ps := AllocationPossible(v.mem, v.waiting[0].promptTokens);
      if Try(v, config, ps).result.None? {
        refusing := ps;
      } else {
        assert (pss + [ps])[..|pss|] == pss;
        admitting, refusing := AdmissionsPossible(pl, config, pss + [ps]);
      }
    }
  }

  lemma PlanPossible(s: State, now: nat) returns (ev: Evictions)
    requires Sound(s.mem)
    ensures PermittedSchedule(s, now, ev)
  {
    hide Sound, PermittedFrees, PermittedAdmissions, Admissions, PermittedEnd, PlanRunning;
    var expiring := FreesPossible(s.mem, ExpiredIds(s.running, now));
    PassesKeepMem(s, now, expiring);
    var pl := PlanRunning(s, now, expiring);
    assert PermittedAdmissions(pl, s.config, []) by {
      NobodyAdmitted(pl, s.config);
    }
    var admitting, refusing := AdmissionsPossible(pl, s.config, []);
    ev := Evictions(expiring, admitting, refusing);
  }

  lemma NobodyAdmitted(pl: Plan, config: Config)
    requires Sound(pl.mem)
    ensures PermittedAdmissions(pl, config, []) && Admissions(pl, config, []) == pl
  {
  }

  lemma CommitPossible(s: System, tokens: seq<Token>) returns (pss: seq<seq<Path>>)
    requires Inv(s) && s.phase.Computing? && |tokens| == |Items(s)|
    ensures Sound(s.sched.mem) && Enabled(s, CommitBatch(tokens, pss))
  {
    hide Inv, Sound, PermittedFrees, PermittedFinishes, Computed, Items, NoDup, Ids, FinishedRequests, Results;
    ConfigOk(s);
    DistinctEverywhere(s);
    BatchOf(s, tokens);
    var results := Results(Items(s), tokens);
    var rs := Computed(s.sched.running, s.phase.plan.toPrefill, results, s.sched.config);
    ComputedFacts(s.sched.running, s.phase.plan.toPrefill, results, s.sched.config);
    FinishedIdsDistinct(rs);
    var ids := Ids(FinishedRequests(rs));
    pss := FreesPossible(s.sched.mem, ids);
    FreesLength(s.sched.mem, ids, pss);
    FinishEachFacts(Live(rs, s.sched.mem), ids, pss);
  }

  lemma FreesLength(m: Mem, ids: seq<RequestId>, pss: seq<seq<Path>>)
    requires Sound(m) && PermittedFrees(m, ids, pss)
    ensures |pss| == |ids|
  {
  }

  lemma NextPossible(s: System, now: nat) returns (e: Event)
    requires Inv(s)
    ensures Sound(s.sched.mem) && Enabled(s, e) && !e.Arrive? && (e.PlanBatch? <==> s.phase.Idle?)
  {
    hide Inv, Sound, PermittedSchedule, PermittedCommit, Items;
    ConfigOk(s);
    if s.phase.Idle? {
      var ev := PlanPossible(s.sched, now);
      e := PlanBatch(now, ev);
    } else {
      var tokens := seq(|Items(s)|, _ => 0);
      var pss := CommitPossible(s, tokens);
      e := CommitBatch(tokens, pss);
    }
  }

  /** No call blocks: calling `schedule` again whenever nothing runs, and committing, gets there from every state. */
  lemma {:induction false} DrainPossible(s: System, now: nat) returns (es: seq<Event>)
    requires Inv(s)
    ensures Legal(s, es) && NoArrivals(es) && Drained(After(s, es))
    decreases Fuel(s), if s.phase.Computing? then 1 else 0
  {
    hide Inv, Enabled, Drained, Potential, Sound, Schedule, Commit, PermittedSchedule, PermittedCommit;
    FuelNonnegative(s);
    var e := NextPossible(s, now);
    NextKeepsInv(s, e);
    StepFuel(s, e);
    CommitIdles(s, e);
    var u := Next(s, e);
    hide Next, Fuel;
    var rest: seq<Event> := [];
    if e.PlanBatch? && Drained(u) {
      StopHere(u);
    } else {
      rest := DrainPossible(u, now);
    }
    ServingRuns.RunCons(s, e, rest);
    es := [e] + rest;
  }

  lemma CommitIdles(s: System, e: Event)
    requires Sound(s.sched.mem) && Enabled(s, e)
    ensures e.CommitBatch? ==> s.phase.Computing? && Next(s, e).phase == Phase.Idle
  {
    hide Sound, PermittedSchedule, PermittedCommit, Schedule, Commit;
  }

  lemma StopHere(s: System)
    requires Inv(s)
    ensures Legal(s, []) && After(s, []) == s
  {
  }
}
