/**
 * Progress of the serving loop: every committed batch uses up room in the outputs, of which there is a bounded amount.
 */
module ServingProgress {
  import opened Types
  import opened RadixTrie
  import opened BlockAccounting
  import opened SchedulerModel
  import opened SchedulerPlan
  import opened SchedulerCommit
  import opened ServingSystem
  import opened ServingSteps
  import opened ServingRuns

  /** Tokens a request may still generate. */
  function Room(r: Request): int {
    Limit(r) - |r.generatedTokens|
  }

  function TotalRoom(rs: seq<Request>): int {
    if rs == [] then 0 else TotalRoom(rs[..|rs| - 1]) + Room(rs[|rs| - 1])
  }

  /** The measure of a state: room left in all requests that have not left. */
  function Measure(s: System): int {
    TotalRoom(s.sched.running) + TotalRoom(s.sched.waiting)
  }

  ghost predicate SameRooms(a: seq<Request>, b: seq<Request>) {
    |a| == |b| && forall i | 0 <= i < |a| :: Room(a[i]) == Room(b[i])
  }

  lemma {:induction false} SameTotal(a: seq<Request>, b: seq<Request>)
    requires SameRooms(a, b)
    ensures TotalRoom(a) == TotalRoom(b)
  {
    if a != [] {
      SameTotal(a[..|a| - 1], b[..|b| - 1]);
    }
  }

  lemma {:induction false} TotalRoomConcat(a: seq<Request>, b: seq<Request>)
    ensures TotalRoom(a + b) == TotalRoom(a) + TotalRoom(b)
  {
    if b == [] {
      assert a + b == a;
    } else {
      assert (a + b)[..|a + b| - 1] == a + b[..|b| - 1];
      TotalRoomConcat(a, b[..|b| - 1]);
    }
  }

  ghost predicate RoomLeft(rs: seq<Request>) {
    forall r | r in rs :: Room(r) >= 0
  }

  lemma {:induction false} TotalRoomNonnegative(rs: seq<Request>)
    requires RoomLeft(rs)
    ensures TotalRoom(rs) >= 0
  {
    if rs != [] {
      assert rs[|rs| - 1] in rs;
      TotalRoomNonnegative(rs[..|rs| - 1]);
    }
  }

  lemma {:induction false} UnexpiredRoom(rs: seq<Request>, now: nat)
    requires RoomLeft(rs)
    ensures TotalRoom(Unexpired(rs, now)) <= TotalRoom(rs)
  {
    if rs != [] {
      var init, last := rs[..|rs| - 1], rs[|rs| - 1];
      UnexpiredRoom(init, now);
      assert last in rs;
      if Expired(last, now) {
        assert Unexpired(rs, now) == Unexpired(init, now);
      } else {
        TotalRoomConcat(Unexpired(init, now), [last]);
      }
    }
  }

  lemma {:induction false} UnfinishedRoom(rs: seq<Request>)
    requires RoomLeft(rs)
    ensures TotalRoom(Unfinished(rs)) <= TotalRoom(rs)
  {
    if rs != [] {
      var init, last := rs[..|rs| - 1], rs[|rs| - 1];
      UnfinishedRoom(init);
      assert last in rs;
      if Finished(last) {
        assert Unfinished(rs) == Unfinished(init);
      } else {
        TotalRoomConcat(Unfinished(init), [last]);
      }
    }
  }

  lemma RoomInState(s: System)
    requires Inv(s)
    ensures RoomLeft(s.sched.running) && RoomLeft(s.sched.waiting) && Measure(s) >= 0
  {
    hide MemOk, FedExact, GoneOk, PlanOk, CursorExact, Unstopped, TotalRoom, AllIds;
    TotalRoomNonnegative(s.sched.running);
    TotalRoomNonnegative(s.sched.waiting);
  }

  // ---------------------------------------------------------------- planning does not add room

  lemma ScheduleRooms(s: State, now: nat, ev: Evictions)
    requires Sound(s.mem) && PermittedSchedule(s, now, ev) && s.config.maxPrefillChunkSize >= 1
    ensures var u := Schedule(s, now, ev);
      SameRooms(u.running + u.waiting, Unexpired(s.running, now) + Unexpired(s.waiting, now))
  {
    hide Sound, Exact, PermittedTry, PermittedFrees, PermittedAdmissions, ExpiredIds, Admissions, PlanRunning, FreeAll,
         AllocateWithPrefix, Unexpired;
    PlanRunningFacts(s, now, ev.expiring);
    var pl := PlanRunning(s, now, ev.expiring);
    AdmissionsFacts(pl, s.config, ev.admitting);
    var u, running, waiting := Schedule(s, now, ev), Unexpired(s.running, now), Unexpired(s.waiting, now);
    forall i | 0 <= i < |u.running + u.waiting|
      ensures Room((u.running + u.waiting)[i]) == Room((running + waiting)[i])
    {
      if i < |running| {
        assert u.running[i] == u.running[..|running|][i];
      } else if i < |u.running| {
        assert u.running[|running| + (i - |running|)] == Started(waiting[i - |running|], u.running[i].cachedPrefixLen);
      }
    }
  }

  lemma PlanRoom(s: System, now: nat, ev: Evictions)
    requires Inv(s) && Enabled(s, PlanBatch(now, ev))
    ensures Measure(Next(s, PlanBatch(now, ev))) <= Measure(s)
  {
    hide Inv, Sound, PermittedSchedule, Schedule, Unexpired, SameRooms, TotalRoom;
    ConfigOk(s);
    RoomInState(s);
    var pl := Schedule(s.sched, now, ev);
    ScheduleRooms(s.sched, now, ev);
    SameTotal(pl.running + pl.waiting, Unexpired(s.sched.running, now) + Unexpired(s.sched.waiting, now));
    TotalRoomConcat(pl.running, pl.waiting);
    TotalRoomConcat(Unexpired(s.sched.running, now), Unexpired(s.sched.waiting, now));
    UnexpiredRoom(s.sched.running, now);
    UnexpiredRoom(s.sched.waiting, now);
  }

  // ---------------------------------------------------------------- a commit uses one unit of room per batched request

  lemma {:induction false} UpdateRoom(rs: seq<Request>, i: nat, r: Request)
    requires i < |rs|
    ensures TotalRoom(rs[i := r]) == TotalRoom(rs) - Room(rs[i]) + Room(r)
  {
    if i < |rs| - 1 {
      assert rs[i := r][..|rs| - 1] == rs[..|rs| - 1][i := r];
      UpdateRoom(rs[..|rs| - 1], i, r);
    } else {
      assert rs[i := r][..|rs| - 1] == rs[..|rs| - 1];
    }
  }

  lemma {:induction false} PushRoom(rs: seq<Request>, results: seq<ComputeResult>)
    requires NoDup(Ids(rs)) && NoDup(ResultIds(results)) && forall id | id in ResultIds(results) :: id in Ids(rs)
    ensures TotalRoom(PushTokens(rs, results)) == TotalRoom(rs) - |results|
  {
    if results != [] {
      var init, last := results[..|results| - 1], results[|results| - 1];
      assert ResultIds(results) == ResultIds(init) + [last.reqId];
      NoDupParts(ResultIds(init), [last.reqId]);
      PushRoom(rs, init);
      PushTokensFacts(rs, init);
      var before := PushTokens(rs, init);
      var i := IndexOf(before, last.reqId);
      assert last.reqId in Ids(before);
      UpdateRoom(before, i.value, before[i.value].(generatedTokens := before[i.value].generatedTokens + [last.token]));
    }
  }

  lemma ComputedRoom(rs: seq<Request>, toPrefill: seq<RequestId>, results: seq<ComputeResult>, config: Config)
    requires NoDup(Ids(rs)) && NoDup(ResultIds(results)) && NoDup(toPrefill)
    requires forall id | id in ResultIds(results) :: id in Ids(rs)
    ensures TotalRoom(Computed(rs, toPrefill, results, config)) == TotalRoom(rs) - |results|
  {
    PushRoom(rs, results);
    PushTokensFacts(rs, results);
    var pushed := PushTokens(rs, results);
    AdvanceCursorsFacts(pushed, toPrefill, config);
    SameTotal(AdvanceCursors(pushed, toPrefill, config), pushed);
  }

  lemma CommitRoom(s: System, tokens: seq<Token>, pss: seq<seq<Path>>)
    requires Inv(s) && Enabled(s, CommitBatch(tokens, pss))
    ensures Measure(Next(s, CommitBatch(tokens, pss))) <= Measure(s) - |tokens| && |tokens| >= 1
  {
    hide MemOk, Sound, RunningOk, FedExact, CursorExact, Unstopped, Unstarted, NoDup, AllIds, Ids, Results, Batch, Feed,
         Computed, PermittedFrees, FreeAll, PermittedCommit, Commit, Finished, TotalRoom, Exact;
    ConfigOk(s);
    BatchOf(s, tokens);
    DistinctEverywhere(s);
    var results := Results(Items(s), tokens);
    ComputedRoom(s.sched.running, s.phase.plan.toPrefill, results, s.sched.config);
    CommitPermitted(s, tokens, pss);
    UnfinishedRoom(Computed(s.sched.running, s.phase.plan.toPrefill, results, s.sched.config));
    assert |ItemIds(Items(s))| == |tokens|;
  }

  // ---------------------------------------------------------------- runs

  function Commits(es: seq<Event>): nat {
    if es == [] then 0 else (if es[0].CommitBatch? then 1 else 0) + Commits(es[1..])
  }

  /** Tokens generated over the events. */
  function Generated(es: seq<Event>): nat {
    if es == [] then 0 else (if es[0].CommitBatch? then |es[0].tokens| else 0) + Generated(es[1..])
  }

  /** Room brought in by arrivals. */
  function Arriving(es: seq<Event>): nat {
    if es == [] then 0 else (if es[0].Arrive? then Limit(es[0].r) else 0) + Arriving(es[1..])
  }

  lemma NextRoom(s: System, e: Event)
    requires Inv(s) && Enabled(s, e)
    ensures Commits([e]) <= Generated([e])
    ensures Measure(Next(s, e)) + Generated([e]) <= Measure(s) + Arriving([e])
  {
    hide Inv, Sound, PermittedSchedule, PermittedCommit;
    match e
    case Arrive(r) => TotalRoomConcat(s.sched.waiting, [r]);
    case PlanBatch(now, ev) => PlanRoom(s, now, ev);
    case CommitBatch(tokens, pss) => CommitRoom(s, tokens, pss);
  }

  /**
   * Drain: over any run, the nonempty iterations and the tokens generated are bounded by the room there was at the
   * start plus the room arrivals brought. With no arrivals the bound is the initial measure.
   */
  lemma {:induction false} DrainBound(s: System, es: seq<Event>)
    requires Inv(s) && Legal(s, es)
    ensures Commits(es) <= Generated(es)
    ensures 0 <= Measure(After(s, es)) <= Measure(s) + Arriving(es) - Generated(es)
    decreases |es|
  {
    hide Inv, Enabled, Next, Measure;
    if es == [] {
      RoomInState(s);
    } else {
      ConfigOk(s);
      NextKeepsInv(s, es[0]);
      NextRoom(s, es[0]);
      DrainBound(Next(s, es[0]), es[1..]);
    }
  }
}
