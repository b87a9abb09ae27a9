/** First come, first served over whole runs: the live requests always stand in the order of their arrival. */
module ServingOrder {
  import opened Types
  import opened RadixTrie
  import opened BlockAccounting
  import opened SchedulerModel
  import opened SchedulerPlan
  import opened SchedulerCommit
  import opened ServingSystem
  import opened ServingMemory
  import opened ServingSteps
  import opened ServingRuns

  /** The ids not listed in `out`, in order. */
  function Kept(ids: seq<RequestId>, out: seq<RequestId>): seq<RequestId> {
    if ids == [] then []
    else Kept(ids[..|ids| - 1], out) + if ids[|ids| - 1] in out then [] else [ids[|ids| - 1]]
  }

  /** Running then waiting requests are the arrived ones in order of arrival, those that left taken out. */
  ghost predicate InOrder(s: System) {
    Ids(s.sched.running) + Ids(s.sched.waiting) == Kept(s.arrived, Ids(s.gone))
  }

  lemma KeptSnoc(ids: seq<RequestId>, id: RequestId, out: seq<RequestId>)
    ensures Kept(ids + [id], out) == Kept(ids, out) + if id in out then [] else [id]
  {
    assert (ids + [id])[..|ids|] == ids;
  }

  lemma {:induction false} KeptTwice(ids: seq<RequestId>, a: seq<RequestId>, b: seq<RequestId>)
    ensures Kept(Kept(ids, a), b) == Kept(ids, a + b)
  {
    if ids != [] {
      var init, last := ids[..|ids| - 1], ids[|ids| - 1];
      KeptTwice(init, a, b);
      assert Kept(init, a) + [] == Kept(init, a);
      KeptSnoc(Kept(init, a), last, b);
    }
  }

  lemma {:induction false} KeptConcat(a: seq<RequestId>, b: seq<RequestId>, out: seq<RequestId>)
    ensures Kept(a + b, out) == Kept(a, out) + Kept(b, out)
  {
    if b == [] {
      assert a + b == a;
    } else {
      KeptConcat(a, b[..|b| - 1], out);
      assert a + b == a + b[..|b| - 1] + [b[|b| - 1]];
      KeptSnoc(a + b[..|b| - 1], b[|b| - 1], out);
    }
  }

  lemma {:induction false} KeptAll(ids: seq<RequestId>, out: seq<RequestId>)
    requires forall id | id in ids :: id !in out
    ensures Kept(ids, out) == ids
  {
    if ids != [] {
      KeptAll(ids[..|ids| - 1], out);
      assert ids == ids[..|ids| - 1] + [ids[|ids| - 1]];
    }
  }

  lemma {:induction false} UnexpiredKept(rs: seq<Request>, now: nat, out: seq<RequestId>)
    requires forall r | r in rs :: r.id in out <==> Expired(r, now)
    ensures Ids(Unexpired(rs, now)) == Kept(Ids(rs), out)
  {
    if rs != [] {
      hide Expired, Ids;
      var init, last := rs[..|rs| - 1], rs[|rs| - 1];
      UnexpiredKept(init, now, out);
      assert rs == init + [last];
      IdsSnoc(init, last);
      KeptSnoc(Ids(init), last.id, out);
      if Expired(last, now) {
        assert Unexpired(rs, now) == Unexpired(init, now);
      } else {
        IdsSnoc(Unexpired(init, now), last);
      }
    }
  }

  lemma {:induction false} UnfinishedKept(rs: seq<Request>, out: seq<RequestId>)
    requires forall r | r in rs :: r.id in out <==> Finished(r)
    ensures Ids(Unfinished(rs)) == Kept(Ids(rs), out)
  {
    if rs != [] {
      hide Finished, Ids;
      var init, last := rs[..|rs| - 1], rs[|rs| - 1];
      UnfinishedKept(init, out);
      assert rs == init + [last];
      IdsSnoc(init, last);
      KeptSnoc(Ids(init), last.id, out);
      if Finished(last) {
        assert Unfinished(rs) == Unfinished(init);
      } else {
        IdsSnoc(Unfinished(init), last);
      }
    }
  }

  lemma {:induction false} ExpiredExactly(rs: seq<Request>, now: nat)
    requires NoDup(Ids(rs))
    ensures forall r | r in rs :: r.id in ExpiredIds(rs, now) <==> Expired(r, now)
    ensures forall id | id in ExpiredIds(rs, now) :: id in Ids(rs)
  {
    if rs != [] {
      hide Expired, Ids, NoDup;
      var init, last := rs[..|rs| - 1], rs[|rs| - 1];
      IdsInit(rs);
      ExpiredExactly(init, now);
      assert rs == init + [last];
      forall r | r in rs
        ensures r.id in ExpiredIds(rs, now) <==> Expired(r, now)
      {
        if r != last {
          IdOfMember(init, r);
        }
      }
    }
  }

  /** Both queues lose their expired requests. */
  lemma ExpiryKept(running: seq<Request>, waiting: seq<Request>, now: nat)
    requires NoDup(Ids(running)) && NoDup(Ids(waiting)) && forall id | id in Ids(running) :: id !in Ids(waiting)
    ensures Ids(Unexpired(running, now)) + Ids(Unexpired(waiting, now))
         == Kept(Ids(running) + Ids(waiting), ExpiredIds(running, now) + ExpiredIds(waiting, now))
  {
    hide Ids, NoDup, ExpiredIds, Unexpired, Expired;
    var out := ExpiredIds(running, now) + ExpiredIds(waiting, now);
    ExpiredExactly(running, now);
    ExpiredExactly(waiting, now);
    forall r | r in running
      ensures r.id in out <==> Expired(r, now)
    {
      IdOfMember(running, r);
    }
    forall r | r in waiting
      ensures r.id in out <==> Expired(r, now)
    {
      IdOfMember(waiting, r);
    }
    UnexpiredKept(running, now, out);
    UnexpiredKept(waiting, now, out);
    KeptConcat(Ids(running), Ids(waiting), out);
  }

  lemma DistinctWaiting(s: System)
    requires Inv(s)
    ensures NoDup(Ids(s.sched.running)) && NoDup(Ids(s.sched.waiting))
    ensures forall id | id in Ids(s.sched.running) :: id !in Ids(s.sched.waiting)
  {
    hide Inv, Ids;
    DistinctEverywhere(s);
    NoDupParts(Ids(s.sched.running), Ids(s.sched.waiting));
  }

  lemma PlanKeepsOrder(s: System, now: nat, ev: Evictions)
    requires Inv(s) && Enabled(s, PlanBatch(now, ev)) && InOrder(s)
    ensures InOrder(Next(s, PlanBatch(now, ev)))
  {
    hide Inv, Sound, Exact, PermittedSchedule, Ids, NoDup, Schedule, Unexpired, ExpiredIds, ExpiredRequests;
    ConfigOk(s);
    DistinctWaiting(s);
    var running, waiting := s.sched.running, s.sched.waiting;
    var gone, a, b := s.gone, ExpiredRequests(running, now), ExpiredRequests(waiting, now);
    ScheduleFacts(s.sched, now, ev);
    ExpiryKept(running, waiting, now);
    ExpirySplit(running, now);
    ExpirySplit(waiting, now);
    IdsConcat(gone + a, b);
    IdsConcat(gone, a);
    assert Ids(gone) + Ids(a) + Ids(b) == Ids(gone) + (Ids(a) + Ids(b));
    KeptTwice(s.arrived, Ids(gone), Ids(a) + Ids(b));
  }

  /** The finished requests are taken out of the running queue, and none of them waits. */
  lemma CommitKeepsOrder(s: System, tokens: seq<Token>, pss: seq<seq<Path>>)
    requires Inv(s) && Enabled(s, CommitBatch(tokens, pss)) && InOrder(s)
    ensures InOrder(Next(s, CommitBatch(tokens, pss)))
  {
    hide Inv, Sound, Ids, NoDup, Results, Batch, Feed, Computed, PermittedFrees, FreeAll, PermittedCommit, Commit,
         Finished, Committed, Unfinished, FinishedRequests;
    ConfigOk(s);
    DistinctWaiting(s);
    CommitPermitted(s, tokens, pss);
    var rs := Computed(s.sched.running, s.phase.plan.toPrefill, Results(Items(s), tokens), s.sched.config);
    var waiting, out := Ids(s.sched.waiting), Ids(FinishedRequests(rs));
    FinishedInIds(rs);
    FinishedIdsDistinct(rs);
    UnfinishedKept(rs, out);
    KeptAll(waiting, out);
    KeptConcat(Ids(rs), waiting, out);
    IdsConcat(s.gone, FinishedRequests(rs));
    KeptTwice(s.arrived, Ids(s.gone), out);
  }

  lemma FinishedInIds(rs: seq<Request>)
    requires NoDup(Ids(rs))
    ensures forall r | r in rs :: r.id in Ids(FinishedRequests(rs)) <==> Finished(r)
  {
    hide Finished, NoDup;
    var f := FinishedRequests(rs);
    forall r | r in rs
      ensures r.id in Ids(f) <==> Finished(r)
    {
      SplitFinished(rs, r);
      if Finished(r) {
        IdOfMember(f, r);
      }
      if r.id in Ids(f) {
        var i :| 0 <= i < |f| && Ids(f)[i] == r.id;
        SplitFinished(rs, f[i]);
        SameId(rs, r, f[i]);
      }
    }
  }

  lemma ArriveKeepsOrder(s: System, r: Request)
    requires Inv(s) && Enabled(s, Arrive(r)) && InOrder(s)
    ensures InOrder(Next(s, Arrive(r)))
  {
    hide Sound, Kept;
    KeptSnoc(s.arrived, r.id, Ids(s.gone));
    IdsSnoc(s.sched.waiting, r);
    GoneArrived(s, r.id);
  }

  lemma GoneArrived(s: System, id: RequestId)
    requires Inv(s) && id !in s.arrived
    ensures id !in Ids(s.gone)
  {
    hide MemOk, RunningOk, FedExact, GoneOk, PlanOk, Ids;
    assert id in Ids(s.gone) ==> id in multiset(AllIds(s));
  }

  /** Order is kept over every run. */
  lemma {:induction false} RunKeepsOrder(s: System, es: seq<Event>)
    requires Inv(s) && Legal(s, es) && InOrder(s)
    ensures InOrder(After(s, es))
    decreases |es|
  {
    hide Inv, Enabled, Next, InOrder;
    if es != [] {
      ConfigOk(s);
      NextKeepsInv(s, es[0]);
      match es[0] {
        case Arrive(r) => ArriveKeepsOrder(s, r);
        case PlanBatch(now, ev) => PlanKeepsOrder(s, now, ev);
        case CommitBatch(tokens, pss) => CommitKeepsOrder(s, tokens, pss);
      }
      RunKeepsOrder(Next(s, es[0]), es[1..]);
    }
  }

  /** FIFO over all runs of a new engine: no request ever overtakes an earlier one, in the queues or between them. */
  lemma ArrivalOrder(blockSize: nat, numBlocks: nat, config: Config, es: seq<Event>)
    requires blockSize >= 1 && config.maxTokensPerIter >= 1 && config.maxPrefillChunkSize >= 1
    requires Inv(Boot(blockSize, numBlocks, config)) && Legal(Boot(blockSize, numBlocks, config), es)
    ensures InOrder(After(Boot(blockSize, numBlocks, config), es))
  {
    hide Inv, Legal, After, Initial;
    assert InOrder(Boot(blockSize, numBlocks, config));
    hide InOrder, Boot;
    RunKeepsOrder(Boot(blockSize, numBlocks, config), es);
  }
}
