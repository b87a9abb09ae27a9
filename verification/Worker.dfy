/** The worker's two critical sections around the model call: building a batch, and committing its results. */
module WorkerModule {
  import opened Types
  import opened RadixTrie
  import opened RadixCacheModule
  import opened BlockAccounting
  import opened BlockManagerModule
  import opened SchedulerModel
  import opened SchedulerModule

  lemma ItemsStep(rs: seq<Request>, ids: seq<RequestId>, config: Config, i: nat)
    requires i < |ids|
    ensures PrefillItems(rs, ids[..i + 1], config) == PrefillItems(rs, ids[..i], config) +
      (match IndexOf(rs, ids[i]) case None => [] case Some(k) => PrefillItem(rs[k], config))
    ensures DecodeItems(rs, ids[..i + 1]) == DecodeItems(rs, ids[..i]) +
      (match IndexOf(rs, ids[i]) case None => [] case Some(k) => [DecodeItem(rs[k])])
  {
    assert ids[..i + 1][..i] == ids[..i];
  }

  lemma PushStep(rs: seq<Request>, results: seq<ComputeResult>, i: nat)
    requires i < |results|
    ensures var before := PushTokens(rs, results[..i]);
      PushTokens(rs, results[..i + 1]) ==
        match IndexOf(before, results[i].reqId)
        case None => before
        case Some(k) => before[k := before[k].(generatedTokens := before[k].generatedTokens + [results[i].token])]
  {
    assert results[..i + 1][..i] == results[..i];
  }

  lemma AdvanceStep(rs: seq<Request>, ids: seq<RequestId>, config: Config, i: nat)
    requires i < |ids|
    ensures var before := AdvanceCursors(rs, ids[..i], config);
      AdvanceCursors(rs, ids[..i + 1], config) ==
        match IndexOf(before, ids[i])
        case None => before
        case Some(k) => before[k := Advanced(before[k], config)]
  {
    assert ids[..i + 1][..i] == ids[..i];
  }

  lemma FinishStep(l: Live, ids: seq<RequestId>, pss: seq<seq<Path>>, i: nat, ps: seq<Path>)
    requires i < |ids| && Sound(l.mem) && PermittedFinishes(l, ids[..i], pss)
    requires PermittedFinish(FinishEach(l, ids[..i], pss), ids[i], ps)
    ensures PermittedFinishes(l, ids[..i + 1], pss + [ps])
    ensures FinishEach(l, ids[..i + 1], pss + [ps]) == FinishOne(FinishEach(l, ids[..i], pss), ids[i], ps)
  {
    hide Sound, PermittedFinish, FinishOne;
    assert ids[..i + 1][..i] == ids[..i] && (pss + [ps])[..|pss|] == pss;
  }

  lemma StartsEmpty(rs: seq<Request>, m: Mem, config: Config)
    ensures PrefillItems(rs, [], config) == [] && DecodeItems(rs, []) == []
    ensures PushTokens(rs, []) == rs && AdvanceCursors(rs, [], config) == rs
    ensures FinishedRequests([]) == []
    ensures Sound(m) ==> PermittedFinishes(Live(rs, m), [], []) && FinishEach(Live(rs, m), [], []) == Live(rs, m)
  {
  }

  lemma FinishedStep(rs: seq<Request>, i: nat)
    requires i < |rs|
    ensures Ids(FinishedRequests(rs[..i + 1])) == Ids(FinishedRequests(rs[..i])) + if Finished(rs[i]) then [rs[i].id]
      else []
  {
    assert rs[..i + 1][..i] == rs[..i];
  }

  class Worker {
    const scheduler: Scheduler

    ghost predicate Valid()
      reads scheduler, scheduler.blockManager, scheduler.blockManager.radixCache, scheduler.blockManager.radixCache.repr
    {
      scheduler.Valid()
    }

    constructor (scheduler: Scheduler)
      requires scheduler.Valid()
      ensures Valid() && this.scheduler == scheduler
    {
      this.scheduler := scheduler;
    }

    /** The work items for the requests selected by the scheduler. */
    method BuildBatch(toPrefill: seq<RequestId>, toDecode: seq<RequestId>) returns (batch: seq<WorkItem>)
      ensures batch
        == PrefillItems(scheduler.runningQueue, toPrefill, scheduler.config)
        + DecodeItems(scheduler.runningQueue, toDecode)
    {
      hide PrefillItems, DecodeItems, IndexOf;
      var rs, config := scheduler.runningQueue, scheduler.config;
      batch := [];
      StartsEmpty(rs, Initial(1, 0), config);
      for i := 0 to |toPrefill|
        invariant batch == PrefillItems(rs, toPrefill[..i], config)
      {
        ItemsStep(rs, toPrefill, config, i);
        var found := IndexOf(rs, toPrefill[i]);
        if found.Some? {
          var req := rs[found.value];
          var chunkStart := req.prefillCursor;
          if chunkStart < |req.promptTokens| {
            var remaining := |req.promptTokens| - chunkStart;
            var chunkSize := if remaining < config.maxPrefillChunkSize then remaining else config.maxPrefillChunkSize;
            var chunkEnd := chunkStart + chunkSize;
            batch := batch
              + [WorkItem(toPrefill[i], req.promptTokens[chunkStart..chunkEnd], chunkEnd
              == |req.promptTokens|, true, chunkStart == 0)];
          } else if req.cachedPrefixLen == |req.promptTokens| {
            batch := batch + [WorkItem(toPrefill[i], [LastOrZero(req.promptTokens)], true, true, false)];
          }
        }
      }
      assert toPrefill[..|toPrefill|] == toPrefill;
      ghost var prefills := batch;
      for i := 0 to |toDecode|
        invariant batch == prefills + DecodeItems(rs, toDecode[..i])
      {
        ItemsStep(rs, toDecode, config, i);
        var found := IndexOf(rs, toDecode[i]);
        if found.Some? {
          batch := batch + [WorkItem(toDecode[i], [LastOrZero(rs[found.value].generatedTokens)], false, false, false)];
        }
      }
      assert toDecode[..|toDecode|] == toDecode;
    }

    /** The first critical section: schedule and, unless there is nothing to do, build the batch. */
    method PlanBatch(now: nat)
      returns (toPrefill: seq<RequestId>, batch: seq<WorkItem>, ghost u: Plan, ghost ev: Evictions)
      requires Valid()
      modifies scheduler, scheduler.blockManager, scheduler.blockManager.radixCache,
        scheduler.blockManager.radixCache.repr
      ensures Valid()
      ensures Sound(old(scheduler.View()).mem) && PermittedSchedule(old(scheduler.View()), now, ev)
      ensures u == Schedule(old(scheduler.View()), now, ev)
      ensures scheduler.View() == State(u.waiting, u.running, u.mem, scheduler.config)
      ensures toPrefill == u.toPrefill && batch == Batch(u, scheduler.config)
    {
      hide Sound, PermittedSchedule, Schedule, PrefillItems, DecodeItems, RadixCache.Valid;
      var toDecode;
      toPrefill, toDecode, u, ev := scheduler.Schedule(now);
      if toPrefill == [] && toDecode == [] {
        StartsEmpty(u.running, Initial(1, 0), scheduler.config);
        return toPrefill, [], u, ev;
      }
      batch := BuildBatch(toPrefill, toDecode);
    }

    /** Pushes each sampled token to its request; a request no longer running is skipped. */
    method PushResults(results: seq<ComputeResult>)
      requires Valid()
      modifies scheduler`runningQueue
      ensures Valid() && scheduler.runningQueue == PushTokens(old(scheduler.runningQueue), results)
    {
      hide PushTokens, IndexOf, BlockManager.Valid;
      ghost var rs := scheduler.runningQueue;
      StartsEmpty(rs, Initial(1, 0), scheduler.config);
      for i := 0 to |results|
        invariant Valid() && scheduler.runningQueue == PushTokens(rs, results[..i])
      {
        PushStep(rs, results, i);
        var found := IndexOf(scheduler.runningQueue, results[i].reqId);
        if found.Some? {
          var req := scheduler.runningQueue[found.value];
          scheduler.runningQueue := scheduler.runningQueue[found.value := req.(generatedTokens := req.generatedTokens
            + [results[i].token])];
        }
      }
      assert results[..|results|] == results;
    }

    /** The ids of the running requests that reached their token limit or a stop sequence. */
    method CollectFinished() returns (finished: seq<RequestId>)
      ensures finished == Ids(FinishedRequests(scheduler.runningQueue))
    {
      hide FinishedRequests, Ids, Finished;
      var rs := scheduler.runningQueue;
      finished := [];
      assert rs[..0] == [] && Ids(FinishedRequests([])) == [] by {
        StartsEmpty(rs, Initial(1, 0), scheduler.config);
      }
      for i := 0 to |rs|
        invariant finished == Ids(FinishedRequests(rs[..i]))
      {
        FinishedStep(rs, i);
        if Finished(rs[i]) {
          finished := finished + [rs[i].id];
        }
      }
      assert rs[..|rs|] == rs;
    }

    /** The second critical section: record the tokens, advance the prefills, retire what is finished. */
    method CommitBatch(toPrefill: seq<RequestId>, results: seq<ComputeResult>) returns (ghost pss: seq<seq<Path>>)
      requires Valid()
      modifies scheduler, scheduler.blockManager, scheduler.blockManager.radixCache,
        scheduler.blockManager.radixCache.repr
      ensures Valid()
      ensures Sound(old(scheduler.View()).mem) && PermittedCommit(old(scheduler.View()), toPrefill, results, pss)
      ensures scheduler.View() == Commit(old(scheduler.View()), toPrefill, results, pss)
    {
      hide Sound, PushTokens, AdvanceCursors, FinishedRequests, PermittedFinishes, FinishEach, IndexOf,
           RadixCache.Valid;
      ghost var s := scheduler.View();
      PushResults(results);
      ghost var pushed := scheduler.runningQueue;
      StartsEmpty(pushed, s.mem, s.config);
      for i := 0 to |toPrefill|
        invariant Valid() && scheduler.blockManager.View() == s.mem && scheduler.waitingQueue == s.waiting
        invariant scheduler.blockManager.radixCache.repr == old(scheduler.blockManager.radixCache.repr)
        invariant scheduler.runningQueue == AdvanceCursors(pushed, toPrefill[..i], s.config)
      {
        AdvanceStep(pushed, toPrefill, s.config, i);
        scheduler.AdvancePrefillCursor(toPrefill[i]);
      }
      assert toPrefill[..|toPrefill|] == toPrefill;
      ghost var l := Live(scheduler.runningQueue, s.mem);
      var finished := CollectFinished();
      StartsEmpty(l.running, s.mem, s.config);
      pss := [];
      for i := 0 to |finished|
        invariant Valid() && fresh(scheduler.blockManager.radixCache.repr - old(scheduler.blockManager.radixCache.repr))
        invariant scheduler.waitingQueue == s.waiting
        invariant PermittedFinishes(l, finished[..i], pss)
        invariant Live(scheduler.runningQueue, scheduler.blockManager.View()) == FinishEach(l, finished[..i], pss)
      {
        ghost var ps := scheduler.FinishRequest(finished[i]);
        FinishStep(l, finished, pss, i, ps);
        pss := pss + [ps];
      }
      assert finished[..|finished|] == finished;
    }
  }
}
