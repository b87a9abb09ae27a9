/** The continuous-batching scheduler: a waiting and a running queue over the block manager. */
module SchedulerModule {
  import opened Types
  import opened RadixTrie
  import opened RadixCacheModule
  import opened BlockAccounting
  import opened BlockSafety
  import opened BlockManagerModule
  import opened SchedulerModel

  lemma Updated<T>(s: seq<T>, i: nat, x: T)
    requires i < |s|
    ensures s[i := x][..i + 1] == s[..i] + [x] && s[i := x][i + 1..] == s[i + 1..]
    ensures s[..i + 1] == s[..i] + [s[i]]
  {
  }

  lemma DecodePassStep(pl: Plan, rs: seq<Request>, i: nat)
    requires i < |rs|
    ensures var before, r := DecodePass(pl, rs[..i]), rs[i];
      DecodePass(pl, rs[..i + 1]) ==
        if Decoding(r) then
          before.(running := before.running + [r.(isPrefill := false)], toDecode := before.toDecode + [r.id],
                  totalTokens := before.totalTokens + 1)
        else before.(running := before.running + [r])
  {
    assert rs[..i + 1][..i] == rs[..i];
  }

  lemma PrefillPassStep(pl: Plan, rs: seq<Request>, config: Config, i: nat)
    requires i < |rs|
    ensures var before, r := PrefillPass(pl, rs[..i], config), rs[i];
      PrefillPass(pl, rs[..i + 1], config) ==
        if before.totalTokens < config.maxTokensPerIter && !Decoding(r) then
          before.(running := before.running + [r.(isPrefill := true)], toPrefill := before.toPrefill + [r.id],
                  totalTokens := before.totalTokens + ChunkSize(r, config))
        else before.(running := before.running + [r])
  {
    assert rs[..i + 1][..i] == rs[..i];
  }

  lemma PassesStart(pl: Plan, config: Config)
    ensures DecodePass(pl, []) == pl.(running := []) && PrefillPass(pl, [], config) == pl.(running := [])
  {
  }

  lemma ExpiryStep(rs: seq<Request>, now: nat, i: nat)
    requires i < |rs|
    ensures Unexpired(rs[..i + 1], now) == if Expired(rs[i], now) then Unexpired(rs[..i], now)
      else Unexpired(rs[..i], now) + [rs[i]]
    ensures ExpiredIds(rs[..i + 1], now) == if Expired(rs[i], now) then ExpiredIds(rs[..i], now) + [rs[i].id]
      else ExpiredIds(rs[..i], now)
  {
    assert rs[..i + 1][..i] == rs[..i];
  }

  lemma NobodyExpired(now: nat)
    ensures Unexpired([], now) == []
  {
  }

  lemma NothingExpired(m: Mem, now: nat)
    requires Sound(m)
    ensures Unexpired([], now) == [] && ExpiredIds([], now) == [] && PermittedFrees(m, [], [])
      && FreeAll(m, [], []) == m
  {
  }

  lemma FreeAllStep(m: Mem, ids: seq<RequestId>, pss: seq<seq<Path>>, id: RequestId, ps: seq<Path>)
    requires Sound(m) && PermittedFrees(m, ids, pss) && PermittedFree(FreeAll(m, ids, pss), id, ps)
    ensures PermittedFrees(m, ids + [id], pss + [ps])
    ensures FreeAll(m, ids + [id], pss + [ps]) == Free(FreeAll(m, ids, pss), id, ps)
  {
    hide Sound, PermittedFree, Free;
    assert (ids + [id])[..|ids + [id]| - 1] == ids && (pss + [ps])[..|pss + [ps]| - 1] == pss;
  }

  class Scheduler {
    var waitingQueue: seq<Request>
    var runningQueue: seq<Request>
    const blockManager: BlockManager
    const config: Config

    ghost function View(): State
      reads this, blockManager, blockManager.radixCache
    {
      State(waitingQueue, runningQueue, blockManager.View(), config)
    }

    ghost predicate Valid()
      reads this, blockManager, blockManager.radixCache, blockManager.radixCache.repr
    {
      blockManager.Valid()
    }

    constructor (blockManager: BlockManager, config: Config)
      requires blockManager.Valid()
      ensures Valid() && View() == State([], [], blockManager.View(), config)
      ensures this.blockManager == blockManager && this.config == config
    {
      this.waitingQueue := [];
      this.runningQueue := [];
      this.blockManager := blockManager;
      this.config := config;
    }

    method AddRequest(request: Request)
      requires Valid()
      modifies this`waitingQueue
      ensures Valid() && View() == old(View()).(waiting := old(View()).waiting + [request])
    {
      waitingQueue := waitingQueue + [request];
    }

    /** Frees and drops the running requests past their deadline. */
    method ExpireRunning(now: nat) returns (ghost pss: seq<seq<Path>>)
      requires Valid()
      modifies this`runningQueue, blockManager, blockManager.radixCache, blockManager.radixCache.repr
      ensures Valid() && fresh(blockManager.radixCache.repr - old(blockManager.radixCache.repr))
      ensures PermittedFrees(old(blockManager.View()), ExpiredIds(old(runningQueue), now), pss)
      ensures blockManager.View() == FreeAll(old(blockManager.View()), ExpiredIds(old(runningQueue), now), pss)
      ensures runningQueue == Unexpired(old(runningQueue), now)
    {
      hide Sound, PermittedFree, PermittedFrees, FreeAll, Free, RadixCache.Valid, Unexpired, ExpiredIds;
      ghost var m, rs := blockManager.View(), runningQueue;
      var kept := [];
      pss := [];
      NothingExpired(m, now);
      for i := 0 to |runningQueue|
        invariant runningQueue == rs && kept == Unexpired(rs[..i], now)
        invariant Valid() && fresh(blockManager.radixCache.repr - old(blockManager.radixCache.repr))
        invariant PermittedFrees(m, ExpiredIds(rs[..i], now), pss)
        invariant blockManager.View() == FreeAll(m, ExpiredIds(rs[..i], now), pss)
      {
        var req := runningQueue[i];
        ExpiryStep(rs, now, i);
        if Expired(req, now) {
          ghost var ps := blockManager.Free(req.id);
          FreeAllStep(m, ExpiredIds(rs[..i], now), pss, req.id, ps);
          pss := pss + [ps];
        } else {
          kept := kept + [req];
        }
      }
      assert rs[..|rs|] == rs;
      runningQueue := kept;
    }

    method ExpireWaiting(now: nat)
      requires Valid()
      modifies this`waitingQueue
      ensures Valid() && waitingQueue == Unexpired(old(waitingQueue), now)
    {
      hide Unexpired, ExpiredIds, BlockManager.Valid;
      ghost var rs, m := waitingQueue, blockManager.View();
      var kept := [];
      assert Unexpired(rs[..0], now) == [] by {
        NobodyExpired(now);
      }
      for i := 0 to |waitingQueue|
        invariant waitingQueue == rs && kept == Unexpired(rs[..i], now)
      {
        ExpiryStep(rs, now, i);
        if !Expired(waitingQueue[i], now) {
          kept := kept + [waitingQueue[i]];
        }
      }
      assert rs[..|rs|] == rs;
      waitingQueue := kept;
    }

    /** Schedules a decode for every running request past prefill. */
    method ScheduleDecodes() returns (toDecode: seq<RequestId>, totalTokens: nat)
      requires Valid()
      modifies this`runningQueue
      ensures Valid()
      ensures var pl := Plan(waitingQueue, old(runningQueue), blockManager.View(), [], [], 0);
        Plan(waitingQueue, runningQueue, blockManager.View(), [], toDecode, totalTokens)
          == DecodePass(pl, old(runningQueue))
    {
      hide DecodePass, BlockManager.Valid;
      ghost var rs, m := runningQueue, blockManager.View();
      ghost var pl := Plan(waitingQueue, rs, m, [], [], 0);
      toDecode, totalTokens := [], 0;
      PassesStart(pl, config);
      for i := 0 to |runningQueue|
        invariant Valid() && blockManager.View() == m
        invariant |runningQueue| == |rs| && runningQueue[i..] == rs[i..]
        invariant Plan(waitingQueue, runningQueue[..i], m, [], toDecode, totalTokens) == DecodePass(pl, rs[..i])
      {
        var req := runningQueue[i];
        assert req == runningQueue[i..][0] == rs[i..][0] == rs[i];
        DecodePassStep(pl, rs, i);
        Updated(runningQueue, i, req.(isPrefill := false));
        Updated(runningQueue, i, req);
        Updated(rs, i, req);
        if req.prefillCursor >= |req.promptTokens| {
          toDecode := toDecode + [req.id];
          runningQueue := runningQueue[i := req.(isPrefill := false)];
          totalTokens := totalTokens + 1;
        }
      }
      assert rs[..|rs|] == rs && runningQueue[..|rs|] == runningQueue;
    }

    /** Schedules a chunk for running requests still prefilling, until the token budget is spent. */
    method SchedulePrefills(ghost pl: Plan, total: nat) returns (toPrefill: seq<RequestId>, totalTokens: nat)
      requires Valid()
      requires pl.waiting == waitingQueue && pl.running == runningQueue && pl.mem == blockManager.View()
        && pl.toPrefill == [] && pl.totalTokens == total
      modifies this`runningQueue
      ensures Valid()
      ensures Plan(waitingQueue, runningQueue, blockManager.View(), toPrefill, pl.toDecode, totalTokens)
        == PrefillPass(pl, pl.running, config)
    {
      hide PrefillPass, BlockManager.Valid;
      ghost var rs, m := runningQueue, blockManager.View();
      toPrefill, totalTokens := [], total;
      PassesStart(pl, config);
      for i := 0 to |runningQueue|
        invariant Valid() && blockManager.View() == m
        invariant |runningQueue| == |rs| && runningQueue[i..] == rs[i..]
        invariant Plan(waitingQueue, runningQueue[..i], m, toPrefill, pl.toDecode, totalTokens)
          == PrefillPass(pl, rs[..i], config)
      {
        if totalTokens >= config.maxTokensPerIter {
          PrefillPassStop(pl, rs, config, i);
          assert runningQueue == runningQueue[..i] + runningQueue[i..];
          return;
        }
        var req := runningQueue[i];
        assert req == runningQueue[i..][0] == rs[i..][0] == rs[i];
        PrefillPassStep(pl, rs, config, i);
        Updated(runningQueue, i, req.(isPrefill := true));
        Updated(runningQueue, i, req);
        Updated(rs, i, req);
        if req.prefillCursor < |req.promptTokens| {
          var remaining := |req.promptTokens| - req.prefillCursor;
          var chunkSize := if remaining < config.maxPrefillChunkSize then remaining else config.maxPrefillChunkSize;
          runningQueue := runningQueue[i := req.(isPrefill := true)];
          toPrefill := toPrefill + [req.id];
          totalTokens := totalTokens + chunkSize;
        }
      }
      assert rs[..|rs|] == rs && runningQueue[..|rs|] == runningQueue;
    }

    /** Pulls waiting requests into the batch, first come first served, until the budget is spent or blocks run out. */
    method AdmitWaiting(ghost pl: Plan, toPrefill0: seq<RequestId>, toDecode0: seq<RequestId>, total: nat)
      returns (toPrefill: seq<RequestId>, toDecode: seq<RequestId>, ghost u: Plan, ghost admitting: seq<seq<Path>>,
        ghost refusing: seq<Path>)
      requires Valid()
      requires pl == Plan(waitingQueue, runningQueue, blockManager.View(), toPrefill0, toDecode0, total)
      modifies this`runningQueue, this`waitingQueue, blockManager, blockManager.radixCache, blockManager.radixCache.repr
      ensures Valid() && fresh(blockManager.radixCache.repr - old(blockManager.radixCache.repr))
      ensures Sound(pl.mem) && PermittedAdmissions(pl, config, admitting)
      ensures PermittedEnd(Admissions(pl, config, admitting), config, refusing)
      ensures u == End(Admissions(pl, config, admitting), config, refusing)
      ensures waitingQueue == u.waiting && runningQueue == u.running && blockManager.View() == u.mem
        && toPrefill == u.toPrefill && toDecode == u.toDecode
    {
      hide Sound, PermittedAdmissions, Admissions, PermittedAllocate, AllocateWithPrefix, RadixCache.Valid;
      toPrefill, toDecode := toPrefill0, toDecode0;
      var totalTokens: nat := total;
      admitting, refusing, u := [], [], pl;
      NoAdmission(pl, config);
      while waitingQueue != []
        invariant Valid() && fresh(blockManager.radixCache.repr - old(blockManager.radixCache.repr))
        invariant Sound(pl.mem) && PermittedAdmissions(pl, config, admitting) && u == Admissions(pl, config, admitting)
        invariant u == Plan(waitingQueue, runningQueue, blockManager.View(), toPrefill, toDecode, totalTokens)
        decreases |waitingQueue|
      {
        if totalTokens >= config.maxTokensPerIter {
          return;
        }
        var req := waitingQueue[0];
        var r;
        ghost var ps;
        r, ps := blockManager.AllocateWithPrefix(req.id, req.promptTokens);
        if r.None? {
          refusing := ps;
          u := End(u, config, ps);
          return;
        }
        AdmissionStep(pl, config, admitting, ps);
        HitWithinPrompt(u.mem, req.id, req.promptTokens, ps);
        var cachedLen := r.value.1;
        waitingQueue := waitingQueue[1..];
        var remaining := |req.promptTokens| - cachedLen;
        if remaining > 0 {
          req := req.(cachedPrefixLen := cachedLen, prefillCursor := cachedLen, isPrefill := true);
          toPrefill := toPrefill + [req.id];
          totalTokens := totalTokens + if remaining < config.maxPrefillChunkSize then remaining
            else config.maxPrefillChunkSize;
        } else {
          req := req.(cachedPrefixLen := cachedLen, prefillCursor := cachedLen, isPrefill := false);
          toDecode := toDecode + [req.id];
          totalTokens := totalTokens + 1;
        }
        runningQueue := runningQueue + [req];
        admitting := admitting + [ps];
        u := Admit(u, config, ps);
      }
    }

    /** Selects the requests to run next; in the source this is one function over the steps above. */
    method Schedule(now: nat)
      returns (toPrefill: seq<RequestId>, toDecode: seq<RequestId>, ghost u: Plan, ghost ev: Evictions)
      requires Valid()
      modifies this, blockManager, blockManager.radixCache, blockManager.radixCache.repr
      ensures Valid() && fresh(blockManager.radixCache.repr - old(blockManager.radixCache.repr))
      ensures Sound(old(View()).mem) && PermittedSchedule(old(View()), now, ev)
      ensures u == SchedulerModel.Schedule(old(View()), now, ev)
      ensures View() == State(u.waiting, u.running, u.mem, config) && toPrefill == u.toPrefill && toDecode == u.toDecode
    {
      hide Sound, PermittedFrees, FreeAll, Unexpired, ExpiredIds, DecodePass, PrefillPass, PermittedAdmissions,
           Admissions, PermittedEnd, End, RadixCache.Valid;
      ghost var s := View();
      ghost var expiring := ExpireRunning(now);
      ExpireWaiting(now);
      ghost var start := Plan(waitingQueue, runningQueue, blockManager.View(), [], [], 0);
      var totalTokens;
      toDecode, totalTokens := ScheduleDecodes();
      ghost var decoded := DecodePass(start, start.running);
      toPrefill, totalTokens := SchedulePrefills(decoded, totalTokens);
      ghost var pl := PrefillPass(decoded, decoded.running, config);
      ghost var admitting, refusing;
      toPrefill, toDecode, u, admitting, refusing := AdmitWaiting(pl, toPrefill, toDecode, totalTokens);
      ev := Evictions(expiring, admitting, refusing);
      assert pl == PlanRunning(s, now, expiring);
    }

    /** Moves a request's prefill cursor one chunk on. */
    method AdvancePrefillCursor(requestId: RequestId)
      requires Valid()
      modifies this`runningQueue
      ensures Valid()
      ensures runningQueue == match IndexOf(old(runningQueue), requestId)
                              case None => old(runningQueue)
                              case Some(i) => old(runningQueue)[i := Advanced(old(runningQueue)[i], config)]
    {
      hide BlockManager.Valid;
      var found := IndexOf(runningQueue, requestId);
      if found.Some? {
        var req := runningQueue[found.value];
        var next := req.prefillCursor + config.maxPrefillChunkSize;
        if next > |req.promptTokens| {
          next := |req.promptTokens|;
        }
        runningQueue := runningQueue[found.value := req.(prefillCursor := next)];
      }
    }

    /** Takes a request off the running queue and frees its blocks. */
    method FinishRequest(requestId: RequestId) returns (ghost ps: seq<Path>)
      requires Valid()
      modifies this`runningQueue, blockManager, blockManager.radixCache, blockManager.radixCache.repr
      ensures Valid() && fresh(blockManager.radixCache.repr - old(blockManager.radixCache.repr))
      ensures var l := Live(old(runningQueue), old(blockManager.View()));
        && Sound(l.mem) && PermittedFinish(l, requestId, ps)
        && Live(runningQueue, blockManager.View()) == FinishOne(l, requestId, ps)
    {
      hide Sound, PermittedFree, Free, RadixCache.Valid;
      var pos := IndexOf(runningQueue, requestId);
      ps := [];
      if pos.Some? {
        runningQueue := runningQueue[..pos.value] + runningQueue[pos.value + 1..];
        ps := blockManager.Free(requestId);
      }
    }
  }

  lemma NoAdmission(pl: Plan, config: Config)
    requires Sound(pl.mem)
    ensures PermittedAdmissions(pl, config, []) && Admissions(pl, config, []) == pl
  {
  }

  lemma AdmissionStep(pl: Plan, config: Config, pss: seq<seq<Path>>, ps: seq<Path>)
    requires Sound(pl.mem) && PermittedAdmissions(pl, config, pss)
    requires PermittedTry(Admissions(pl, config, pss), config, ps)
      && Try(Admissions(pl, config, pss), config, ps).result.Some?
    ensures PermittedAdmissions(pl, config, pss + [ps])
    ensures Admissions(pl, config, pss + [ps]) == Admit(Admissions(pl, config, pss), config, ps)
  {
    hide Sound, PermittedAllocate, AllocateWithPrefix;
    assert (pss + [ps])[..|pss + [ps]| - 1] == pss;
  }

  lemma {:induction false} PrefillPassStop(pl: Plan, rs: seq<Request>, config: Config, i: nat)
    requires i <= |rs| && PrefillPass(pl, rs[..i], config).totalTokens >= config.maxTokensPerIter
    ensures var u := PrefillPass(pl, rs[..i], config);
      PrefillPass(pl, rs, config) == u.(running := u.running + rs[i..])
  {
    if i == |rs| {
      assert rs[..i] == rs;
    } else {
      var init := rs[..|rs| - 1];
      assert init[..i] == rs[..i];
      PrefillPassStop(pl, init, config, i);
      assert rs[i..] == init[i..] + [rs[|rs| - 1]];
    }
  }
}
