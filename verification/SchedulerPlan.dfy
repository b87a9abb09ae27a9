/** What one `schedule` call puts into the batch, and what it does to the queues. */
module SchedulerPlan {
  import opened Types
  import opened RadixTrie
  import opened BlockAccounting
  import opened BlockSafety
  import opened BlockRefusal
  import opened SchedulerModel

  // ---------------------------------------------------------------- reading a queue

  /** Ids of the requests past prefill, in queue order. */
  function DecodingIds(rs: seq<Request>): seq<RequestId> {
    if rs == [] then []
    else DecodingIds(rs[..|rs| - 1]) + if Decoding(rs[|rs| - 1]) then [rs[|rs| - 1].id] else []
  }

  /** Ids of the requests still prefilling, in queue order. */
  function PrefillingIds(rs: seq<Request>): seq<RequestId> {
    if rs == [] then []
    else PrefillingIds(rs[..|rs| - 1]) + if Decoding(rs[|rs| - 1]) then [] else [rs[|rs| - 1].id]
  }

  /** The sizes of their next chunks. */
  function PrefillChunks(rs: seq<Request>, config: Config): (cs: seq<nat>)
    ensures |cs| == |PrefillingIds(rs)|
  {
    if rs == [] then []
    else PrefillChunks(rs[..|rs| - 1], config) + if Decoding(rs[|rs| - 1]) then []
      else [ChunkSize(rs[|rs| - 1], config)]
  }

  function Sum(ns: seq<nat>): nat {
    if ns == [] then 0 else Sum(ns[..|ns| - 1]) + ns[|ns| - 1]
  }

  lemma SumAppend(ns: seq<nat>, n: nat)
    ensures Sum(ns + [n]) == Sum(ns) + n
  {
    assert (ns + [n])[..|ns + [n]| - 1] == ns;
  }

  lemma QueueAppend(rs: seq<Request>, r: Request, config: Config)
    ensures DecodingIds(rs + [r]) == DecodingIds(rs) + if Decoding(r) then [r.id] else []
    ensures PrefillingIds(rs + [r]) == PrefillingIds(rs) + if Decoding(r) then [] else [r.id]
    ensures PrefillChunks(rs + [r], config) == PrefillChunks(rs, config) + if Decoding(r) then []
      else [ChunkSize(r, config)]
  {
    assert (rs + [r])[..|rs + [r]| - 1] == rs;
  }

  /** Queues that differ at most in their prefill flags. */
  ghost predicate SameButFlags(a: seq<Request>, b: seq<Request>) {
    |a| == |b| && forall i | 0 <= i < |a| :: a[i] == b[i].(isPrefill := a[i].isPrefill)
  }

  lemma SameFlagsChain(a: seq<Request>, b: seq<Request>, c: seq<Request>)
    requires SameButFlags(a, b) && SameButFlags(b, c)
    ensures SameButFlags(a, c)
  {
  }

  lemma SameFlagsAppend(a: seq<Request>, b: seq<Request>, r: Request, flag: bool)
    requires SameButFlags(a, b)
    ensures SameButFlags(a + [r.(isPrefill := flag)], b + [r])
  {
  }

  lemma {:induction false} FlagsDoNotCount(a: seq<Request>, b: seq<Request>, config: Config)
    requires SameButFlags(a, b)
    ensures DecodingIds(a) == DecodingIds(b) && PrefillingIds(a) == PrefillingIds(b)
      && PrefillChunks(a, config) == PrefillChunks(b, config)
    ensures Ids(a) == Ids(b)
  {
    if a != [] {
      FlagsDoNotCount(a[..|a| - 1], b[..|b| - 1], config);
      assert a[|a| - 1] == b[|b| - 1].(isPrefill := a[|a| - 1].isPrefill);
    }
  }

  function Max(a: int, b: int): int {
    if a < b then b else a
  }

  /** The most tokens one call may schedule when `decodes` requests were decoding at its start. */
  function Budget(decodes: nat, config: Config): int {
    Max(decodes, config.maxTokensPerIter - 1 + config.maxPrefillChunkSize)
  }

  /**
   * A plan in terms of its running queue: everything past prefill is decoded; the prefills are an initial part of those
   * still prefilling, all of them unless the budget is spent; and the total counts exactly this work.
   */
  ghost predicate Exact(pl: Plan, config: Config) {
    var k := |pl.toPrefill|;
    && pl.toDecode == DecodingIds(pl.running)
    && k <= |PrefillingIds(pl.running)|
    && pl.toPrefill == PrefillingIds(pl.running)[..k]
    && (k < |PrefillingIds(pl.running)| ==> pl.totalTokens >= config.maxTokensPerIter)
    && pl.totalTokens == |pl.toDecode| + Sum(PrefillChunks(pl.running, config)[..k])
  }

  // ---------------------------------------------------------------- the passes over the running queue

  lemma {:induction false} DecodePassFacts(pl: Plan, rs: seq<Request>)
    requires pl.toDecode == [] && pl.totalTokens == 0
    ensures var u := DecodePass(pl, rs);
      && SameButFlags(u.running, rs)
      && u.toDecode == DecodingIds(rs) && u.totalTokens == |u.toDecode|
      && u.mem == pl.mem && u.waiting == pl.waiting && u.toPrefill == pl.toPrefill
  {
    if rs != [] {
      DecodePassFacts(pl, rs[..|rs| - 1]);
    }
  }

  /** The prefills taken so far: an initial part of `ids`, short of all only when the budget is spent. */
  ghost predicate Taken(ids: seq<RequestId>, chunks: seq<nat>, taken: seq<RequestId>, start: nat, total: nat,
    config: Config) {
    && |chunks| == |ids|
    && taken <= ids
    && (|taken| < |ids| ==> total >= config.maxTokensPerIter)
    && total == start + Sum(chunks[..|taken|])
    && total <= Max(start, config.maxTokensPerIter - 1 + config.maxPrefillChunkSize)
  }

  lemma TakenMore(ids: seq<RequestId>, chunks: seq<nat>, taken: seq<RequestId>, start: nat, total: nat, config: Config,
    id: RequestId, c: nat)
    requires Taken(ids, chunks, taken, start, total, config)
    ensures total < config.maxTokensPerIter && c <= config.maxPrefillChunkSize ==>
      Taken(ids + [id], chunks + [c], taken + [id], start, total + c, config)
    ensures total >= config.maxTokensPerIter ==> Taken(ids + [id], chunks + [c], taken, start, total, config)
  {
    if total < config.maxTokensPerIter {
      assert taken == ids && chunks[..|taken|] == chunks;
      assert (chunks + [c])[..|taken + [id]|] == chunks + [c];
      SumAppend(chunks, c);
    } else {
      assert (chunks + [c])[..|taken|] == chunks[..|taken|];
    }
  }

  lemma {:induction false} PrefillPassFacts(pl: Plan, rs: seq<Request>, config: Config)
    requires pl.toPrefill == []
    ensures var u := PrefillPass(pl, rs, config);
      && SameButFlags(u.running, rs)
      && Taken(PrefillingIds(rs), PrefillChunks(rs, config), u.toPrefill, pl.totalTokens, u.totalTokens, config)
      && u.mem == pl.mem && u.waiting == pl.waiting && u.toDecode == pl.toDecode
  {
    if rs != [] {
      hide Taken, SameButFlags, PrefillingIds, PrefillChunks, Sum;
      var init, r := rs[..|rs| - 1], rs[|rs| - 1];
      PrefillPassFacts(pl, init, config);
      var before, u := PrefillPass(pl, init, config), PrefillPass(pl, rs, config);
      assert rs == init + [r];
      QueueAppend(init, r, config);
      assert u.running == before.running + [r.(isPrefill := u.running[|u.running| - 1].isPrefill)];
      SameFlagsAppend(before.running, init, r, u.running[|u.running| - 1].isPrefill);
      if Decoding(r) {
        assert PrefillingIds(rs) == PrefillingIds(init) && PrefillChunks(rs, config) == PrefillChunks(init, config);
      } else {
        TakenMore(PrefillingIds(init), PrefillChunks(init, config), before.toPrefill, pl.totalTokens,
          before.totalTokens, config,
                  r.id, ChunkSize(r, config));
      }
    }
  }

  lemma PlanRunningFacts(s: State, now: nat, pss: seq<seq<Path>>)
    requires Sound(s.mem) && PermittedFrees(s.mem, ExpiredIds(s.running, now), pss)
    ensures var pl := PlanRunning(s, now, pss);
      && Exact(pl, s.config)
      && SameButFlags(pl.running, Unexpired(s.running, now))
      && pl.waiting == Unexpired(s.waiting, now)
      && pl.mem == FreeAll(s.mem, ExpiredIds(s.running, now), pss)
      && pl.totalTokens <= Budget(|DecodingIds(Unexpired(s.running, now))|, s.config)
  {
    hide Sound, PermittedFrees, DecodePass, PrefillPass, FreeAll, ExpiredIds, Unexpired, DecodingIds, PrefillingIds,
         PrefillChunks, SameButFlags, Sum;
    var rs := Unexpired(s.running, now);
    var start := Plan(Unexpired(s.waiting, now), rs, FreeAll(s.mem, ExpiredIds(s.running, now), pss), [], [], 0);
    DecodePassFacts(start, rs);
    var decoded := DecodePass(start, rs);
    PrefillPassFacts(decoded, decoded.running, s.config);
    var pl := PrefillPass(decoded, decoded.running, s.config);
    SameFlagsChain(pl.running, decoded.running, rs);
    FlagsDoNotCount(decoded.running, rs, s.config);
    FlagsDoNotCount(pl.running, decoded.running, s.config);
  }

  // ---------------------------------------------------------------- admissions

  lemma AdmitExact(pl: Plan, config: Config, ps: seq<Path>)
    requires Sound(pl.mem) && PermittedTry(pl, config, ps) && Try(pl, config, ps).result.Some? && Exact(pl, config)
    ensures Exact(Admit(pl, config, ps), config)
    ensures Admit(pl, config, ps).totalTokens <=
      Max(pl.totalTokens, config.maxTokensPerIter - 1 + Max(1, config.maxPrefillChunkSize))
  {
    hide Sound, PermittedAllocate, AllocateWithPrefix;
    var u := Admit(pl, config, ps);
    var r := u.running[|u.running| - 1];
    assert u.running == pl.running + [r];
    QueueAppend(pl.running, r, config);
    var cs := PrefillChunks(pl.running, config);
    assert cs[..|cs|] == cs;
    SumAppend(cs, ChunkSize(r, config));
    assert u.toPrefill == PrefillingIds(u.running);
    assert PrefillChunks(u.running, config)[..|u.toPrefill|] == PrefillChunks(u.running, config);
  }

  /**
   * The queues after some admissions: those admitted moved from the front of the waiting queue to the end of the
   * running one.
   */
  lemma {:induction false} AdmissionsFacts(pl: Plan, config: Config, pss: seq<seq<Path>>)
    requires Sound(pl.mem) && PermittedAdmissions(pl, config, pss) && Exact(pl, config)
      && config.maxPrefillChunkSize >= 1
    ensures var u, n := Admissions(pl, config, pss), |pss|;
      && Exact(u, config)
      && n <= |pl.waiting| && u.waiting == pl.waiting[n..]
      && |u.running| == |pl.running| + n && u.running[..|pl.running|] == pl.running
      && (forall i | 0 <= i < n ::
            var r := u.running[|pl.running| + i];
            r == Started(pl.waiting[i], r.cachedPrefixLen) && r.cachedPrefixLen <= |r.promptTokens|)
      && u.totalTokens <= Max(pl.totalTokens, config.maxTokensPerIter - 1 + config.maxPrefillChunkSize)
  {
    hide Sound, Exact, PermittedAllocate, AllocateWithPrefix;
    if pss != [] {
      var init, ps := pss[..|pss| - 1], pss[|pss| - 1];
      AdmissionsFacts(pl, config, init);
      var v := Admissions(pl, config, init);
      AdmitExact(v, config, ps);
      HitWithinPrompt(v.mem, v.waiting[0].id, v.waiting[0].promptTokens, ps);
    }
  }

  // ---------------------------------------------------------------- the whole call

  lemma {:induction false} UnexpiredMember(rs: seq<Request>, now: nat, r: Request)
    ensures r in Unexpired(rs, now) <==> r in rs && !Expired(r, now)
  {
    if rs != [] {
      UnexpiredMember(rs[..|rs| - 1], now, r);
      assert rs == rs[..|rs| - 1] + [rs[|rs| - 1]];
    }
  }

  lemma IdsConcat(a: seq<Request>, b: seq<Request>)
    ensures Ids(a + b) == Ids(a) + Ids(b)
  {
  }

  /**
   * One `schedule` call: the batch is exact for the resulting running queue and within budget, and running followed by
   * waiting requests are the unexpired ones of before, in the same order.
   */
  lemma ScheduleFacts(s: State, now: nat, ev: Evictions)
    requires Sound(s.mem) && PermittedSchedule(s, now, ev) && s.config.maxPrefillChunkSize >= 1
    ensures var u := Schedule(s, now, ev);
      && Exact(u, s.config)
      && Ids(u.running) + Ids(u.waiting) == Ids(Unexpired(s.running, now)) + Ids(Unexpired(s.waiting, now))
      && u.totalTokens <= Budget(|DecodingIds(Unexpired(s.running, now))|, s.config)
  {
    hide Sound, Exact, PermittedTry, PermittedFrees, PermittedAdmissions, Unexpired, ExpiredIds, DecodingIds,
         SameButFlags, Admissions, PlanRunning, FreeAll, AllocateWithPrefix;
    PlanRunningFacts(s, now, ev.expiring);
    var pl := PlanRunning(s, now, ev.expiring);
    AdmissionsFacts(pl, s.config, ev.admitting);
    var v, n := Admissions(pl, s.config, ev.admitting), |ev.admitting|;
    ExactIgnoresMem(v, Schedule(s, now, ev), s.config);
    FlagsDoNotCount(pl.running, Unexpired(s.running, now), s.config);
    MovedIds(pl.running, pl.waiting, v.running, n);
  }

  lemma MovedIds(running: seq<Request>, waiting: seq<Request>, after: seq<Request>, n: nat)
    requires n <= |waiting| && |after| == |running| + n && after[..|running|] == running
    requires forall i | 0 <= i < n :: after[|running| + i].id == waiting[i].id
    ensures Ids(after) + Ids(waiting[n..]) == Ids(running) + Ids(waiting)
  {
    forall i | 0 <= i < |running| + |waiting|
      ensures (Ids(after) + Ids(waiting[n..]))[i] == (Ids(running) + Ids(waiting))[i]
    {
      if i < |running| {
        assert after[i] == after[..|running|][i];
      } else if i < |after| {
        assert after[|running| + (i - |running|)].id == waiting[i - |running|].id;
      }
    }
  }

  lemma ExactIgnoresMem(a: Plan, b: Plan, config: Config)
    requires Exact(a, config) && b == a.(mem := b.mem)
    ensures Exact(b, config)
  {
  }

  /**
   * Progress: the batch is empty exactly when no request is left running. If requests still wait then, nobody was
   * admitted, and the one in front needs more blocks than the call could obtain.
   */
  lemma ScheduleProgress(s: State, now: nat, ev: Evictions)
    requires Sound(s.mem) && PermittedSchedule(s, now, ev) && s.config.maxPrefillChunkSize >= 1
      && s.config.maxTokensPerIter >= 1
    ensures var u := Schedule(s, now, ev);
      && (u.toPrefill == [] && u.toDecode == [] <==> u.running == [])
      && (u.running == [] && u.waiting != [] ==>
            var m := FreeAll(s.mem, ExpiredIds(s.running, now), ev.expiring);
            && ev.admitting == []
            && PermittedAllocate(m, u.waiting[0].promptTokens, ev.refusing)
            && Obtainable(m, u.waiting[0].promptTokens, ev.refusing) < NewBlocksNeeded(m, u.waiting[0].promptTokens)
            && u.mem == AllocateWithPrefix(m, u.waiting[0].id, u.waiting[0].promptTokens, ev.refusing).mem)
  {
    hide Sound, PermittedFrees, PlanRunning, Admissions, AllocateWithPrefix, PermittedAllocate, FreeAll, Obtainable,
         NewBlocksNeeded;
    ScheduleFacts(s, now, ev);
    var u := Schedule(s, now, ev);
    EveryRequestIsOne(u.running);
    if u.running == [] && u.waiting != [] {
      EmptyPlan(s, now, ev);
      var m := FreeAll(s.mem, ExpiredIds(s.running, now), ev.expiring);
      RefusedIff(m, u.waiting[0].id, u.waiting[0].promptTokens, ev.refusing);
    }
  }

  /** A call that leaves nothing running admitted nobody and tried the front of the waiting queue in vain. */
  lemma EmptyPlan(s: State, now: nat, ev: Evictions)
    requires Sound(s.mem) && PermittedSchedule(s, now, ev) && s.config.maxPrefillChunkSize >= 1
      && s.config.maxTokensPerIter >= 1
    requires Schedule(s, now, ev).running == [] && Schedule(s, now, ev).waiting != []
    ensures var u, m := Schedule(s, now, ev), FreeAll(s.mem, ExpiredIds(s.running, now), ev.expiring);
      && ev.admitting == []
      && PermittedAllocate(m, u.waiting[0].promptTokens, ev.refusing)
      && AllocateWithPrefix(m, u.waiting[0].id, u.waiting[0].promptTokens, ev.refusing) == Allocation(u.mem, None)
  {
    hide Sound, PermittedFrees, PlanRunning, AllocateWithPrefix, PermittedAllocate, FreeAll, Sum, DecodingIds,
         PrefillingIds, PrefillChunks;
    PlanRunningFacts(s, now, ev.expiring);
    var pl := PlanRunning(s, now, ev.expiring);
    AdmissionsFacts(pl, s.config, ev.admitting);
    assert ev.admitting == [];
    NothingPlanned(pl, s.config);
  }

  lemma NothingPlanned(pl: Plan, config: Config)
    requires Exact(pl, config) && pl.running == []
    ensures pl.totalTokens == 0
  {
  }

  lemma {:induction false} EveryRequestIsOne(rs: seq<Request>)
    ensures |DecodingIds(rs)| + |PrefillingIds(rs)| == |rs|
  {
    if rs != [] {
      EveryRequestIsOne(rs[..|rs| - 1]);
    }
  }
}
