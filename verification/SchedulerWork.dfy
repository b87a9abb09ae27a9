/**
 * What one `schedule` call owes its callers: expiry, admission and the use of the budget, said of queues and numbers
 * alone.
 */
module SchedulerWork {
  import opened Types
  import opened RadixTrie
  import opened BlockAccounting
  import opened BlockRefusal
  import opened AllocationOutcome
  import opened SchedulerModel
  import opened SchedulerPlan

  // ---------------------------------------------------------------- expiry

  lemma {:induction false} UnexpiredIff(rs: seq<Request>, now: nat, r: Request)
    ensures r in Unexpired(rs, now) <==> r in rs && (r.deadline == None || r.deadline.value > now)
  {
    if rs != [] {
      UnexpiredIff(rs[..|rs| - 1], now, r);
      assert rs == rs[..|rs| - 1] + [rs[|rs| - 1]];
    }
  }

  /** Which ids remain: those of requests without a deadline or with a later one. */
  ghost predicate Remains(id: RequestId, rs: seq<Request>, now: nat) {
    exists r :: r in rs && r.id == id && (r.deadline == None || r.deadline.value > now)
  }

  lemma UnexpiredIds(rs: seq<Request>, now: nat, id: RequestId)
    ensures id in Ids(Unexpired(rs, now)) <==> Remains(id, rs, now)
  {
    var kept := Unexpired(rs, now);
    if id in Ids(kept) {
      var i :| 0 <= i < |kept| && Ids(kept)[i] == id;
      UnexpiredIff(rs, now, kept[i]);
      assert kept[i] in kept;
    }
    if Remains(id, rs, now) {
      var r :| r in rs && r.id == id && (r.deadline == None || r.deadline.value > now);
      UnexpiredIff(rs, now, r);
      var i :| 0 <= i < |kept| && kept[i] == r;
      assert Ids(kept)[i] == id;
    }
  }

  /**
   * Expiry is exact: after a call precisely those ids run or wait whose request ran or waited before with no deadline
   * or one that is later than now.
   */
  lemma ExpiryExact(s: State, now: nat, ev: Evictions, id: RequestId)
    requires Sound(s.mem) && PermittedSchedule(s, now, ev) && s.config.maxPrefillChunkSize >= 1
    ensures var u := Schedule(s, now, ev);
      id in Ids(u.running) + Ids(u.waiting) <==> Remains(id, s.running, now) || Remains(id, s.waiting, now)
  {
    hide Sound, PermittedSchedule, Schedule, Unexpired, Ids, Remains, Exact;
    ScheduleFacts(s, now, ev);
    UnexpiredIds(s.running, now, id);
    UnexpiredIds(s.waiting, now, id);
    var u := Schedule(s, now, ev);
    assert id in Ids(u.running) + Ids(u.waiting) <==>
      id in Ids(Unexpired(s.running, now)) + Ids(Unexpired(s.waiting, now));
  }

  // ---------------------------------------------------------------- admission

  /** An admitted request starts where the longest stored prefix of its prompt ends. */
  ghost predicate StartsAtHit(r: Request, m: Mem)
    requires WellFormed(m.tree)
  {
    && r.prefillCursor == r.cachedPrefixLen
    && exists p :: LongestMatch(m.tree, r.promptTokens, p) && r.cachedPrefixLen == |Label(m.tree, p)|
  }

  lemma AdmitStarts(pl: Plan, config: Config, ps: seq<Path>)
    requires Sound(pl.mem) && PermittedTry(pl, config, ps) && Try(pl, config, ps).result.Some?
    ensures WellFormed(pl.mem.tree)
    ensures var u := Admit(pl, config, ps); u.running != [] && StartsAtHit(u.running[|u.running| - 1], pl.mem)
  {
    hide Sound, PermittedAllocate, AllocateWithPrefix, LongestMatch, WellFormed, Label, PathBlocks, LeastCover;
    SoundFits(pl.mem);
    AllocationAnswers(pl.mem, pl.waiting[0].id, pl.waiting[0].promptTokens, ps);
  }

  lemma {:induction false} PrefixPermitted(pl: Plan, config: Config, pss: seq<seq<Path>>, i: nat)
    requires Sound(pl.mem) && PermittedAdmissions(pl, config, pss) && i <= |pss|
    ensures PermittedAdmissions(pl, config, pss[..i])
    decreases |pss|
  {
    hide Sound, PermittedTry, Try;
    if i == |pss| {
      assert pss[..i] == pss;
    } else {
      PrefixPermitted(pl, config, pss[..|pss| - 1], i);
      assert pss[..|pss| - 1][..i] == pss[..i];
    }
  }

  /** The `i`-th admission looks its prompt up in the cache as the admissions before it have left it. */
  lemma {:induction false} AdmittedStarts(pl: Plan, config: Config, pss: seq<seq<Path>>, i: nat)
    requires Sound(pl.mem) && PermittedAdmissions(pl, config, pss) && i < |pss|
    requires Exact(pl, config) && config.maxPrefillChunkSize >= 1
    ensures PermittedAdmissions(pl, config, pss[..i])
    ensures var before, u := Admissions(pl, config, pss[..i]).mem, Admissions(pl, config, pss);
      && WellFormed(before.tree) && |u.running| == |pl.running| + |pss|
      && StartsAtHit(u.running[|pl.running| + i], before)
    decreases |pss|
  {
    hide Sound, Exact, PermittedAllocate, AllocateWithPrefix, StartsAtHit, WellFormed;
    PrefixPermitted(pl, config, pss, i);
    AdmissionsFacts(pl, config, pss);
    var init, ps := pss[..|pss| - 1], pss[|pss| - 1];
    AdmissionsFacts(pl, config, init);
    var v := Admissions(pl, config, init);
    if i < |pss| - 1 {
      AdmittedStarts(pl, config, init, i);
      assert init[..i] == pss[..i];
    } else {
      AdmitStarts(v, config, ps);
    }
  }

  // ---------------------------------------------------------------- work conservation

  /** The front request cannot get its blocks from `m`: what is free and what one eviction releases is too little. */
  ghost predicate ShortOfBlocks(m: Mem, prompt: seq<Token>, ps: seq<Path>)
    requires Sound(m)
  {
    PermittedAllocate(m, prompt, ps) && Obtainable(m, prompt, ps) < NewBlocksNeeded(m, prompt)
  }

  /** The block manager when the call has made its admissions. */
  ghost function Offered(s: State, now: nat, ev: Evictions): (m: Mem)
    requires Sound(s.mem) && PermittedSchedule(s, now, ev)
    ensures Sound(m)
  {
    PassesKeepMem(s, now, ev.expiring);
    Admissions(PlanRunning(s, now, ev.expiring), s.config, ev.admitting).mem
  }

  /**
   * Work conservation: if anything waits after a call, the call has spent the token budget, or the request in front was
   * refused for want of blocks in the state the admissions had left. This holds whatever else runs.
   */
  lemma ScheduleConservesWork(s: State, now: nat, ev: Evictions)
    requires Sound(s.mem) && PermittedSchedule(s, now, ev)
    ensures var u, m := Schedule(s, now, ev), Offered(s, now, ev);
      u.waiting != [] && u.totalTokens < s.config.maxTokensPerIter ==>
        && ShortOfBlocks(m, u.waiting[0].promptTokens, ev.refusing)
        && u.mem == AllocateWithPrefix(m, u.waiting[0].id, u.waiting[0].promptTokens, ev.refusing).mem
  {
    hide Sound, PermittedFrees, PlanRunning, PermittedAdmissions, Admissions, AllocateWithPrefix, PermittedAllocate,
         Obtainable, NewBlocksNeeded;
    PassesKeepMem(s, now, ev.expiring);
    var v := Admissions(PlanRunning(s, now, ev.expiring), s.config, ev.admitting);
    if Tries(v, s.config) {
      RefusedIff(v.mem, v.waiting[0].id, v.waiting[0].promptTokens, ev.refusing);
    }
  }

  // ---------------------------------------------------------------- flags

  /** Requests past prefill carry no prefill flag, those scheduled to prefill do. */
  ghost predicate FlagsRight(rs: seq<Request>, toPrefill: seq<RequestId>) {
    && (forall r | r in rs && Decoding(r) :: !r.isPrefill)
    && (forall id | id in toPrefill :: exists r :: r in rs && r.id == id && !Decoding(r) && r.isPrefill)
  }

  lemma FlagsSnoc(rs: seq<Request>, ids: seq<RequestId>, r: Request, scheduled: bool)
    requires FlagsRight(rs, ids) && (Decoding(r) ==> !r.isPrefill) && (scheduled ==> !Decoding(r) && r.isPrefill)
    ensures FlagsRight(rs + [r], if scheduled then ids + [r.id] else ids)
  {
    hide Decoding;
    var all := if scheduled then ids + [r.id] else ids;
    forall id | id in all
      ensures exists q :: q in rs + [r] && q.id == id && !Decoding(q) && q.isPrefill
    {
      if id in ids {
        var q :| q in rs && q.id == id && !Decoding(q) && q.isPrefill;
        assert q in rs + [r];
      } else {
        assert r in rs + [r];
      }
    }
  }

  lemma {:induction false} DecodePassFlags(pl: Plan, rs: seq<Request>)
    ensures FlagsRight(DecodePass(pl, rs).running, [])
  {
    if rs != [] {
      DecodePassFlags(pl, rs[..|rs| - 1]);
    }
  }

  lemma {:induction false} PrefillPassFlags(pl: Plan, rs: seq<Request>, config: Config)
    requires FlagsRight(rs, []) && pl.toPrefill == []
    ensures FlagsRight(PrefillPass(pl, rs, config).running, PrefillPass(pl, rs, config).toPrefill)
  {
    if rs != [] {
      var init, r := rs[..|rs| - 1], rs[|rs| - 1];
      assert r in rs && forall q | q in init :: q in rs;
      PrefillPassFlags(pl, init, config);
      hide FlagsRight, ChunkSize;
      var before, u := PrefillPass(pl, init, config), PrefillPass(pl, rs, config);
      var chosen := before.totalTokens < config.maxTokensPerIter && !Decoding(r);
      LastFlag(rs);
      FlagsSnoc(before.running, before.toPrefill, if chosen then r.(isPrefill := true) else r, chosen);
    }
  }

  lemma LastFlag(rs: seq<Request>)
    requires rs != [] && FlagsRight(rs, [])
    ensures Decoding(rs[|rs| - 1]) ==> !rs[|rs| - 1].isPrefill
  {
  }

  lemma {:induction false} AdmissionsFlags(pl: Plan, config: Config, pss: seq<seq<Path>>)
    requires Sound(pl.mem) && PermittedAdmissions(pl, config, pss) && FlagsRight(pl.running, pl.toPrefill)
    ensures var u := Admissions(pl, config, pss); FlagsRight(u.running, u.toPrefill)
  {
    hide Sound, PermittedAllocate, AllocateWithPrefix, FlagsRight, ChunkSize;
    if pss != [] {
      var init, ps := pss[..|pss| - 1], pss[|pss| - 1];
      AdmissionsFlags(pl, config, init);
      var v := Admissions(pl, config, init);
      var u := Admit(v, config, ps);
      var r := u.running[|u.running| - 1];
      FlagsSnoc(v.running, v.toPrefill, r, !Decoding(r));
    }
  }

  /** After a call the flag of every running request past prefill is down, and up for those scheduled to prefill. */
  lemma ScheduleFlags(s: State, now: nat, ev: Evictions)
    requires Sound(s.mem) && PermittedSchedule(s, now, ev)
    ensures FlagsRight(Schedule(s, now, ev).running, Schedule(s, now, ev).toPrefill)
  {
    hide Sound, PermittedFrees, PermittedAdmissions, Admissions, AllocateWithPrefix, PermittedAllocate, DecodePass,
         PrefillPass, Unexpired, ExpiredIds, FreeAll, FlagsRight;
    PassesKeepMem(s, now, ev.expiring);
    var kept := Unexpired(s.running, now);
    var start := Plan(Unexpired(s.waiting, now), kept, FreeAll(s.mem, ExpiredIds(s.running, now), ev.expiring), [], [],
      0);
    DecodePassFlags(start, kept);
    DecodePassFrame(start, kept);
    var decoded := DecodePass(start, kept);
    PrefillPassFlags(decoded, decoded.running, s.config);
    AdmissionsFlags(PlanRunning(s, now, ev.expiring), s.config, ev.admitting);
  }
}
