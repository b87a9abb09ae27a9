/** An engine with nothing running: how often its waiting requests can be refused before the prefix cache is used up. */
module ServingRefusals {
  import opened Types
  import opened RadixTrie
  import opened BlockAccounting
  import opened BlockRefusal
  import opened SchedulerModel
  import opened SchedulerPlan
  import opened ServingSystem
  import opened ServingSteps
  import opened ServingRuns

  /** The number of nodes after removing one, the root always staying. */
  function OneLess(n: nat): nat {
    if n <= 1 then 1 else n - 1
  }

  lemma TreeSizes(m: Mem)
    requires Sound(m)
    ensures [] in m.tree && |m.tree| >= 1 && (|m.tree| == 1 <==> m.tree.Keys == {[]})
  {
    var root: set<Path> := {[]};
    assert |m.tree.Keys| == |root| + |m.tree.Keys - root|;
  }

  /** A refused allocation costs the cache one node, if it has one besides the root. */
  lemma RefusalSize(m: Mem, id: RequestId, prompt: seq<Token>, ps: seq<Path>)
    requires Sound(m) && PermittedAllocate(m, prompt, ps) && AllocateWithPrefix(m, id, prompt, ps).result.None?
    ensures |AllocateWithPrefix(m, id, prompt, ps).mem.tree| == OneLess(|m.tree|)
  {
    hide Sound, AllocateWithPrefix, PermittedAllocate;
    SoundFits(m);
    RefusalShrinks(m, id, prompt, ps);
    TreeSizes(m);
    var u := AllocateWithPrefix(m, id, prompt, ps).mem;
    if ps != [] {
      assert |u.tree.Keys| == |m.tree.Keys - {ps[0]}|;
    }
  }

  /** One `schedule` call with nothing running, before or after. */
  lemma IdleSchedule(s: State, now: nat, ev: Evictions)
    requires Sound(s.mem) && PermittedSchedule(s, now, ev) && s.config.maxPrefillChunkSize >= 1
      && s.config.maxTokensPerIter >= 1
    requires s.running == [] && Schedule(s, now, ev).running == []
    ensures var u := Schedule(s, now, ev);
      if u.waiting != [] then |u.mem.tree| == OneLess(|s.mem.tree|) else u.mem == s.mem
  {
    hide Sound, PermittedFrees, PlanRunning, Admissions, AllocateWithPrefix, PermittedAllocate;
    var u := Schedule(s, now, ev);
    assert ExpiredIds(s.running, now) == [] && FreeAll(s.mem, [], ev.expiring) == s.mem;
    if u.waiting != [] {
      EmptyPlan(s, now, ev);
      RefusalSize(s.mem, u.waiting[0].id, u.waiting[0].promptTokens, ev.refusing);
    } else {
      NoneAdmitted(s, now, ev);
    }
  }

  lemma NoneAdmitted(s: State, now: nat, ev: Evictions)
    requires Sound(s.mem) && PermittedSchedule(s, now, ev) && s.config.maxPrefillChunkSize >= 1
    requires Schedule(s, now, ev).running == [] && Schedule(s, now, ev).waiting == []
    ensures Schedule(s, now, ev).mem == FreeAll(s.mem, ExpiredIds(s.running, now), ev.expiring)
  {
    hide Sound, Exact, PermittedFrees, PlanRunning, AllocateWithPrefix, PermittedAllocate, FreeAll;
    PlanRunningFacts(s, now, ev.expiring);
    var pl := PlanRunning(s, now, ev.expiring);
    AdmissionsFacts(pl, s.config, ev.admitting);
    assert ev.admitting == [];
  }

  // ---------------------------------------------------------------- runs

  /** No event of the run gets a request running. */
  ghost predicate Stalled(s: System, es: seq<Event>)
    requires Inv(s) && Legal(s, es)
    decreases |es|
  {
    es != [] ==>
      && !es[0].CommitBatch? && Next(s, es[0]).sched.running == []
      && (NextKeepsInv(s, es[0]); Stalled(Next(s, es[0]), es[1..]))
  }

  /** How many calls of `schedule` refused the front of the waiting queue. */
  ghost function Refusals(s: System, es: seq<Event>): nat
    requires Inv(s) && Legal(s, es)
    decreases |es|
  {
    if es == [] then 0
    else
      NextKeepsInv(s, es[0]);
      (if es[0].PlanBatch? && Next(s, es[0]).sched.waiting != [] then 1 else 0) + Refusals(Next(s, es[0]), es[1..])
  }

  lemma StalledStep(s: System, e: Event)
    requires Inv(s) && Enabled(s, e) && s.sched.running == [] && !e.CommitBatch? && Next(s, e).sched.running == []
    ensures var u := Next(s, e);
      |u.sched.mem.tree| ==
        if e.PlanBatch? && u.sched.waiting != [] then OneLess(|s.sched.mem.tree|) else |s.sched.mem.tree|
  {
    hide Inv, Sound, PermittedSchedule, Schedule;
    ConfigOk(s);
    if e.PlanBatch? {
      IdleSchedule(s.sched, e.now, e.ev);
    }
  }

  lemma InvSound(s: System)
    requires Inv(s)
    ensures Sound(s.sched.mem)
  {
  }

  /**
   * While nothing runs, each refusal shrinks the cache by exactly one node until it is empty: after at most as many
   * refusals as there were nodes besides the root, the whole cache has been given up.
   */
  lemma {:induction false} RefusalsShrinkCache(s: System, es: seq<Event>)
    requires Inv(s) && Legal(s, es) && s.sched.running == [] && Stalled(s, es)
    ensures var n, k := |s.sched.mem.tree|, Refusals(s, es);
      && |After(s, es).sched.mem.tree| == (if k < n then n - k else 1)
      && (k >= n - 1 ==> After(s, es).sched.mem.tree.Keys == {[]})
    decreases |es|
  {
    hide Inv, Enabled, Next, Sound;
    InvSound(s);
    TreeSizes(s.sched.mem);
    if es != [] {
      ConfigOk(s);
      NextKeepsInv(s, es[0]);
      StalledStep(s, es[0]);
      RefusalsShrinkCache(Next(s, es[0]), es[1..]);
    }
  }
}
