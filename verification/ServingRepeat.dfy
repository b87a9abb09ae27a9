/** One prompt served twice: the second request is cached in full, and its first decode feeds token 0. */
module ServingRepeat {
  import opened Types
  import opened BlockAccounting
  import opened BlockExamples
  import opened SchedulerModel
  import opened ServingSystem
  import opened ServingRuns
  import opened ServingEarly
  import opened ServingOne

  ghost function SecondPlan(k: Token): Plan {
    Plan([], [Started(OneToken(2, k), 1)], Reused(k), [], [2], 1)
  }

  lemma SecondPlanned(k: Token)
    ensures var s := Engine([OneToken(2, k)], [], Cached(k));
      Sound(s.mem) && PermittedSchedule(s, 0, Admitting()) && Schedule(s, 0, Admitting()) == SecondPlan(k)
  {
    SecondAllocation(k);
    hide Sound, PermittedAllocate, AllocateWithPrefix, PermittedSchedule, Schedule;
    AdmissionIs(Cached(k), OneToken(2, k), Reused(k), [2], 1, Config10());
  }

  // ---------------------------------------------------------------- the states of the run

  ghost function Served1(k: Token): System {
    ServedBy(Boot(1, 3, Config10()), 1, k, Cached(k))
  }

  ghost function Waiting2(k: Token): System {
    Queued(Served1(k), OneToken(2, k))
  }

  ghost function Computing2(k: Token): System {
    Waiting2(k).(sched := Engine([], [Started(OneToken(2, k), 1)], Reused(k)), phase := Computing(SecondPlan(k)))
  }

  lemma BootEmpty()
    ensures Inv(Boot(1, 3, Config10())) && Sound(Initial(1, 3)) && Empty(Boot(1, 3, Config10()), Initial(1, 3))
  {
    BootInv(1, 3, Config10());
    InitialSound(1, 3);
  }

  lemma WorkOfSecond(k: Token)
    ensures Items(Computing2(k)) == [WorkItem(2, [0], false, false, false)]
  {
    var ids: seq<RequestId> := [2];
    var r := Started(OneToken(2, k), 1);
    assert ids[..0] == [];
    FirstOf(r);
    assert PrefillItems([r], [], Config10()) == [];
    assert DecodeItems([r], ids) == [WorkItem(2, [0], false, false, false)];
  }

  lemma SecondPlanStep(k: Token)
    ensures var s, e := Waiting2(k), PlanBatch(0, Admitting());
      Sound(s.sched.mem) && Enabled(s, e) && Next(s, e) == Computing2(k)
  {
    SecondPlanned(k);
    hide Sound, Schedule, PermittedSchedule, Enabled, Next, Cached, Reused, Started, Answered;
    PlanIs(Waiting2(k), OneToken(2, k), SecondPlan(k));
  }

  /**
   * Serving `[k]` twice: the model computes the second answer from token 0, having been fed nothing of the second
   * prompt.
   */
  lemma SecondServingFeedsZero(k: Token) returns (es: seq<Event>)
    ensures Inv(Boot(1, 3, Config10())) && Legal(Boot(1, 3, Config10()), es)
    ensures var u := After(Boot(1, 3, Config10()), es);
      && u.phase.Computing? && Items(u) == [WorkItem(2, [0], false, false, false)]
      && u.sched.running == [Started(OneToken(2, k), 1)] && FedTo(u.fed, 2) == []
  {
    BootEmpty();
    FirstAllocation(k);
    FirstFree(k);
    hide Inv, Sound, AllocateWithPrefix, PermittedAllocate, Free, PermittedFree, Served, Cached, Initial, Legal, After;
    var tail := SecondTail(k);
    SecondTailFacts(k, tail);
    es := ServeRun(Boot(1, 3, Config10()), Initial(1, 3), Served(k), Cached(k), 2, 1, k, tail);
  }

  /** The second request arrives and is planned. */
  ghost function SecondTail(k: Token): seq<Event> {
    [Arrive(OneToken(2, k))] + ([PlanBatch(0, Admitting())] + [])
  }

  lemma TwoEvents(s: System, e1: Event, s1: System, e2: Event, s2: System)
    requires Inv(s) && Sound(s.sched.mem) && Enabled(s, e1) && Next(s, e1) == s1
    requires Sound(s1.sched.mem) && Enabled(s1, e2) && Next(s1, e2) == s2
    ensures Legal(s, [e1] + ([e2] + [])) && After(s, [e1] + ([e2] + [])) == s2
  {
    hide Inv, Enabled, Next, Sound;
    NextKeepsInv(s, e1);
    NextKeepsInv(s1, e2);
    assert Legal(s2, []) && After(s2, []) == s2;
    hide Legal, After;
    ServingRuns.RunCons(s1, e2, []);
    ServingRuns.RunCons(s, e1, [e2] + []);
  }

  lemma SecondState(k: Token)
    ensures Items(Computing2(k)) == [WorkItem(2, [0], false, false, false)]
    ensures Computing2(k).sched.running == [Started(OneToken(2, k), 1)] && FedTo(Computing2(k).fed, 2) == []
    ensures Empty(Served1(k), Cached(k)) && 2 !in Served1(k).arrived && Unstarted(OneToken(2, k))
  {
    WorkOfSecond(k);
  }

  lemma SecondTailFacts(k: Token, tail: seq<Event>)
    requires tail == SecondTail(k)
    ensures Inv(Served1(k)) ==> Legal(Served1(k), tail) && After(Served1(k), tail) == Computing2(k)
    ensures Items(Computing2(k)) == [WorkItem(2, [0], false, false, false)]
    ensures Computing2(k).sched.running == [Started(OneToken(2, k), 1)] && FedTo(Computing2(k).fed, 2) == []
  {
    hide Inv, Enabled, Next, Items, Sound, Cached, Reused, Schedule, PermittedSchedule, Boot, Served1, Computing2,
         Legal, After, Empty, Unstarted, OneToken, Started;
    SecondPlanned(k);
    SecondPlanStep(k);
    SecondState(k);
    SecondId(k);
    ArriveStep(Served1(k), Cached(k), OneToken(2, k));
    if Inv(Served1(k)) {
      TwoEvents(Served1(k), Arrive(OneToken(2, k)), Waiting2(k), PlanBatch(0, Admitting()), Computing2(k));
    }
  }

  lemma SecondId(k: Token)
    ensures OneToken(2, k).id == 2
  {
  }
}
