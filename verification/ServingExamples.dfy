/** When a request leaves before its prompt has been processed. */
module ServingExamples {
  import opened Types
  import opened RadixTrie
  import opened BlockAccounting
  import opened BlockSafety
  import opened BlockExamples
  import opened SchedulerModel
  import opened ServingSystem
  import opened ServingRuns
  import opened ServingEarly

  ghost function Config1(): Config {
    Config(10, 1)
  }

  /** A two-token prompt with a limit of one output token, prefilled one token at a time. */
  ghost function TwoTokens(): Request {
    Request(1, [5, 6], [], 1, true, 0, 0, [], None)
  }

  ghost function MemAfterPlan(): Mem {
    Mem(1, [0, 0, 0, 0, 1, 1], [0, 1, 2, 3], map[1 := [5, 4]], map[1 := [5, 6]], EmptyTree(), 2, 1)
  }

  lemma FirstLookup()
    ensures Sound(Initial(1, 6)) && PermittedAllocate(Initial(1, 6), [5, 6], [])
    ensures HitBlocks(Initial(1, 6), [5, 6]) == [] && HitLength(Initial(1, 6), [5, 6]) == 0
    ensures NewBlocksNeeded(Initial(1, 6), [5, 6]) == 2 && Prepared(Initial(1, 6), [5, 6], []) == Initial(1, 6)
  {
    InitialSound(1, 6);
    var m := Initial(1, 6);
    assert Child([], 5) == [5] && [5] !in m.tree;
    hide Sound, Prepared, PermittedAllocate, HitBlocks, HitLength, NewBlocksNeeded;
    assert WellFormed(m.tree) by {
      SoundCounted(m);
    }
    hide WellFormed;
    MissEvictsNothing(m, [5, 6]);
  }

  lemma FirstTake()
    ensures |Initial(1, 6).free| == 6 && Popped(Initial(1, 6).free, 2) == [5, 4]
    ensures Take(Initial(1, 6), 1, [], 2) == MemAfterPlan().(prompts := map[])
  {
    var m := Initial(1, 6);
    assert m.free == [0, 1, 2, 3, 4, 5] && m.refs == [0, 0, 0, 0, 0, 0];
    assert Popped(m.free, 2) == [5, 4];
    assert SetOne(m.refs, [5, 4]) == [0, 0, 0, 0, 1, 1];
    assert m.free[..4] == [0, 1, 2, 3];
    assert [] + [5, 4] == [5, 4];
  }

  lemma FirstBlocks()
    ensures Sound(Initial(1, 6)) && PermittedAllocate(Initial(1, 6), [5, 6], [])
    ensures AllocateWithPrefix(Initial(1, 6), 1, [5, 6], []) == Allocation(MemAfterPlan(), Some(([5, 4], 0)))
    ensures Sound(MemAfterPlan())
  {
    FirstLookup();
    FirstTake();
    var m := Initial(1, 6);
    SoundCounted(m);
    AllocationIs(m, 1, [5, 6], [], [], 2, m);
    AllocateWithPrefixSound(m, 1, [5, 6], []);
    assert [] + [5, 4] == [5, 4];
    assert MemAfterPlan().(prompts := map[]).(prompts := map[1 := [5, 6]]) == MemAfterPlan();
    assert m.prompts[1 := [5, 6]] == map[1 := [5, 6]];
    hide Sound, WellFormed, PermittedAllocate, AllocateWithPrefix, Take, Popped, Prepared, HitBlocks, HitLength,
         NewBlocksNeeded, Counted;
  }

  ghost function PlanOfOne(): Plan {
    Plan([], [TwoTokens()], MemAfterPlan(), [1], [], 1)
  }

  lemma FirstPlan()
    ensures var s := State([TwoTokens()], [], Initial(1, 6), Config1());
      Sound(s.mem) && PermittedSchedule(s, 0, Admitting()) && Schedule(s, 0, Admitting()) == PlanOfOne()
  {
    FirstBlocks();
    hide Sound, AllocateWithPrefix, PermittedAllocate, PermittedSchedule, Schedule, MemAfterPlan;
    AdmissionIs(Initial(1, 6), TwoTokens(), MemAfterPlan(), [5, 4], 0, Config1());
    assert Started(TwoTokens(), 0) == TwoTokens();
  }

  ghost function MemAfterCommit(): Mem {
    Mem(1, [0, 0, 0, 0, 1, 1], [0, 1, 2, 3], map[], map[], EmptyTree()[[5] := Entry([5, 6], [5, 4], 1)], 2, 2)
  }

  lemma FirstDeposit()
    ensures Sound(MemAfterPlan()) && PermittedFree(MemAfterPlan(), 1, [])
      && Free(MemAfterPlan(), 1, []) == MemAfterCommit()
    ensures WellFormed(MemAfterCommit().tree) && Label(MemAfterCommit().tree, [5]) == [5, 6]
  {
    FirstBlocks();
    SoundCounted(MemAfterPlan());
    FirstNode();
    var m, t := MemAfterPlan(), MemAfterCommit().tree;
    hide Sound, WellFormed, Inserted, Label, Slot, TreeBlocks, Free, PermittedFree, EmptyTree;
    assert |multiset([5, 4])| == |[5, 4]|;
    FreeIs(m, 1, t);
    assert m.table - {1} == map[] && m.prompts - {1} == map[];
  }

  lemma FirstNode()
    ensures var e, t := EmptyTree(), MemAfterCommit().tree;
      && WellFormed(e) && WellFormed(t) && t == Inserted(e, [5, 6], [5, 4], 1) && Slot(e, [], [5, 6]).Some?
      && TreeBlocks(t) == multiset([5, 4]) && Label(t, [5]) == [5, 6]
  {
    var e, t := EmptyTree(), MemAfterCommit().tree;
    assert Child([], 5) == [5];
    LookupStarts(e, 0);
    assert Slot(e, [], [5, 6]) == Some([5]);
    assert [5, 6][0..] == [5, 6];
    InsertedFacts(e, [5, 6], [5, 4], 1);
    RootHoldsNothing(e);
    assert t == Inserted(e, [5, 6], [5, 4], 1);
  }

  /** The request as it leaves: one of two prompt tokens processed. */
  ghost function Half(): Request {
    TwoTokens().(generatedTokens := [9], prefillCursor := 1)
  }

  lemma FirstCommit()
    ensures var s, results := State([], [TwoTokens()], MemAfterPlan(), Config1()), [ComputeResult(1, 9)];
      && Computed(s.running, [1], results, s.config) == [Half()]
      && FinishedRequests([Half()]) == [Half()]
      && Sound(s.mem) && PermittedCommit(s, [1], results, [[]])
      && Commit(s, [1], results, [[]]).mem == MemAfterCommit()
  {
    FirstDeposit();
    var s, results := State([], [TwoTokens()], MemAfterPlan(), Config1()), [ComputeResult(1, 9)];
    hide Sound, Free, PermittedFree;
    var one: seq<seq<Path>> := [[]];
    assert results[..0] == [] && [1][..0] == [] && [Half()][..0] == [] && one[..0] == [];
    assert IndexOf([TwoTokens()], 1) == Some(0);
    assert PushTokens([TwoTokens()], []) == [TwoTokens()];
    assert [TwoTokens()][0 := Half()] == [Half()];
    assert TwoTokens().generatedTokens + [9] == [9];
    assert [TwoTokens()][0 := TwoTokens().(generatedTokens := [9])] == [TwoTokens().(generatedTokens := [9])];
    assert PushTokens([TwoTokens()], results) == [TwoTokens().(generatedTokens := [9])];
    assert Computed(s.running, [1], results, s.config) == [Half()];
    assert Ids([Half()]) == [1];
    assert IndexOf([Half()], 1) == Some(0);
  }

  ghost function Arrived(): System {
    System(State([TwoTokens()], [], Initial(1, 6), Config1()), Phase.Idle, [1], [], map[])
  }

  ghost function Planned(): System {
    System(State([], [TwoTokens()], MemAfterPlan(), Config1()), Computing(PlanOfOne()), [1], [], map[])
  }

  ghost function Left(): System {
    System(State([], [], MemAfterCommit(), Config1()), Phase.Idle, [1], [Half()], map[1 := [5]])
  }

  lemma ArriveStep()
    ensures var s, e := Boot(1, 6, Config1()), Arrive(TwoTokens());
      Inv(s) && Enabled(s, e) && Next(s, e) == Arrived()
  {
    BootInv(1, 6, Config1());
    hide Inv, Sound;
    assert Sound(Initial(1, 6)) by {
      InitialSound(1, 6);
    }
  }

  lemma PlanStep()
    ensures var s, e := Arrived(), PlanBatch(0, Admitting());
      Sound(s.sched.mem) && Enabled(s, e) && Next(s, e) == Planned()
  {
    FirstPlan();
    hide Sound, Schedule, PermittedSchedule, Enabled, Next, MemAfterPlan;
    PlanIs(Arrived(), TwoTokens(), PlanOfOne());
  }

  lemma WorkOfPlan()
    ensures Items(Planned()) == [WorkItem(1, [5], false, true, true)]
    ensures Results(Items(Planned()), [9]) == [ComputeResult(1, 9)]
    ensures Feed(map[], Items(Planned())) == map[1 := [5]]
  {
    var ids: seq<RequestId> := [1];
    assert ids[..0] == [];
    assert IndexOf([TwoTokens()], 1) == Some(0);
    assert [5, 6][0..1] == [5];
    var items := [WorkItem(1, [5], false, true, true)];
    assert PrefillItems([TwoTokens()], ids, Config1()) == items;
    assert DecodeItems([TwoTokens()], []) == [];
    assert items[..0] == [] && [] + [5] == [5];
  }

  lemma CommitStep()
    ensures var s, e := Planned(), CommitBatch([9], [[]]);
      Sound(s.sched.mem) && Enabled(s, e) && Next(s, e) == Left()
  {
    FirstCommit();
    WorkOfPlan();
    hide Sound, PermittedCommit, Computed, FinishedRequests, Items, Results, Feed;
    assert Commit(Planned().sched, [1], [ComputeResult(1, 9)], [[]]).running == [];
  }

  /**
   * A request can finish before its prefill does: two one-token chunks are due, the first already yields the only
   * output token. The prompt is then cached as a whole although the model has seen only its first token.
   */
  lemma FinishesBeforePrefill() returns (es: seq<Event>)
    ensures Inv(Boot(1, 6, Config1())) && Legal(Boot(1, 6, Config1()), es)
    ensures var u := After(Boot(1, 6, Config1()), es);
      && u.gone == [Half()] && Half().prefillCursor < |Half().promptTokens|
      && FedTo(u.fed, 1) == [5]
      && WellFormed(u.sched.mem.tree) && [5] in u.sched.mem.tree && Label(u.sched.mem.tree, [5]) == Half().promptTokens
  {
    ArriveStep();
    PlanStep();
    CommitStep();
    FirstDeposit();
    var s, e1, e2, e3 := Boot(1, 6, Config1()), Arrive(TwoTokens()), PlanBatch(0, Admitting()),
      CommitBatch([9], [[]]);
    hide Inv, Enabled, Next;
    NextKeepsInv(s, e1);
    NextKeepsInv(Arrived(), e2);
    NextKeepsInv(Planned(), e3);
    assert Legal(Left(), []) && After(Left(), []) == Left();
    hide Legal, After;
    ServingRuns.RunCons(Planned(), e3, []);
    ServingRuns.RunCons(Arrived(), e2, [e3] + []);
    ServingRuns.RunCons(s, e1, [e2] + ([e3] + []));
    es := [e1] + ([e2] + ([e3] + []));
  }
}
