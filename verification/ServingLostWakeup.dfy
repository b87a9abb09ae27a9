/** The engine asleep on a request that one more `schedule` call would admit. */
module ServingLostWakeup {
  import opened Types
  import opened RadixTrie
  import opened BlockAccounting
  import opened BlockSafety
  import opened BlockRefusal
  import opened RefusalExamples
  import opened SchedulerModel
  import opened ServingSystem
  import opened ServingRuns
  import opened ServingDrain
  import opened ServingEarly
  import opened ServingOne
  import opened ServingWakeup

  // ---------------------------------------------------------------- the block manager after the needless refusal

  lemma OnlyOtherLeaf(a: Token, b: Token)
    requires a != b
    ensures (TwoLeaves(a, b) - {[a]}).Keys == {[], [b]}
  {
    assert [a] != [b];
  }

  lemma LongLookup(m: Mem, b: Token, prompt: seq<Token>)
    requires Sound(m) && m.tree.Keys == {[], [b]} && m.tree[[b]].blocks == [4] && m.refs == [0, 0, 0, 0, 1, 0]
    requires m.blockSize == 1 && |m.free| == 5 && |prompt| == 6 && prompt[0] != b
    ensures HitBlocks(m, prompt) == [] && NewBlocksNeeded(m, prompt) == 6 && Releasable(m, prompt, [b]) == {4}
  {
    SoundFits(m);
    assert Child([], prompt[0]) == [prompt[0]] && [prompt[0]] != [b];
    assert Child([], prompt[0]) !in m.tree.Keys;
    hide WellFormed, HitBlocks, NewBlocksNeeded, Sound, Pin, Hit, HitLength;
    MissPinsNothing(m, prompt);
    var none: seq<BlockId> := [];
    assert multiset(none) == multiset{} && multiset([4])[4] == 1;
  }

  /** The same prompt again: whichever eviction is made, it now gets its blocks. */
  lemma SecondTryAdmits(m: Mem, id: RequestId, b: Token, prompt: seq<Token>, ps: seq<Path>)
    requires Sound(m) && m.tree.Keys == {[], [b]} && m.tree[[b]].blocks == [4] && m.refs == [0, 0, 0, 0, 1, 0]
    requires m.blockSize == 1 && |m.free| == 5 && |prompt| == 6 && prompt[0] != b && PermittedAllocate(m, prompt, ps)
    ensures AllocateWithPrefix(m, id, prompt, ps).result.Some?
  {
    LongLookup(m, b, prompt);
    hide WellFormed, HitBlocks, NewBlocksNeeded, Sound, PermittedAllocate, AllocateWithPrefix, EvictChoice, Releasable,
         Prepared, Pin;
    SoundFits(m);
    PreparedIs(m, prompt, ps);
    RefusedIff(m, id, prompt, ps);
    if ps != [] {
      assert ps[0] in m.tree.Keys;
    }
  }

  // ---------------------------------------------------------------- serving one request, from sleep to sleep

  lemma EmptyStep(s: System, m: Mem)
    requires Empty(s, m) && Sound(m)
    ensures Sound(s.sched.mem) && Enabled(s, PlanBatch(0, NoEvictions())) && Next(s, PlanBatch(0, NoEvictions())) == s
  {
    var sched := s.sched;
    assert Unexpired([], 0) == [] && ExpiredRequests([], 0) == [];
    NothingToFree(m, 0, []);
    PlanOfNone(sched, 0, []);
    var pl := PlanRunning(sched, 0, []);
    NobodyAdmitted(pl, Config10());
    hide Sound, PlanRunning, Unexpired, ExpiredRequests, Admissions, PermittedAdmissions, ExpiredIds, PermittedFrees;
    assert s.gone + [] + [] == s.gone;
  }

  /** A sleeping worker with nothing to do. */
  ghost predicate Resting(l: Loop, m: Mem) {
    l.asleep && !l.permit && l.pending == 0 && Empty(l.sys, m)
  }

  ghost function Cycle(id: RequestId, k: Token): seq<Act> {
    [Do(Arrive(OneToken(id, k)))] + ([Notify] + ([Do(PlanBatch(0, Admitting()))] + ([Do(CommitBatch([9], [[]]))]
      + ([Do(PlanBatch(0, NoEvictions()))] + []))))
  }

  lemma NoActs(l: Loop)
    requires LoopInv(l)
    ensures Runs(l, []) && EndOf(l, []) == l
  {
  }

  lemma ArriveAct(l: Loop, r: Request)
    requires LoopInv(l) && Enabled(l.sys, Arrive(r))
    ensures Sound(l.sys.sched.mem) && Can(l, Do(Arrive(r)))
    ensures Step(l, Do(Arrive(r))) == l.(sys := Next(l.sys, Arrive(r)), pending := l.pending + 1)
    ensures LoopInv(Step(l, Do(Arrive(r))))
  {
    LoopSound(l);
    hide Inv, Sound, Enabled, Next;
    StepKeepsInv(l, Do(Arrive(r)));
  }

  lemma WakeAct(l: Loop)
    requires LoopInv(l) && l.asleep && l.pending > 0
    ensures Sound(l.sys.sched.mem) && Can(l, Notify)
    ensures Step(l, Notify) == l.(asleep := false, pending := l.pending - 1) && LoopInv(Step(l, Notify))
  {
    LoopSound(l);
    hide Inv, Sound;
  }

  lemma PlanAct(l: Loop, now: nat, ev: Evictions)
    requires LoopInv(l) && !l.asleep && !l.permit && Enabled(l.sys, PlanBatch(now, ev))
    ensures Sound(l.sys.sched.mem) && Can(l, Do(PlanBatch(now, ev)))
    ensures var u := Next(l.sys, PlanBatch(now, ev));
      Step(l, Do(PlanBatch(now, ev))) == l.(sys := u, asleep := u.phase.Idle?)
    ensures LoopInv(Step(l, Do(PlanBatch(now, ev))))
  {
    LoopSound(l);
    hide Inv, Sound, Enabled, Next;
    StepKeepsInv(l, Do(PlanBatch(now, ev)));
  }

  lemma CommitAct(l: Loop, tokens: seq<Token>, pss: seq<seq<Path>>)
    requires LoopInv(l) && Enabled(l.sys, CommitBatch(tokens, pss))
    ensures Sound(l.sys.sched.mem) && Can(l, Do(CommitBatch(tokens, pss)))
    ensures Step(l, Do(CommitBatch(tokens, pss))) == l.(sys := Next(l.sys, CommitBatch(tokens, pss)))
    ensures LoopInv(Step(l, Do(CommitBatch(tokens, pss))))
  {
    LoopSound(l);
    hide Inv, Sound, Enabled, Next;
    StepKeepsInv(l, Do(CommitBatch(tokens, pss)));
  }

  /** One request comes, wakes the worker, is served and freed, and the worker goes back to sleep. */
  lemma ServeCycle(l: Loop, m: Mem, u: Mem, v: Mem, b: BlockId, id: RequestId, k: Token)
    requires LoopInv(l) && Resting(l, m) && Sound(m) && id !in l.sys.arrived && id !in l.sys.fed
    requires PermittedAllocate(m, [k], []) && AllocateWithPrefix(m, id, [k], []) == Allocation(u, Some(([b], 0)))
    requires Sound(u) && PermittedFree(u, id, []) && Free(u, id, []) == v && Sound(v)
    ensures Runs(l, Cycle(id, k)) && EndOf(l, Cycle(id, k)) == l.(sys := ServedBy(l.sys, id, k, v))
  {
    hide Sound, PermittedAllocate, AllocateWithPrefix, Free, PermittedFree, Enabled, Next, LoopInv, Can, Step;
    var s, r := l.sys, OneToken(id, k);
    var e := ServedBy(s, id, k, v);
    ArriveStep(s, m, r);
    PlanStep(s, m, u, b, id, k);
    CommitStep(s, m, u, v, id, k);
    EmptyStep(e, v);
    hide Queued, Busy, ServedBy, Runs, EndOf;
    ArriveAct(l, r);
    var l1 := l.(sys := Queued(s, r), pending := 1);
    WakeAct(l1);
    var l2 := l1.(asleep := false, pending := 0);
    PlanAct(l2, 0, Admitting());
    BusyPhase(s, id, k, u, v);
    var l3 := l2.(sys := Busy(s, id, k, u));
    CommitAct(l3, [9], [[]]);
    var l4 := l3.(sys := e);
    PlanAct(l4, 0, NoEvictions());
    var l5 := l4.(asleep := true);
    NoActs(l5);
    LoopCons(l4, Do(PlanBatch(0, NoEvictions())), []);
    LoopCons(l3, Do(CommitBatch([9], [[]])), [Do(PlanBatch(0, NoEvictions()))] + []);
    LoopCons(l2, Do(PlanBatch(0, Admitting())), [Do(CommitBatch([9], [[]]))]
      + ([Do(PlanBatch(0, NoEvictions()))] + []));
    LoopCons(l1, Notify,
      [Do(PlanBatch(0, Admitting()))] + ([Do(CommitBatch([9], [[]]))] + ([Do(PlanBatch(0, NoEvictions()))] + [])));
    LoopCons(l, Do(Arrive(r)), [Notify]
      + ([Do(PlanBatch(0, Admitting()))] + ([Do(CommitBatch([9], [[]]))] + ([Do(PlanBatch(0, NoEvictions()))] + []))));
  }

  lemma BusyPhase(s: System, id: RequestId, k: Token, u: Mem, v: Mem)
    requires s.phase == Phase.Idle
    ensures Busy(s, id, k, u).phase.Computing? && ServedBy(s, id, k, v).phase == Phase.Idle
    ensures Empty(ServedBy(s, id, k, v), v)
  {
  }

  // ---------------------------------------------------------------- the run

  ghost function SixTokens(prompt: seq<Token>): Request {
    Request(3, prompt, [], 1, true, 0, 0, [], None)
  }

  ghost function RefusedState(s: System, prompt: seq<Token>, v: Mem): System {
    Queued(s, SixTokens(prompt)).(sched := Engine([SixTokens(prompt)], [], v))
  }

  /** A `schedule` call that refuses the only request. */
  lemma RefuseStep(s: System, m: Mem, v: Mem, prompt: seq<Token>, ps: seq<Path>)
    requires Empty(s, m) && Sound(m) && PermittedAllocate(m, prompt, ps)
    requires AllocateWithPrefix(m, 3, prompt, ps) == Allocation(v, None)
    ensures var q, e := Queued(s, SixTokens(prompt)), PlanBatch(0, Evictions([], [], ps));
      Sound(q.sched.mem) && Enabled(q, e) && Next(q, e) == RefusedState(s, prompt, v)
  {
    hide Sound, PermittedAllocate, AllocateWithPrefix, PermittedSchedule, Schedule, Expired, ExpiredRequests, Unexpired;
    var q, r := Queued(s, SixTokens(prompt)), SixTokens(prompt);
    NoDeadline(r);
    QueueOfOne(r, 0);
    RefusalIsPlan(q.sched, 0, ps);
    assert q.gone + [] + [] == q.gone;
  }

  lemma NoDeadline(r: Request)
    requires r.deadline == None
    ensures !Expired(r, 0)
  {
  }

  /** Any further `schedule` call would start the waiting request, and there is one that could be made. */
  ghost predicate WouldAdmit(s: State)
    requires Sound(s.mem)
  {
    && (exists ev :: PermittedSchedule(s, 0, ev))
    && forall ev | PermittedSchedule(s, 0, ev) :: Schedule(s, 0, ev).running != []
  }

  lemma LongWouldAdmit(m: Mem, b: Token, prompt: seq<Token>)
    requires Sound(m) && m.tree.Keys == {[], [b]} && m.tree[[b]].blocks == [4] && m.refs == [0, 0, 0, 0, 1, 0]
    requires m.blockSize == 1 && |m.free| == 5 && |prompt| == 6 && prompt[0] != b
    ensures WouldAdmit(Engine([SixTokens(prompt)], [], m))
  {
    hide Sound, PermittedSchedule, Schedule, Unexpired, Expired, PermittedAllocate, AllocateWithPrefix;
    var s, r := Engine([SixTokens(prompt)], [], m), SixTokens(prompt);
    NoDeadline(r);
    QueueOfOne(r, 0);
    var possible := PlanPossible(s, 0);
    forall ev | PermittedSchedule(s, 0, ev)
      ensures Schedule(s, 0, ev).running != []
    {
      if Schedule(s, 0, ev).running == [] {
        EmptyWasRefused(s, 0, ev);
        SecondTryAdmits(m, 3, b, prompt, ev.refusing);
      }
    }
  }

  /** From rest: a request comes, wakes the worker, is refused, and the worker sleeps again. */
  lemma RefuseCycle(l: Loop, m: Mem, v: Mem, prompt: seq<Token>, ps: seq<Path>) returns (acts: seq<Act>)
    requires LoopInv(l) && Resting(l, m) && Sound(m) && 3 !in l.sys.arrived && PermittedAllocate(m, prompt, ps)
    requires AllocateWithPrefix(m, 3, prompt, ps) == Allocation(v, None)
    ensures Runs(l, acts) && EndOf(l, acts) == l.(sys := RefusedState(l.sys, prompt, v))
  {
    hide Sound, PermittedAllocate, AllocateWithPrefix, Enabled, Next, LoopInv, Can, Step;
    var s, r := l.sys, SixTokens(prompt);
    ArriveStep(s, m, r);
    RefuseStep(s, m, v, prompt, ps);
    RefusedPhase(s, prompt, v);
    hide Queued, RefusedState, Runs, EndOf;
    var plan := PlanBatch(0, Evictions([], [], ps));
    ArriveAct(l, r);
    var l1 := l.(sys := Queued(s, r), pending := 1);
    WakeAct(l1);
    var l2 := l1.(asleep := false, pending := 0);
    PlanAct(l2, 0, Evictions([], [], ps));
    var l3 := l2.(sys := RefusedState(s, prompt, v), asleep := true);
    NoActs(l3);
    LoopCons(l2, Do(plan), []);
    LoopCons(l1, Notify, [Do(plan)] + []);
    LoopCons(l, Do(Arrive(r)), [Notify] + ([Do(plan)] + []));
    acts := [Do(Arrive(r))] + ([Notify] + ([Do(plan)] + []));
  }

  lemma RefusedPhase(s: System, prompt: seq<Token>, v: Mem)
    requires s.phase == Phase.Idle
    ensures RefusedState(s, prompt, v).phase == Phase.Idle
  {
  }

  /** The first thing a new worker does is to find nothing and go to sleep. */
  lemma FirstSleep(l: Loop, m: Mem)
    requires LoopInv(l) && Empty(l.sys, m) && Sound(m) && !l.asleep && !l.permit && l.pending == 0
    ensures var acts := [Do(PlanBatch(0, NoEvictions()))];
      Runs(l, acts) && EndOf(l, acts) == l.(asleep := true) && Resting(l.(asleep := true), m)
  {
    hide Sound, Enabled, Next, LoopInv, Can, Step;
    EmptyStep(l.sys, m);
    PlanAct(l, 0, NoEvictions());
    NoActs(l.(asleep := true));
    LoopCons(l, Do(PlanBatch(0, NoEvictions())), []);
    assert [Do(PlanBatch(0, NoEvictions()))] + [] == [Do(PlanBatch(0, NoEvictions()))];
  }

  lemma BootLoop()
    ensures var l := NewLoop(1, 6, Config10());
      && LoopInv(l) && Empty(l.sys, Initial(1, 6)) && !l.asleep && !l.permit && l.pending == 0
      && l.sys.arrived == [] && l.sys.fed == map[]
  {
    BootInv(1, 6, Config10());
  }

  lemma AfterServing(l: Loop, id: RequestId, k: Token, v: Mem)
    requires l.asleep && !l.permit && l.pending == 0 && l.sys.phase == Phase.Idle
    ensures var u := l.(sys := ServedBy(l.sys, id, k, v));
      Resting(u, v) && u.sys.arrived == l.sys.arrived + [id] && u.sys.fed == l.sys.fed[id := [k]]
  {
  }

  /** Two requests served, the worker at rest, both prompts cached. */
  lemma BothServed(a: Token, b: Token) returns (acts: seq<Act>)
    requires a != b
    ensures var l := NewLoop(1, 6, Config10());
      && LoopInv(l) && Runs(l, acts)
      && Resting(EndOf(l, acts), BothCached(a, b)) && EndOf(l, acts).sys.arrived == [1, 2]
  {
    BootLoop();
    hide NewLoop, Sound, LoopInv, Runs, EndOf, Can, Step, PermittedAllocate, AllocateWithPrefix, Free, PermittedFree,
         Initial, First, FirstCached, Second, BothCached, Cycle, ServedBy;
    RefusalExamples.Step1(a);
    RefusalExamples.Step2(a);
    RefusalExamples.Step3(a, b);
    RefusalExamples.Step4(a, b);
    var l := NewLoop(1, 6, Config10());
    FirstSleep(l, Initial(1, 6));
    var start, l1 := [Do(PlanBatch(0, NoEvictions()))], l.(asleep := true);
    LoopStays(l, start);
    ServeCycle(l1, Initial(1, 6), First(a), FirstCached(a), 5, 1, a);
    LoopStays(l1, Cycle(1, a));
    AfterServing(l1, 1, a, FirstCached(a));
    var l2 := l1.(sys := ServedBy(l1.sys, 1, a, FirstCached(a)));
    assert l2.sys.arrived == [1];
    ServeCycle(l2, FirstCached(a), Second(a, b), BothCached(a, b), 4, 2, b);
    AfterServing(l2, 2, b, BothCached(a, b));
    LoopAppend(l1, Cycle(1, a), Cycle(2, b));
    LoopAppend(l, start, Cycle(1, a) + Cycle(2, b));
    acts := start + (Cycle(1, a) + Cycle(2, b));
  }

  lemma LoopStays(l: Loop, acts: seq<Act>)
    requires LoopInv(l) && Runs(l, acts)
    ensures LoopInv(EndOf(l, acts))
  {
    hide Runs, LoopInv;
  }

  lemma LongState(a: Token, b: Token, prompt: seq<Token>)
    requires a != b && |prompt| == 6 && prompt[0] != a && prompt[0] != b
    ensures var m := Long(BothCached(a, b), a, b);
      && Sound(m) && m.tree.Keys == {[], [b]} && m.tree[[b]].blocks == [4] && m.refs == [0, 0, 0, 0, 1, 0]
      && m.blockSize == 1 && |m.free| == 5
  {
    Refused(a, b, prompt);
    AllocateWithPrefixSound(BothCached(a, b), 3, prompt, [[a]]);
    OnlyOtherLeaf(a, b);
    OtherLeafStays(a, b);
    hide Sound, TwoLeaves, PermittedAllocate, AllocateWithPrefix, LostByRollback, Held, Debt, Stranded;
  }

  /**
   * The lost wake-up in a run of a new engine: after `[a]` and `[b]` were served, a six-token request is refused and
   * the worker sleeps for good, no notification being under way. One more `schedule` call would start the request.
   */
  lemma LostWakeup(a: Token, b: Token, prompt: seq<Token>) returns (acts: seq<Act>)
    requires a != b && |prompt| == 6 && prompt[0] != a && prompt[0] != b
    ensures LoopInv(NewLoop(1, 6, Config10())) && Runs(NewLoop(1, 6, Config10()), acts)
    ensures var l := EndOf(NewLoop(1, 6, Config10()), acts);
      && Halted(l) && l.sys.sched.waiting == [SixTokens(prompt)]
      && Sound(l.sys.sched.mem) && WouldAdmit(l.sys.sched)
  {
    hide NewLoop, Sound, LoopInv, Runs, EndOf, Can, Step, PermittedAllocate, AllocateWithPrefix, BothCached, Long,
         WouldAdmit;
    var served := BothServed(a, b);
    var l := NewLoop(1, 6, Config10());
    LoopStays(l, served);
    Refused(a, b, prompt);
    var m, v := BothCached(a, b), Long(BothCached(a, b), a, b);
    var last := RefuseCycle(EndOf(l, served), m, v, prompt, [[a]]);
    LongState(a, b, prompt);
    LongWouldAdmit(v, b, prompt);
    LoopAppend(l, served, last);
    acts := served + last;
  }
}
