/**
 * The worker's loop with its wake-ups: after an empty `schedule` call it sleeps until an arriving request notifies it.
 * Without arrivals it soon sleeps for good, possibly with requests still waiting.
 */
module ServingWakeup {
  import opened RadixTrie
  import opened BlockAccounting
  import opened BlockRefusal
  import opened SchedulerModel
  import opened SchedulerPlan
  import opened ServingSystem
  import opened ServingSteps
  import opened ServingRuns
  import opened ServingProgress
  import opened ServingDrain
  import opened ServingEarly

  /** `permit` is a notification nobody waited for, `pending` counts requests queued but not yet notified. */
  datatype Loop = Loop(sys: System, asleep: bool, permit: bool, pending: nat)

  datatype Act = Do(e: Event) | Notify

  ghost predicate Can(l: Loop, a: Act)
    requires Sound(l.sys.sched.mem)
  {
    match a
    case Do(e) => Enabled(l.sys, e) && (e.PlanBatch? ==> !l.asleep)
    case Notify => l.pending > 0
  }

  /**
   * An arrival queues the request and notifies afterwards; a notification wakes the worker or is kept, at most one of
   * them.
   */
  ghost function Step(l: Loop, a: Act): (u: Loop)
    requires Sound(l.sys.sched.mem) && Can(l, a)
    ensures Sound(u.sys.sched.mem)
  {
    match a
    case Notify => if l.asleep then l.(asleep := false, pending := l.pending - 1)
      else l.(permit := true, pending := l.pending - 1)
    case Do(e) =>
      var s := Next(l.sys, e);
      match e
      case Arrive(_) => l.(sys := s, pending := l.pending + 1)
      case PlanBatch(_, _) =>
        if s.phase.Computing? then l.(sys := s)
        else if l.permit then l.(sys := s, permit := false)
        else l.(sys := s, asleep := true)
      case CommitBatch(_, _) => l.(sys := s)
  }

  ghost predicate LoopInv(l: Loop) {
    && Inv(l.sys)
    && (l.asleep ==> l.sys.phase.Idle? && l.sys.sched.running == [] && !l.permit)
  }

  /** A new engine: the worker begins with a `schedule` call. */
  ghost function NewLoop(blockSize: nat, numBlocks: nat, config: Config): Loop {
    Loop(Boot(blockSize, numBlocks, config), false, false, 0)
  }

  lemma StepKeepsInv(l: Loop, a: Act)
    requires LoopInv(l) && Can(l, a)
    ensures LoopInv(Step(l, a))
  {
    hide Inv, Sound, Schedule, PermittedSchedule, PermittedCommit, Commit;
    ConfigOk(l.sys);
    if a.Do? {
      NextKeepsInv(l.sys, a.e);
      if a.e.PlanBatch? {
        EmptyPlanIdle(l.sys, a.e.now, a.e.ev);
      }
    }
  }

  // ---------------------------------------------------------------- runs

  ghost predicate Runs(l: Loop, acts: seq<Act>)
    requires LoopInv(l)
    decreases |acts|
  {
    acts != [] ==>
      && Can(l, acts[0])
      && (StepKeepsInv(l, acts[0]); Runs(Step(l, acts[0]), acts[1..]))
  }

  ghost function EndOf(l: Loop, acts: seq<Act>): (u: Loop)
    requires LoopInv(l) && Runs(l, acts)
    ensures LoopInv(u)
    decreases |acts|
  {
    if acts == [] then l
    else
      StepKeepsInv(l, acts[0]);
      EndOf(Step(l, acts[0]), acts[1..])
  }

  function Events(acts: seq<Act>): seq<Event> {
    if acts == [] then [] else (if acts[0].Do? then [acts[0].e] else []) + Events(acts[1..])
  }

  lemma EventsCons(e: Event, es: seq<Event>)
    ensures Plans([e] + es) == (if e.PlanBatch? then 1 else 0) + Plans(es)
    ensures Commits([e] + es) == (if e.CommitBatch? then 1 else 0) + Commits(es)
  {
    assert ([e] + es)[1..] == es;
  }

  lemma StepSystem(l: Loop, a: Act)
    requires LoopInv(l) && Can(l, a)
    ensures Step(l, a).sys == if a.Do? then Next(l.sys, a.e) else l.sys
    ensures a.Do? ==> Enabled(l.sys, a.e)
  {
    hide Inv, Sound, Schedule, PermittedSchedule, PermittedCommit, Commit;
    ConfigOk(l.sys);
  }

  /** Every run of the loop is a run of the serving system, so all that holds of those holds of it. */
  lemma {:induction false} LoopIsRun(l: Loop, acts: seq<Act>)
    requires LoopInv(l) && Runs(l, acts)
    ensures Legal(l.sys, Events(acts)) && After(l.sys, Events(acts)) == EndOf(l, acts).sys
    decreases |acts|
  {
    hide Inv, Sound, Enabled, Next, Step, Can, LoopInv;
    LoopSound(l);
    if acts != [] {
      StepKeepsInv(l, acts[0]);
      StepSystem(l, acts[0]);
      LoopIsRun(Step(l, acts[0]), acts[1..]);
      if acts[0].Do? {
        NextKeepsInv(l.sys, acts[0].e);
        ServingRuns.RunCons(l.sys, acts[0].e, Events(acts[1..]));
      } else {
        assert [] + Events(acts[1..]) == Events(acts[1..]);
      }
    }
  }

  ghost predicate Quiet(acts: seq<Act>) {
    forall i | 0 <= i < |acts| :: acts[i].Do? ==> !acts[i].e.Arrive?
  }

  // ---------------------------------------------------------------- without arrivals the loop ends

  /** How many `schedule` calls the loop may still make before the next commit. */
  function Credit(l: Loop): nat {
    (if !l.asleep && l.sys.phase.Idle? then 1 else 0) + (if l.permit then 1 else 0) + l.pending
  }

  /** Every step without arrivals uses some of this up. */
  ghost function Left(l: Loop): int {
    2 * Measure(l.sys) + Credit(l) + l.pending
  }

  lemma StepCredit(l: Loop, a: Act)
    requires LoopInv(l) && Can(l, a) && (a.Do? ==> !a.e.Arrive?)
    ensures var u := Step(l, a);
      && (if a.Notify? then Credit(u) <= Credit(l) && u.sys == l.sys && u.pending == l.pending - 1
          else u.pending == l.pending && u.sys == Next(l.sys, a.e)
               && Credit(u) == if a.e.PlanBatch? then Credit(l) - 1 else Credit(l) + 1)
  {
    hide Inv, Sound, Schedule, PermittedSchedule, PermittedCommit, Commit;
    ConfigOk(l.sys);
  }

  lemma StepLeft(l: Loop, a: Act)
    requires LoopInv(l) && Can(l, a) && (a.Do? ==> !a.e.Arrive?)
    ensures Left(Step(l, a)) < Left(l)
  {
    StepCredit(l, a);
    hide Inv, Sound, Enabled, Next, Credit, Measure, Step;
    ConfigOk(l.sys);
    if a.Do? {
      match a.e {
        case PlanBatch(now, ev) => PlanRoom(l.sys, now, ev);
        case CommitBatch(tokens, pss) => CommitRoom(l.sys, tokens, pss);
      }
    }
  }

  lemma LeftNonnegative(l: Loop)
    requires LoopInv(l)
    ensures Left(l) >= 0
  {
    hide Inv;
    RoomInState(l.sys);
  }

  /**
   * Without arrivals the loop makes at most as many `schedule` calls as there are commits plus its credit, and at most
   * as many commits as there is room for output; so every such run is bounded in length.
   */
  lemma {:induction false} QuietRunEnds(l: Loop, acts: seq<Act>)
    requires LoopInv(l) && Runs(l, acts) && Quiet(acts)
    ensures Plans(Events(acts)) + Credit(EndOf(l, acts)) <= Commits(Events(acts)) + Credit(l)
    ensures |acts| + Left(EndOf(l, acts)) <= Left(l)
    decreases |acts|
  {
    hide Inv, Sound, Enabled, Next, Left, Credit, Step, LoopInv;
    if acts != [] {
      LoopSound(l);
      StepKeepsInv(l, acts[0]);
      StepLeft(l, acts[0]);
      StepCredit(l, acts[0]);
      QuietRunEnds(Step(l, acts[0]), acts[1..]);
      if acts[0].Do? {
        EventsCons(acts[0].e, Events(acts[1..]));
      } else {
        assert [] + Events(acts[1..]) == Events(acts[1..]);
      }
    }
  }

  lemma LoopSound(l: Loop)
    requires LoopInv(l)
    ensures Inv(l.sys) && Sound(l.sys.sched.mem)
  {
    hide Inv, Sound;
    ConfigOk(l.sys);
  }

  lemma {:induction false} QuietEvents(acts: seq<Act>)
    requires Quiet(acts)
    ensures NoArrivals(Events(acts)) && Arriving(Events(acts)) == 0
  {
    if acts != [] {
      QuietEvents(acts[1..]);
      if acts[0].Do? {
        assert ([acts[0].e] + Events(acts[1..]))[1..] == Events(acts[1..]);
      } else {
        assert [] + Events(acts[1..]) == Events(acts[1..]);
      }
    }
  }

  /**
   * In numbers: with no notification under way, at most the initial room in commits and two more plans than commits.
   */
  lemma QuietBounds(l: Loop, acts: seq<Act>)
    requires LoopInv(l) && Runs(l, acts) && Quiet(acts) && l.pending == 0
    ensures Commits(Events(acts)) <= Measure(l.sys)
    ensures Plans(Events(acts)) <= Commits(Events(acts)) + 2
  {
    hide Inv, Sound, Legal, After, Events, Runs, EndOf, Measure;
    LoopSound(l);
    LoopIsRun(l, acts);
    QuietRunEnds(l, acts);
    QuietEvents(acts);
    DrainBound(l.sys, Events(acts));
  }

  /** The worker sleeps and no notification is under way: only an arrival can go on. */
  ghost predicate Halted(l: Loop) {
    l.asleep && l.pending == 0
  }

  lemma AwakeCanMove(l: Loop) returns (a: Act)
    requires LoopInv(l) && !Halted(l)
    ensures Sound(l.sys.sched.mem) && Can(l, a) && (a.Do? ==> !a.e.Arrive?)
  {
    hide Inv, Sound, Enabled;
    if l.asleep {
      LoopSound(l);
      a := Notify;
    } else {
      var e := NextPossible(l.sys, 0);
      a := Do(e);
    }
  }

  /** A run that can go no further without arrivals has halted, and then nothing is running. */
  lemma HaltedIff(l: Loop)
    requires LoopInv(l)
    ensures Sound(l.sys.sched.mem)
    ensures (forall a | Can(l, a) :: a.Do? && a.e.Arrive?) <==> Halted(l)
    ensures Halted(l) ==> l.sys.phase.Idle? && l.sys.sched.running == []
  {
    hide Inv, Sound, PermittedSchedule, PermittedCommit;
    LoopSound(l);
    if !Halted(l) {
      var a := AwakeCanMove(l);
    }
  }

  /** Left alone, the loop can always go on until it halts; by `QuietRunEnds` it has no other way to go. */
  lemma {:induction false} HaltPossible(l: Loop) returns (acts: seq<Act>)
    requires LoopInv(l)
    ensures Runs(l, acts) && Quiet(acts) && Halted(EndOf(l, acts))
    decreases Left(l)
  {
    hide Inv, Sound, Enabled, Next, LoopInv, Can, Step, Left, Halted;
    LeftNonnegative(l);
    if Halted(l) {
      acts := [];
    } else {
      var a := AwakeCanMove(l);
      StepKeepsInv(l, a);
      StepLeft(l, a);
      var rest := HaltPossible(Step(l, a));
      acts := [a] + rest;
      assert acts[1..] == rest;
    }
  }

  // ---------------------------------------------------------------- asleep with a request waiting

  lemma PlanOfNone(s: State, now: nat, pss: seq<seq<Path>>)
    requires Sound(s.mem) && s.running == [] && PermittedFrees(s.mem, ExpiredIds(s.running, now), pss)
    ensures PlanRunning(s, now, pss) == Plan(Unexpired(s.waiting, now), [], s.mem, [], [], 0)
  {
    hide Sound, Unexpired;
    assert Unexpired(s.running, now) == [] && FreeAll(s.mem, [], pss) == s.mem by {
      NothingToFree(s.mem, now, pss);
    }
    PassesOfNone(s.mem, Unexpired(s.waiting, now), s.config);
  }

  lemma NothingToFree(m: Mem, now: nat, pss: seq<seq<Path>>)
    requires Sound(m)
    ensures Unexpired([], now) == [] && ExpiredIds([], now) == [] && PermittedFrees(m, [], [])
    ensures PermittedFrees(m, [], pss) ==> FreeAll(m, [], pss) == m
  {
  }

  /** With nothing running, refusing the front request is a way for `schedule` to come out empty. */
  lemma RefusalIsPlan(s: State, now: nat, ps: seq<Path>)
    requires Sound(s.mem) && s.running == [] && Unexpired(s.waiting, now) != [] && s.config.maxTokensPerIter >= 1
    requires var w := Unexpired(s.waiting, now)[0];
      PermittedAllocate(s.mem, w.promptTokens, ps) && AllocateWithPrefix(s.mem, w.id, w.promptTokens, ps).result.None?
    ensures var ev := Evictions([], [], ps);
      && PermittedSchedule(s, now, ev)
      && Schedule(s, now, ev).running == [] && Schedule(s, now, ev).waiting == Unexpired(s.waiting, now)
      && Schedule(s, now, ev).toPrefill == [] && Schedule(s, now, ev).toDecode == []
      && var w := Unexpired(s.waiting, now)[0];
        Schedule(s, now, ev).mem == AllocateWithPrefix(s.mem, w.id, w.promptTokens, ps).mem
  {
    hide Sound, Unexpired, AllocateWithPrefix, PermittedAllocate, PermittedFrees, FreeAll;
    NothingToFree(s.mem, now, []);
    PlanOfNone(s, now, []);
    NobodyAdmitted(PlanRunning(s, now, []), s.config);
  }

  /** The front unexpired request was refused, with the state of the block manager before the call. */
  lemma EmptyWasRefused(s: State, now: nat, ev: Evictions)
    requires Sound(s.mem) && PermittedSchedule(s, now, ev) && s.config.maxPrefillChunkSize >= 1
    requires s.config.maxTokensPerIter >= 1 && s.running == [] && Unexpired(s.waiting, now) != []
    requires Schedule(s, now, ev).running == []
    ensures var w := Unexpired(s.waiting, now)[0];
      && PermittedAllocate(s.mem, w.promptTokens, ev.refusing)
      && AllocateWithPrefix(s.mem, w.id, w.promptTokens, ev.refusing).result.None?
      && Schedule(s, now, ev).waiting == Unexpired(s.waiting, now)
  {
    hide Sound, Unexpired, AllocateWithPrefix, PermittedAllocate, PermittedFrees, FreeAll, Exact, PermittedAdmissions,
         Admissions, PlanRunning, ExpiredIds;
    PlanOfNone(s, now, ev.expiring);
    NothingToFree(s.mem, now, ev.expiring);
    var pl := PlanRunning(s, now, ev.expiring);
    PlanRunningFacts(s, now, ev.expiring);
    AdmissionsFacts(pl, s.config, ev.admitting);
    assert ev.admitting == [] && Admissions(pl, s.config, []) == pl by {
      NobodyAdmitted(pl, s.config);
    }
    EmptyPlan(s, now, ev);
  }

  /** What the next `schedule` call does to the worker: some outcome of it is to sleep with a request waiting. */
  ghost predicate MaySleepWaiting(l: Loop, now: nat)
    requires Sound(l.sys.sched.mem)
  {
    exists ev :: Can(l, Do(PlanBatch(now, ev)))
      && Step(l, Do(PlanBatch(now, ev))).asleep && Step(l, Do(PlanBatch(now, ev))).sys.sched.waiting != []
  }

  /**
   * The lost wake-up, exactly: an idle, woken worker with nothing running and no stored notification may go to sleep on
   * a waiting request if and only if the front unexpired one must evict and some admissible victim does not release
   * enough.
   */
  lemma SleepsWaitingIff(l: Loop, now: nat)
    requires LoopInv(l) && !l.asleep && !l.permit && l.sys.phase.Idle? && l.sys.sched.running == []
    requires Unexpired(l.sys.sched.waiting, now) != []
    ensures Sound(l.sys.sched.mem)
    ensures MaySleepWaiting(l, now) <==>
      var m, w := l.sys.sched.mem, Unexpired(l.sys.sched.waiting, now)[0];
      MustEvict(m, w.promptTokens) && ShortVictim(m, w.promptTokens)
  {
    hide Inv, Sound, Unexpired, PermittedSchedule, Schedule, AllocateWithPrefix, PermittedAllocate, MustEvict,
         ShortVictim;
    LoopSound(l);
    ConfigOk(l.sys);
    var s := l.sys.sched;
    var w := Unexpired(s.waiting, now)[0];
    SoundFits(s.mem);
    CanBeRefusedIff(s.mem, w.id, w.promptTokens);
    forall ev | Can(l, Do(PlanBatch(now, ev))) && Step(l, Do(PlanBatch(now, ev))).asleep
      ensures MustEvict(s.mem, w.promptTokens) && ShortVictim(s.mem, w.promptTokens)
    {
      ScheduleProgress(s, now, ev);
      EmptyWasRefused(s, now, ev);
    }
    if MustEvict(s.mem, w.promptTokens) && ShortVictim(s.mem, w.promptTokens) {
      var ps :| PermittedAllocate(s.mem, w.promptTokens, ps)
                && AllocateWithPrefix(s.mem, w.id, w.promptTokens, ps).result.None?;
      RefusalIsPlan(s, now, ps);
      var a := Do(PlanBatch(now, Evictions([], [], ps)));
      assert Can(l, a) && Step(l, a).asleep && Step(l, a).sys.sched.waiting != [];
    }
  }

  lemma LoopCons(l: Loop, a: Act, acts: seq<Act>)
    requires LoopInv(l) && Can(l, a) && LoopInv(Step(l, a)) && Runs(Step(l, a), acts)
    ensures Runs(l, [a] + acts) && EndOf(l, [a] + acts) == EndOf(Step(l, a), acts)
  {
    hide LoopInv, Can, Step;
    assert ([a] + acts)[0] == a && ([a] + acts)[1..] == acts;
  }

  lemma LoopTail(l: Loop, acts: seq<Act>)
    requires LoopInv(l) && acts != [] && Runs(l, acts)
    ensures Sound(l.sys.sched.mem) && Can(l, acts[0]) && LoopInv(Step(l, acts[0]))
    ensures Runs(Step(l, acts[0]), acts[1..]) && EndOf(l, acts) == EndOf(Step(l, acts[0]), acts[1..])
  {
    hide LoopInv, Can, Step, Sound;
    LoopSound(l);
    StepKeepsInv(l, acts[0]);
  }

  lemma {:induction false} LoopAppend(l: Loop, a: seq<Act>, b: seq<Act>)
    requires LoopInv(l) && Runs(l, a) && Runs(EndOf(l, a), b)
    ensures Runs(l, a + b) && EndOf(l, a + b) == EndOf(EndOf(l, a), b)
    decreases |a|
  {
    hide LoopInv, Can, Step, Sound;
    if a == [] {
      assert a + b == b;
    } else {
      LoopTail(l, a);
      hide Runs, EndOf;
      var first, rest := a[0], a[1..];
      LoopAppend(Step(l, first), rest, b);
      LoopCons(l, first, rest + b);
      assert a + b == [first] + (rest + b);
    }
  }
}
