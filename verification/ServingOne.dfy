/** Serving a request with a one-token prompt in an otherwise empty engine, step by step. */
module ServingOne {
  import opened Types
  import opened RadixTrie
  import opened BlockAccounting
  import opened SchedulerModel
  import opened ServingSystem
  import opened ServingRuns
  import opened ServingEarly

  ghost function Config10(): Config {
    Config(10, 10)
  }

  /** A one-token prompt with a limit of one output token. */
  ghost function OneToken(id: RequestId, k: Token): Request {
    Request(id, [k], [], 1, true, 0, 0, [], None)
  }

  /** The request as it leaves. */
  ghost function Answered(id: RequestId, k: Token): Request {
    OneToken(id, k).(generatedTokens := [9], prefillCursor := 1)
  }

  ghost function Engine(waiting: seq<Request>, running: seq<Request>, m: Mem): State {
    State(waiting, running, m, Config10())
  }

  ghost function OnePlan(id: RequestId, k: Token, u: Mem): Plan {
    Plan([], [OneToken(id, k)], u, [id], [], 1)
  }

  /** Nothing runs or waits. */
  ghost predicate Empty(s: System, m: Mem) {
    s.phase == Phase.Idle && s.sched == Engine([], [], m)
  }

  ghost function Queued(s: System, r: Request): System {
    s.(sched := s.sched.(waiting := [r]), arrived := s.arrived + [r.id])
  }

  ghost function Busy(s: System, id: RequestId, k: Token, u: Mem): System {
    Queued(s, OneToken(id, k)).(sched := Engine([], [OneToken(id, k)], u), phase := Computing(OnePlan(id, k, u)))
  }

  ghost function ServedBy(s: System, id: RequestId, k: Token, v: Mem): System {
    s.(sched := Engine([], [], v), arrived := s.arrived + [id], gone := s.gone
      + [Answered(id, k)], fed := s.fed[id := [k]])
  }

  lemma ArriveStep(s: System, m: Mem, r: Request)
    requires Empty(s, m) && Sound(m) && r.id !in s.arrived && Unstarted(r)
    ensures Sound(s.sched.mem) && Enabled(s, Arrive(r)) && Next(s, Arrive(r)) == Queued(s, r)
  {
    hide Sound;
    assert [] + [r] == [r];
  }

  lemma OnePlanned(m: Mem, u: Mem, b: BlockId, id: RequestId, k: Token)
    requires Sound(m) && PermittedAllocate(m, [k], [])
    requires AllocateWithPrefix(m, id, [k], []) == Allocation(u, Some(([b], 0)))
    ensures var s := Engine([OneToken(id, k)], [], m);
      PermittedSchedule(s, 0, Admitting()) && Schedule(s, 0, Admitting()) == OnePlan(id, k, u)
  {
    hide Sound, PermittedAllocate, AllocateWithPrefix, PermittedSchedule, Schedule;
    AdmissionIs(m, OneToken(id, k), u, [b], 0, Config10());
    assert Started(OneToken(id, k), 0) == OneToken(id, k);
  }

  lemma PlanStep(s: System, m: Mem, u: Mem, b: BlockId, id: RequestId, k: Token)
    requires Empty(s, m) && Sound(m) && PermittedAllocate(m, [k], [])
    requires AllocateWithPrefix(m, id, [k], []) == Allocation(u, Some(([b], 0)))
    ensures var q := Queued(s, OneToken(id, k));
      && Sound(q.sched.mem) && Enabled(q, PlanBatch(0, Admitting()))
      && Next(q, PlanBatch(0, Admitting())) == Busy(s, id, k, u)
  {
    OnePlanned(m, u, b, id, k);
    hide Sound, PermittedAllocate, AllocateWithPrefix, PermittedSchedule, Schedule, Enabled, Next;
    PlanIs(Queued(s, OneToken(id, k)), OneToken(id, k), OnePlan(id, k, u));
  }

  lemma WorkOfOne(id: RequestId, k: Token, fed: map<RequestId, seq<Token>>)
    requires id !in fed
    ensures PrefillItems([OneToken(id, k)], [id], Config10()) == [WorkItem(id, [k], true, true, true)]
    ensures DecodeItems([OneToken(id, k)], []) == []
    ensures Feed(fed, [WorkItem(id, [k], true, true, true)]) == fed[id := [k]]
  {
    var ids: seq<RequestId> := [id];
    assert ids[..0] == [];
    FirstOf(OneToken(id, k));
    assert [k][0..1] == [k];
    var items := [WorkItem(id, [k], true, true, true)];
    assert PrefillItems([OneToken(id, k)], ids, Config10()) == items;
    assert items[..0] == [] && [] + [k] == [k];
  }

  lemma OneCommitted(u: Mem, v: Mem, id: RequestId, k: Token)
    requires Sound(u) && PermittedFree(u, id, []) && Free(u, id, []) == v
    ensures var s, results := Engine([], [OneToken(id, k)], u), [ComputeResult(id, 9)];
      && Computed(s.running, [id], results, s.config) == [Answered(id, k)]
      && FinishedRequests([Answered(id, k)]) == [Answered(id, k)]
      && PermittedCommit(s, [id], results, [[]])
      && Commit(s, [id], results, [[]]) == Engine([], [], v)
  {
    var q, ids := Answered(id, k), [id];
    PushedOne(OneToken(id, k), 9, Config10());
    assert Grown(OneToken(id, k), 9, Config10()) == q by {
      assert [] + [9] == [9];
    }
    FinishedOne(q);
    FirstOf(q);
    assert Finished(q);
    hide Sound, Free, PermittedFree, Computed, FinishedRequests, Finished, IndexOf;
    var one: seq<seq<Path>> := [[]];
    assert ids[..0] == [] && one[..0] == [];
    FinishPermitted(Live([q], u), id, []);
    assert FinishEach(Live([q], u), ids, one) == FinishOne(Live([q], u), id, []);
  }

  lemma CommitStep(s: System, m: Mem, u: Mem, v: Mem, id: RequestId, k: Token)
    requires Empty(s, m) && Sound(u) && id !in s.fed && PermittedFree(u, id, []) && Free(u, id, []) == v
    ensures var q := Busy(s, id, k, u);
      && Sound(q.sched.mem) && Enabled(q, CommitBatch([9], [[]]))
      && Next(q, CommitBatch([9], [[]])) == ServedBy(s, id, k, v)
  {
    OneCommitted(u, v, id, k);
    WorkOfOne(id, k, s.fed);
    hide Sound, PermittedCommit, Commit, Computed, FinishedRequests, Feed, PrefillItems, DecodeItems, Answered,
         OneToken, Free, PermittedFree;
    var items := [WorkItem(id, [k], true, true, true)];
    assert items + [] == items && Items(Busy(s, id, k, u)) == items;
    assert Results(items, [9]) == [ComputeResult(id, 9)];
  }

  /** The whole service, followed by whatever comes next. */
  lemma ServeRun(s: System, m: Mem, u: Mem, v: Mem, b: BlockId, id: RequestId, k: Token, rest: seq<Event>)
    returns (es: seq<Event>)
    requires Inv(s) && Empty(s, m) && Sound(m) && id !in s.arrived && id !in s.fed
    requires PermittedAllocate(m, [k], []) && AllocateWithPrefix(m, id, [k], []) == Allocation(u, Some(([b], 0)))
    requires Sound(u) && PermittedFree(u, id, []) && Free(u, id, []) == v
    requires Inv(ServedBy(s, id, k, v)) ==> Legal(ServedBy(s, id, k, v), rest)
    ensures Inv(ServedBy(s, id, k, v)) && Legal(s, es) && After(s, es) == After(ServedBy(s, id, k, v), rest)
  {
    hide Inv, Enabled, Next, Sound, AllocateWithPrefix, PermittedAllocate, Free, PermittedFree, Legal, After;
    ArriveStep(s, m, OneToken(id, k));
    PlanStep(s, m, u, b, id, k);
    CommitStep(s, m, u, v, id, k);
    hide Queued, Busy, ServedBy, OneToken;
    var e1, e2, e3 := Arrive(OneToken(id, k)), PlanBatch(0, Admitting()), CommitBatch([9], [[]]);
    var s1, s2 := Queued(s, OneToken(id, k)), Busy(s, id, k, u);
    NextKeepsInv(s, e1);
    NextKeepsInv(s1, e2);
    NextKeepsInv(s2, e3);
    RunCons(s2, e3, rest);
    RunCons(s1, e2, [e3] + rest);
    RunCons(s, e1, [e2] + ([e3] + rest));
    es := [e1] + ([e2] + ([e3] + rest));
  }
}
