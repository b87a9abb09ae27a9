/**
 * The serving loop as a state machine: requests arrive at any time, the worker plans a batch in one critical section
 * and commits the computed tokens in another. History variables record what happened to every request.
 */
module ServingSystem {
  import opened Types
  import opened RadixTrie
  import opened BlockAccounting
  import opened BlockCoverage
  import opened SchedulerModel
  import opened SchedulerPlan

  /** Between the two critical sections the worker holds a plan. */
  datatype Phase = Idle | Computing(plan: Plan)

  /**
   * `gone` holds the finished and expired requests as they left, `fed` the prompt tokens given to the model per
   * request.
   */
  datatype System = System(
    sched: State,
    phase: Phase,
    arrived: seq<RequestId>,
    gone: seq<Request>,
    fed: map<RequestId, seq<Token>>
  )

  datatype Event =
    | Arrive(r: Request)
    | PlanBatch(now: nat, ev: Evictions)
    | CommitBatch(tokens: seq<Token>, pss: seq<seq<Path>>)

  /** A request as the API creates it. */
  predicate Unstarted(r: Request) {
    r.generatedTokens == [] && r.cachedPrefixLen == 0 && r.prefillCursor == 0
  }

  function ExpiredRequests(rs: seq<Request>, now: nat): seq<Request> {
    if rs == [] then []
    else ExpiredRequests(rs[..|rs| - 1], now) + if Expired(rs[|rs| - 1], now) then [rs[|rs| - 1]] else []
  }

  /** Pairs each work item with the token sampled for it. */
  function Results(items: seq<WorkItem>, tokens: seq<Token>): (rs: seq<ComputeResult>)
    requires |tokens| == |items|
    ensures |rs| == |items|
  {
    seq(|items|, j requires 0 <= j < |items| => ComputeResult(items[j].reqId, tokens[j]))
  }

  function FedTo(fed: map<RequestId, seq<Token>>, id: RequestId): seq<Token> {
    if id in fed then fed[id] else []
  }

  /** Appends the inputs of the prefill items to the record. */
  function Feed(fed: map<RequestId, seq<Token>>, items: seq<WorkItem>): map<RequestId, seq<Token>> {
    if items == [] then fed
    else
      var before, item := Feed(fed, items[..|items| - 1]), items[|items| - 1];
      if item.isPrefill then before[item.reqId := FedTo(before, item.reqId) + item.input] else before
  }

  ghost function Items(s: System): seq<WorkItem> {
    if s.phase.Idle? then [] else Batch(s.phase.plan, s.sched.config)
  }

  ghost predicate Enabled(s: System, e: Event)
    requires Sound(s.sched.mem)
  {
    match e
    case Arrive(r) => Unstarted(r) && r.id !in s.arrived
    case PlanBatch(now, ev) => s.phase.Idle? && PermittedSchedule(s.sched, now, ev)
    case CommitBatch(tokens, pss) =>
      && s.phase.Computing?
      && |tokens| == |Items(s)|
      && PermittedCommit(s.sched, s.phase.plan.toPrefill, Results(Items(s), tokens), pss)
  }

  ghost function Next(s: System, e: Event): (u: System)
    requires Sound(s.sched.mem) && Enabled(s, e)
    ensures Sound(u.sched.mem)
  {
    match e
    case Arrive(r) =>
      s.(sched := s.sched.(waiting := s.sched.waiting + [r]), arrived := s.arrived + [r.id])
    case PlanBatch(now, ev) =>
      var pl := Schedule(s.sched, now, ev);
      s.(sched := s.sched.(waiting := pl.waiting, running := pl.running, mem := pl.mem),
         phase := if pl.toPrefill == [] && pl.toDecode == [] then Idle else Computing(pl),
         gone := s.gone + ExpiredRequests(s.sched.running, now) + ExpiredRequests(s.sched.waiting, now))
    case CommitBatch(tokens, pss) =>
      var results := Results(Items(s), tokens);
      s.(sched := Commit(s.sched, s.phase.plan.toPrefill, results, pss),
         phase := Idle,
         gone := s.gone + FinishedRequests(Computed(s.sched.running, s.phase.plan.toPrefill, results, s.sched.config)),
         fed := Feed(s.fed, Items(s)))
  }

  // ---------------------------------------------------------------- invariant

  /** The block manager's tables are exactly those of the running requests. */
  ghost predicate Tracks(m: Mem, rs: seq<Request>) {
    && (forall id :: id in m.table <==> id in Ids(rs))
    && (forall id :: id in m.prompts <==> id in Ids(rs))
    && (forall r | r in rs :: r.id in m.prompts && m.prompts[r.id] == r.promptTokens)
  }

  ghost predicate MemOk(m: Mem, rs: seq<Request>) {
    Sound(m) && Covers(m) && Tracks(m, rs)
  }

  function Min(a: int, b: int): int {
    if a < b then a else b
  }

  /**
   * The chunked prefill, exactly: after `n` batches the cursor stands `n` chunks past the cached prefix, or at the end.
   */
  ghost predicate CursorExact(r: Request, config: Config) {
    && r.cachedPrefixLen <= |r.promptTokens|
    && r.prefillCursor == Min(r.cachedPrefixLen + |r.generatedTokens| * config.maxPrefillChunkSize, |r.promptTokens|)
  }

  /** What the model was given: the prompt between the cached prefix and the cursor, without gap or overlap. */
  ghost predicate FedExact(r: Request, fed: map<RequestId, seq<Token>>) {
    && r.cachedPrefixLen <= r.prefillCursor <= |r.promptTokens|
    && FedTo(fed, r.id) == r.promptTokens[r.cachedPrefixLen..r.prefillCursor]
  }

  /** No stop sequence occurs in the output ending within the first `n` tokens. */
  ghost predicate Unstopped(r: Request, n: int) {
    forall k, j | 0 <= k < |r.stopTokenIds| && 1 <= j <= n && j <= |r.generatedTokens| ::
      !EndsWith(r.generatedTokens[..j], r.stopTokenIds[k])
  }

  function Limit(r: Request): nat {
    if r.maxTokens == 0 then 1 else r.maxTokens
  }

  ghost predicate RunningOk(r: Request, config: Config) {
    CursorExact(r, config) && |r.generatedTokens| < Limit(r) && Unstopped(r, |r.generatedTokens|)
  }

  /** A request that has left: within its limit, and stopped at the first stop sequence if at all. */
  ghost predicate GoneOk(r: Request, config: Config) {
    && CursorExact(r, config)
    && |r.generatedTokens| <= Limit(r)
    && Unstopped(r, |r.generatedTokens| - 1)
  }

  ghost predicate PlanOk(s: System) {
    s.phase.Computing? ==>
      && s.phase.plan.running == s.sched.running
      && Exact(s.phase.plan, s.sched.config)
      && (s.phase.plan.toPrefill != [] || s.phase.plan.toDecode != [])
  }

  function AllIds(s: System): seq<RequestId> {
    Ids(s.sched.running) + Ids(s.sched.waiting) + Ids(s.gone)
  }

  ghost predicate Inv(s: System) {
    && s.sched.config.maxTokensPerIter >= 1 && s.sched.config.maxPrefillChunkSize >= 1
    && NoDup(s.arrived) && multiset(s.arrived) == multiset(AllIds(s))
    && MemOk(s.sched.mem, s.sched.running)
    && (forall r | r in s.sched.waiting :: Unstarted(r))
    && (forall r | r in s.sched.running :: RunningOk(r, s.sched.config) && FedExact(r, s.fed))
    && (forall r | r in s.gone :: GoneOk(r, s.sched.config) && FedExact(r, s.fed))
    && (forall id | id in s.fed :: id in s.arrived)
    && (forall w | w in s.sched.waiting :: w.id !in s.fed)
    && PlanOk(s)
  }
}
