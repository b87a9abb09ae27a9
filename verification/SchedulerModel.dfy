/**
 * Continuous batching as functions on values: what one `schedule` call and one commit do to the queues and the block
 * manager. Steps that may evict cache nodes take the evicted paths as an argument, one entry per block-manager call.
 */
module SchedulerModel {
  import opened Types
  import opened RadixTrie
  import opened BlockAccounting
  import opened BlockSafety

  datatype Request = Request(
    id: RequestId,
    promptTokens: seq<Token>,
    generatedTokens: seq<Token>,
    maxTokens: nat,
    isPrefill: bool,
    cachedPrefixLen: nat,
    prefillCursor: nat,
    stopTokenIds: seq<seq<Token>>,
    deadline: Option<nat>
  )

  datatype Config = Config(maxTokensPerIter: nat, maxPrefillChunkSize: nat)

  datatype State = State(waiting: seq<Request>, running: seq<Request>, mem: Mem, config: Config)

  function Ids(rs: seq<Request>): (ids: seq<RequestId>)
    ensures |ids| == |rs| && forall i | 0 <= i < |rs| :: ids[i] == rs[i].id
  {
    seq(|rs|, i requires 0 <= i < |rs| => rs[i].id)
  }

  /** Position of the first request with the given id. */
  function IndexOf(rs: seq<Request>, id: RequestId): (r: Option<nat>)
    ensures r.Some? ==> r.value < |rs| && rs[r.value].id == id && forall j | 0 <= j < r.value :: rs[j].id != id
    ensures r.None? ==> id !in Ids(rs)
  {
    if rs == [] then None
    else if rs[0].id == id then Some(0)
    else match IndexOf(rs[1..], id)
      case None =>
        assert forall i | 0 <= i < |rs| :: i == 0 || rs[i] == rs[1..][i - 1];
        None
      case Some(i) => Some(i + 1)
  }

  // ---------------------------------------------------------------- expiry

  predicate Expired(r: Request, now: nat) {
    r.deadline.Some? && now >= r.deadline.value
  }

  /** The requests whose deadline has not passed, in order. */
  function Unexpired(rs: seq<Request>, now: nat): seq<Request> {
    if rs == [] then []
    else Unexpired(rs[..|rs| - 1], now) + if Expired(rs[|rs| - 1], now) then [] else [rs[|rs| - 1]]
  }

  function ExpiredIds(rs: seq<Request>, now: nat): seq<RequestId> {
    if rs == [] then []
    else ExpiredIds(rs[..|rs| - 1], now) + if Expired(rs[|rs| - 1], now) then [rs[|rs| - 1].id] else []
  }

  ghost predicate PermittedFrees(m: Mem, ids: seq<RequestId>, pss: seq<seq<Path>>)
    requires Sound(m)
    decreases |ids|, 0
  {
    && |pss| == |ids|
    && (ids != [] ==>
          && PermittedFrees(m, ids[..|ids| - 1], pss[..|ids| - 1])
          && PermittedFree(FreeAll(m, ids[..|ids| - 1], pss[..|ids| - 1]), ids[|ids| - 1], pss[|ids| - 1]))
  }

  /** Frees the requests in order. */
  ghost function FreeAll(m: Mem, ids: seq<RequestId>, pss: seq<seq<Path>>): (u: Mem)
    requires Sound(m) && PermittedFrees(m, ids, pss)
    ensures Sound(u)
    decreases |ids|, 1
  {
    if ids == [] then m
    else
      var u := FreeAll(m, ids[..|ids| - 1], pss[..|ids| - 1]);
      FreeSound(u, ids[|ids| - 1], pss[|ids| - 1]);
      Free(u, ids[|ids| - 1], pss[|ids| - 1])
  }

  // ---------------------------------------------------------------- planning a batch

  /** A `schedule` call in progress. */
  datatype Plan = Plan(
    waiting: seq<Request>,
    running: seq<Request>,
    mem: Mem,
    toPrefill: seq<RequestId>,
    toDecode: seq<RequestId>,
    totalTokens: nat
  )

  /** Prefill is over. */
  predicate Decoding(r: Request) {
    r.prefillCursor >= |r.promptTokens|
  }

  function ChunkSize(r: Request, config: Config): nat {
    if Decoding(r) then 0
    else if |r.promptTokens| - r.prefillCursor < config.maxPrefillChunkSize then |r.promptTokens| - r.prefillCursor
    else config.maxPrefillChunkSize
  }

  /** The decode pass over the running queue. */
  function DecodePass(pl: Plan, rs: seq<Request>): Plan {
    if rs == [] then pl.(running := [])
    else
      var before, r := DecodePass(pl, rs[..|rs| - 1]), rs[|rs| - 1];
      if Decoding(r) then
        before.(running := before.running + [r.(isPrefill := false)], toDecode := before.toDecode + [r.id],
                totalTokens := before.totalTokens + 1)
      else before.(running := before.running + [r])
  }

  /** The prefill pass over the running queue; once the budget is spent it changes nothing. */
  function PrefillPass(pl: Plan, rs: seq<Request>, config: Config): Plan {
    if rs == [] then pl.(running := [])
    else
      var before, r := PrefillPass(pl, rs[..|rs| - 1], config), rs[|rs| - 1];
      if before.totalTokens < config.maxTokensPerIter && !Decoding(r) then
        before.(running := before.running + [r.(isPrefill := true)], toPrefill := before.toPrefill + [r.id],
                totalTokens := before.totalTokens + ChunkSize(r, config))
      else before.(running := before.running + [r])
  }

  /** The plan after expiry and the two passes over the running queue. */
  ghost function PlanRunning(s: State, now: nat, pss: seq<seq<Path>>): (pl: Plan)
    requires Sound(s.mem) && PermittedFrees(s.mem, ExpiredIds(s.running, now), pss)
  {
    var start := Plan(Unexpired(s.waiting, now), Unexpired(s.running, now),
      FreeAll(s.mem, ExpiredIds(s.running, now), pss), [], [], 0);
    var decoded := DecodePass(start, start.running);
    PrefillPass(decoded, decoded.running, s.config)
  }

  /** The front of the waiting queue is tried. */
  predicate Tries(pl: Plan, config: Config) {
    pl.waiting != [] && pl.totalTokens < config.maxTokensPerIter
  }

  ghost predicate PermittedTry(pl: Plan, config: Config, ps: seq<Path>)
    requires Sound(pl.mem)
  {
    Tries(pl, config) && PermittedAllocate(pl.mem, pl.waiting[0].promptTokens, ps)
  }

  ghost function Try(pl: Plan, config: Config, ps: seq<Path>): Allocation
    requires Sound(pl.mem) && PermittedTry(pl, config, ps)
  {
    AllocateWithPrefix(pl.mem, pl.waiting[0].id, pl.waiting[0].promptTokens, ps)
  }

  /** The request as it starts running after a hit of `cached` tokens. */
  function Started(r: Request, cached: nat): Request {
    r.(cachedPrefixLen := cached, prefillCursor := cached, isPrefill := cached < |r.promptTokens|)
  }

  /** The front waiting request joins the running queue and the batch. */
  ghost function Admit(pl: Plan, config: Config, ps: seq<Path>): (u: Plan)
    requires Sound(pl.mem) && PermittedTry(pl, config, ps) && Try(pl, config, ps).result.Some?
    ensures Sound(u.mem)
  {
    AllocateWithPrefixSound(pl.mem, pl.waiting[0].id, pl.waiting[0].promptTokens, ps);
    var a := Try(pl, config, ps);
    var r := Started(pl.waiting[0], a.result.value.1);
    if Decoding(r) then
      Plan(pl.waiting[1..], pl.running + [r], a.mem, pl.toPrefill, pl.toDecode + [r.id], pl.totalTokens + 1)
    else
      Plan(pl.waiting[1..], pl.running + [r], a.mem, pl.toPrefill + [r.id], pl.toDecode,
           pl.totalTokens + ChunkSize(r, config))
  }

  ghost predicate PermittedAdmissions(pl: Plan, config: Config, pss: seq<seq<Path>>)
    requires Sound(pl.mem)
    decreases |pss|, 0
  {
    pss != [] ==>
      && PermittedAdmissions(pl, config, pss[..|pss| - 1])
      && PermittedTry(Admissions(pl, config, pss[..|pss| - 1]), config, pss[|pss| - 1])
      && Try(Admissions(pl, config, pss[..|pss| - 1]), config, pss[|pss| - 1]).result.Some?
  }

  ghost function Admissions(pl: Plan, config: Config, pss: seq<seq<Path>>): (u: Plan)
    requires Sound(pl.mem) && PermittedAdmissions(pl, config, pss)
    ensures Sound(u.mem)
    decreases |pss|, 1
  {
    if pss == [] then pl else Admit(Admissions(pl, config, pss[..|pss| - 1]), config, pss[|pss| - 1])
  }

  /** The admission loop ends: nothing waits, the budget is spent, or the front request gets no blocks. */
  ghost predicate PermittedEnd(pl: Plan, config: Config, ps: seq<Path>)
    requires Sound(pl.mem)
  {
    if Tries(pl, config) then PermittedTry(pl, config, ps) && Try(pl, config, ps).result.None? else ps == []
  }

  ghost function End(pl: Plan, config: Config, ps: seq<Path>): (u: Plan)
    requires Sound(pl.mem) && PermittedEnd(pl, config, ps)
    ensures Sound(u.mem)
  {
    if Tries(pl, config) then
      AllocateWithPrefixSound(pl.mem, pl.waiting[0].id, pl.waiting[0].promptTokens, ps);
      pl.(mem := Try(pl, config, ps).mem)
    else pl
  }

  /** The evictions of one `schedule` call: while freeing expired requests, admitting, and failing to admit. */
  datatype Evictions = Evictions(expiring: seq<seq<Path>>, admitting: seq<seq<Path>>, refusing: seq<Path>)

  ghost predicate PermittedSchedule(s: State, now: nat, ev: Evictions)
    requires Sound(s.mem)
  {
    && PermittedFrees(s.mem, ExpiredIds(s.running, now), ev.expiring)
    && (PassesKeepMem(s, now, ev.expiring);
        PermittedAdmissions(PlanRunning(s, now, ev.expiring), s.config, ev.admitting))
    && PermittedEnd(Admissions(PlanRunning(s, now, ev.expiring), s.config, ev.admitting), s.config, ev.refusing)
  }

  lemma {:induction false} DecodePassFrame(pl: Plan, rs: seq<Request>)
    ensures var u := DecodePass(pl, rs);
      u.mem == pl.mem && u.waiting == pl.waiting && u.toPrefill == pl.toPrefill && |u.running| == |rs|
  {
    if rs != [] {
      DecodePassFrame(pl, rs[..|rs| - 1]);
    }
  }

  lemma {:induction false} PrefillPassFrame(pl: Plan, rs: seq<Request>, config: Config)
    ensures var u := PrefillPass(pl, rs, config);
      u.mem == pl.mem && u.waiting == pl.waiting && u.toDecode == pl.toDecode && |u.running| == |rs|
  {
    if rs != [] {
      PrefillPassFrame(pl, rs[..|rs| - 1], config);
    }
  }

  lemma PassesKeepMem(s: State, now: nat, pss: seq<seq<Path>>)
    requires Sound(s.mem) && PermittedFrees(s.mem, ExpiredIds(s.running, now), pss)
    ensures var pl := PlanRunning(s, now, pss);
      && pl.mem == FreeAll(s.mem, ExpiredIds(s.running, now), pss) && Sound(pl.mem)
      && pl.waiting == Unexpired(s.waiting, now)
  {
    var start := Plan(Unexpired(s.waiting, now), Unexpired(s.running, now),
      FreeAll(s.mem, ExpiredIds(s.running, now), pss), [], [], 0);
    DecodePassFrame(start, start.running);
    PrefillPassFrame(DecodePass(start, start.running), DecodePass(start, start.running).running, s.config);
  }

  /** The whole `schedule` call. */
  ghost function Schedule(s: State, now: nat, ev: Evictions): (u: Plan)
    requires Sound(s.mem) && PermittedSchedule(s, now, ev)
    ensures Sound(u.mem)
  {
    PassesKeepMem(s, now, ev.expiring);
    End(Admissions(PlanRunning(s, now, ev.expiring), s.config, ev.admitting), s.config, ev.refusing)
  }

  // ---------------------------------------------------------------- the worker's batch

  datatype WorkItem = WorkItem(reqId: RequestId, input: seq<Token>, isLastChunk: bool, isPrefill: bool,
    needsCacheLookup: bool)

  function LastOrZero(tokens: seq<Token>): Token {
    if tokens == [] then 0 else tokens[|tokens| - 1]
  }

  /** The work for a request to prefill: its next chunk; a request with nothing left to prefill is handled too. */
  function PrefillItem(r: Request, config: Config): seq<WorkItem> {
    if r.prefillCursor < |r.promptTokens| then
      var chunkEnd := r.prefillCursor + ChunkSize(r, config);
      [WorkItem(r.id, r.promptTokens[r.prefillCursor..chunkEnd], chunkEnd == |r.promptTokens|, true,
                r.prefillCursor == 0)]
    else if r.cachedPrefixLen == |r.promptTokens| then
      [WorkItem(r.id, [LastOrZero(r.promptTokens)], true, true, false)]
    else []
  }

  function DecodeItem(r: Request): WorkItem {
    WorkItem(r.id, [LastOrZero(r.generatedTokens)], false, false, false)
  }

  function PrefillItems(rs: seq<Request>, ids: seq<RequestId>, config: Config): seq<WorkItem> {
    if ids == [] then []
    else
      PrefillItems(rs, ids[..|ids| - 1], config) +
      (match IndexOf(rs, ids[|ids| - 1])
       case None => []
       case Some(i) => PrefillItem(rs[i], config))
  }

  function DecodeItems(rs: seq<Request>, ids: seq<RequestId>): seq<WorkItem> {
    if ids == [] then []
    else
      DecodeItems(rs, ids[..|ids| - 1]) +
      (match IndexOf(rs, ids[|ids| - 1])
       case None => []
       case Some(i) => [DecodeItem(rs[i])])
  }

  ghost function Batch(pl: Plan, config: Config): seq<WorkItem> {
    PrefillItems(pl.running, pl.toPrefill, config) + DecodeItems(pl.running, pl.toDecode)
  }

  // ---------------------------------------------------------------- commit

  datatype ComputeResult = ComputeResult(reqId: RequestId, token: Token)

  /** Appends each sampled token to its request, if that is still running. */
  function PushTokens(rs: seq<Request>, results: seq<ComputeResult>): (u: seq<Request>)
    ensures |u| == |rs|
  {
    if results == [] then rs
    else
      var before, res := PushTokens(rs, results[..|results| - 1]), results[|results| - 1];
      match IndexOf(before, res.reqId)
      case None => before
      case Some(i) => before[i := before[i].(generatedTokens := before[i].generatedTokens + [res.token])]
  }

  function Advanced(r: Request, config: Config): Request {
    r.(prefillCursor := if r.prefillCursor + config.maxPrefillChunkSize < |r.promptTokens|
                        then r.prefillCursor + config.maxPrefillChunkSize else |r.promptTokens|)
  }

  /** Moves the prefill cursors of the listed requests one chunk on. */
  function AdvanceCursors(rs: seq<Request>, ids: seq<RequestId>, config: Config): (u: seq<Request>)
    ensures |u| == |rs|
  {
    if ids == [] then rs
    else
      var before := AdvanceCursors(rs, ids[..|ids| - 1], config);
      match IndexOf(before, ids[|ids| - 1])
      case None => before
      case Some(i) => before[i := Advanced(before[i], config)]
  }

  predicate EndsWith(s: seq<Token>, suffix: seq<Token>) {
    |s| >= |suffix| && s[|s| - |suffix|..] == suffix
  }

  predicate Finished(r: Request) {
    || |r.generatedTokens| >= r.maxTokens
    || exists k | 0 <= k < |r.stopTokenIds| :: EndsWith(r.generatedTokens, r.stopTokenIds[k])
  }

  function FinishedRequests(rs: seq<Request>): seq<Request> {
    if rs == [] then []
    else FinishedRequests(rs[..|rs| - 1]) + if Finished(rs[|rs| - 1]) then [rs[|rs| - 1]] else []
  }

  function Unfinished(rs: seq<Request>): seq<Request> {
    if rs == [] then []
    else Unfinished(rs[..|rs| - 1]) + if Finished(rs[|rs| - 1]) then [] else [rs[|rs| - 1]]
  }

  /** Removes the first request with the id, if any. */
  function RemoveFirst(rs: seq<Request>, id: RequestId): seq<Request> {
    match IndexOf(rs, id)
    case None => rs
    case Some(i) => rs[..i] + rs[i + 1..]
  }

  /** What `finish_request` works on. */
  datatype Live = Live(running: seq<Request>, mem: Mem)

  ghost predicate PermittedFinish(l: Live, id: RequestId, ps: seq<Path>)
    requires Sound(l.mem)
  {
    if IndexOf(l.running, id).Some? then PermittedFree(l.mem, id, ps) else ps == []
  }

  /** `finish_request`: takes the request off the running queue and frees its blocks; unknown ids are ignored. */
  ghost function FinishOne(l: Live, id: RequestId, ps: seq<Path>): (u: Live)
    requires Sound(l.mem) && PermittedFinish(l, id, ps)
    ensures Sound(u.mem)
  {
    if IndexOf(l.running, id).Some? then
      FreeSound(l.mem, id, ps);
      Live(RemoveFirst(l.running, id), Free(l.mem, id, ps))
    else l
  }

  ghost predicate PermittedFinishes(l: Live, ids: seq<RequestId>, pss: seq<seq<Path>>)
    requires Sound(l.mem)
    decreases |ids|, 0
  {
    && |pss| == |ids|
    && (ids != [] ==>
          && PermittedFinishes(l, ids[..|ids| - 1], pss[..|ids| - 1])
          && PermittedFinish(FinishEach(l, ids[..|ids| - 1], pss[..|ids| - 1]), ids[|ids| - 1], pss[|ids| - 1]))
  }

  ghost function FinishEach(l: Live, ids: seq<RequestId>, pss: seq<seq<Path>>): (u: Live)
    requires Sound(l.mem) && PermittedFinishes(l, ids, pss)
    ensures Sound(u.mem)
    decreases |ids|, 1
  {
    if ids == [] then l
    else FinishOne(FinishEach(l, ids[..|ids| - 1], pss[..|ids| - 1]), ids[|ids| - 1], pss[|ids| - 1])
  }

  /** The running queue when the commit looks for finished requests. */
  function Computed(rs: seq<Request>, toPrefill: seq<RequestId>, results: seq<ComputeResult>,
    config: Config): seq<Request> {
    AdvanceCursors(PushTokens(rs, results), toPrefill, config)
  }

  ghost predicate PermittedCommit(s: State, toPrefill: seq<RequestId>, results: seq<ComputeResult>, pss: seq<seq<Path>>)
    requires Sound(s.mem)
  {
    var rs := Computed(s.running, toPrefill, results, s.config);
    PermittedFinishes(Live(rs, s.mem), Ids(FinishedRequests(rs)), pss)
  }

  /** The worker's second critical section. */
  ghost function Commit(s: State, toPrefill: seq<RequestId>, results: seq<ComputeResult>,
    pss: seq<seq<Path>>): (u: State)
    requires Sound(s.mem) && PermittedCommit(s, toPrefill, results, pss)
    ensures Sound(u.mem)
  {
    var rs := Computed(s.running, toPrefill, results, s.config);
    var l := FinishEach(Live(rs, s.mem), Ids(FinishedRequests(rs)), pss);
    s.(running := l.running, mem := l.mem)
  }
}
