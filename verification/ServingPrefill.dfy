/** How early a request can leave: known from its limits and the configuration, whatever tokens are sampled. */
module ServingPrefill {
  import opened Types
  import opened SchedulerModel
  import opened SchedulerPlan
  import opened SchedulerCommit
  import opened ServingSystem
  import opened ServingSteps
  import opened ServingRuns

  function MinLength(stops: seq<seq<Token>>): (n: nat)
    requires stops != []
    ensures forall k | 0 <= k < |stops| :: n <= |stops[k]|
    ensures exists k | 0 <= k < |stops| :: n == |stops[k]|
  {
    if |stops| == 1 then |stops[0]|
    else
      var init, last := MinLength(stops[..|stops| - 1]), |stops[|stops| - 1]|;
      assert forall k | 0 <= k < |stops| - 1 :: stops[k] == stops[..|stops| - 1][k];
      if last < init then last else init
  }

  /** The least number of output tokens a request can finish with: its limit or its shortest stop sequence. */
  function EarliestEnd(r: Request): (n: nat)
    ensures 1 <= n <= Limit(r)
  {
    if r.stopTokenIds == [] || MinLength(r.stopTokenIds) >= Limit(r) then Limit(r)
    else if MinLength(r.stopTokenIds) == 0 then 1
    else MinLength(r.stopTokenIds)
  }

  /** Prefill chunks enough for the prompt, given `n` batches. */
  predicate ChunksSuffice(r: Request, n: nat, config: Config) {
    r.cachedPrefixLen + n * config.maxPrefillChunkSize >= |r.promptTokens|
  }

  lemma FinishedLength(r: Request)
    requires Finished(r) && r.generatedTokens != []
    ensures |r.generatedTokens| >= EarliestEnd(r)
  {
  }

  lemma MoreChunks(r: Request, n: nat, k: nat, config: Config)
    requires n <= k && ChunksSuffice(r, n, config)
    ensures ChunksSuffice(r, k, config)
  {
    assert k * config.maxPrefillChunkSize == n * config.maxPrefillChunkSize + (k - n) * config.maxPrefillChunkSize;
  }

  lemma DepartedCursor(s: System, es: seq<Event>, r: Request)
    requires Inv(s) && Legal(s, es) && r in After(s, es).gone
    ensures var u := After(s, es);
      && (r.prefillCursor == |r.promptTokens| <==> ChunksSuffice(r, |r.generatedTokens|, u.sched.config))
      && |r.generatedTokens| <= Limit(r)
  {
    hide Legal, After, MemOk, PlanOk, Unstopped, NoDup, AllIds, Unstarted;
    assert GoneOk(r, After(s, es).sched.config);
  }

  /** A finished request's prompt was processed if its chunks fit into the fewest batches it can have had. */
  lemma PrefillGuaranteed(s: System, es: seq<Event>, r: Request)
    requires Inv(s) && Legal(s, es) && r in After(s, es).gone && Finished(r) && r.generatedTokens != []
    requires ChunksSuffice(r, EarliestEnd(r), After(s, es).sched.config)
    ensures r.prefillCursor == |r.promptTokens|
  {
    hide Inv, Legal, After, Finished, ChunksSuffice, EarliestEnd;
    DepartedCursor(s, es, r);
    FinishedLength(r);
    MoreChunks(r, EarliestEnd(r), |r.generatedTokens|, After(s, es).sched.config);
  }

  /** Without stop sequences this is exact: finished requests have had as many batches as their limit. */
  lemma PrefillCompleteIff(s: System, es: seq<Event>, r: Request)
    requires Inv(s) && Legal(s, es) && r in After(s, es).gone && Finished(r) && r.generatedTokens != []
    requires r.stopTokenIds == []
    ensures r.prefillCursor == |r.promptTokens| <==> ChunksSuffice(r, Limit(r), After(s, es).sched.config)
  {
    hide Inv, Legal, After, ChunksSuffice;
    DepartedCursor(s, es, r);
    FinishedLength(r);
  }

  // ---------------------------------------------------------------- the first decode

  lemma CeilLeast(a: nat, b: nat, n: nat)
    requires b >= 1 && n * b >= a
    ensures n >= CeilDiv(a, b)
  {
    var d := CeilDiv(a, b);
    assert a + b - 1 == d * b + (a + b - 1) % b;
    assert (n + 1) * b == n * b + b;
    if n < d {
      MulMonotone(n + 1, d, b);
    }
  }

  lemma CeilZero(a: nat, b: nat)
    requires b >= 1
    ensures CeilDiv(a, b) == 0 <==> a == 0
  {
    var d := CeilDiv(a, b);
    assert a + b - 1 == d * b + (a + b - 1) % b;
  }

  /** As many batches as the prefill takes: the next one is the request's first decode. */
  ghost predicate AtFirstDecode(r: Request, config: Config)
    requires config.maxPrefillChunkSize >= 1 && r.cachedPrefixLen <= |r.promptTokens|
  {
    |r.generatedTokens| == CeilDiv(|r.promptTokens| - r.cachedPrefixLen, config.maxPrefillChunkSize)
  }

  /**
   * What decodes feed the model, in every reachable state with a batch under way. Every running request past prefill is
   * decoded, and fed its own last output token, except in one case: its first decode feeds token 0 if and only if its
   * whole prompt was cached at admission, and then the model has seen no token of the prompt.
   */
  lemma DecodeInputIff(s: System, es: seq<Event>, r: Request)
    requires Inv(s) && Legal(s, es) && After(s, es).phase.Computing? && r in After(s, es).sched.running && Decoding(r)
    ensures var u := After(s, es);
      && DecodeItem(r) in Items(u)
      && u.sched.config.maxPrefillChunkSize >= 1 && r.cachedPrefixLen <= |r.promptTokens|
      && (AtFirstDecode(r, u.sched.config) ==> (r.generatedTokens == [] <==> r.cachedPrefixLen == |r.promptTokens|))
      && (!AtFirstDecode(r, u.sched.config) ==> r.generatedTokens != [])
      && (if r.cachedPrefixLen == |r.promptTokens| && AtFirstDecode(r, u.sched.config)
          then DecodeItem(r).input == [0] && FedTo(u.fed, r.id) == []
          else r.generatedTokens != [] && DecodeItem(r).input == [r.generatedTokens[|r.generatedTokens| - 1]])
  {
    hide Legal, After, MemOk, Unstopped, NoDup, AllIds, Unstarted, Exact, Decoding, Items;
    var u := After(s, es);
    var config := u.sched.config;
    assert CursorExact(r, config) && FedExact(r, u.fed);
    DecodingCursor(r, config);
    CeilZero(|r.promptTokens| - r.cachedPrefixLen, config.maxPrefillChunkSize);
    DecodedInBatch(u, r);
  }

  lemma DecodingCursor(r: Request, config: Config)
    requires config.maxPrefillChunkSize >= 1 && CursorExact(r, config) && Decoding(r)
    ensures |r.generatedTokens| >= CeilDiv(|r.promptTokens| - r.cachedPrefixLen, config.maxPrefillChunkSize)
  {
    CeilLeast(|r.promptTokens| - r.cachedPrefixLen, config.maxPrefillChunkSize, |r.generatedTokens|);
  }

  lemma {:induction false} DecodingListed(rs: seq<Request>, r: Request)
    requires r in rs && Decoding(r)
    ensures r.id in DecodingIds(rs)
  {
    assert rs == rs[..|rs| - 1] + [rs[|rs| - 1]];
    if rs[|rs| - 1] != r {
      DecodingListed(rs[..|rs| - 1], r);
    }
  }

  lemma DecodedInBatch(u: System, r: Request)
    requires Inv(u) && u.phase.Computing? && r in u.sched.running && Decoding(r)
    ensures DecodeItem(r) in Items(u)
  {
    hide MemOk, RunningOk, FedExact, GoneOk, Unstarted, AllIds, Batch, IsChunkOf, DecodingIds, PrefillingIds,
         PrefillChunks, Sum, Decoding, IndexOf;
    DistinctEverywhere(u);
    var p := u.phase.plan;
    BatchExact(p, u.sched.config);
    DecodingListed(p.running, r);
    var j :| 0 <= j < |p.toDecode| && p.toDecode[j] == r.id;
    var i :| 0 <= i < |p.running| && p.running[i] == r;
    IndexOfUnique(p.running, i);
    assert |ItemIds(Items(u))| == |Items(u)|;
    assert Items(u)[|p.toPrefill| + j] == DecodeItem(r);
  }
}
