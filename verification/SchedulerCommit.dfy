/** What the worker computes for a plan, and what the commit of its results does to the running queue. */
module SchedulerCommit {
  import opened Types
  import opened RadixTrie
  import opened BlockAccounting
  import opened SchedulerModel
  import opened SchedulerPlan

  lemma IndexOfUnique(rs: seq<Request>, i: nat)
    requires NoDup(Ids(rs)) && i < |rs|
    ensures IndexOf(rs, rs[i].id) == Some(i)
  {
    var ids := Ids(rs);
    assert ids[i] == rs[i].id && ids[i] in ids;
    DistinctAt(ids, i);
    hide IndexOf, Ids, NoDup;
    var r := IndexOf(rs, rs[i].id);
    assert r.Some? ==> ids[r.value] == ids[i];
  }

  lemma DistinctAt<T>(s: seq<T>, i: nat)
    requires NoDup(s) && i < |s|
    ensures forall j | 0 <= j < |s| && s[j] == s[i] :: j == i
  {
  }

  // ---------------------------------------------------------------- the batch

  lemma {:induction false} PrefillingAt(rs: seq<Request>, config: Config, j: nat) returns (i: nat)
    requires j < |PrefillingIds(rs)|
    ensures i < |rs| && rs[i].id == PrefillingIds(rs)[j] && !Decoding(rs[i])
      && PrefillChunks(rs, config)[j] == ChunkSize(rs[i], config)
  {
    if j < |PrefillingIds(rs[..|rs| - 1])| {
      i := PrefillingAt(rs[..|rs| - 1], config, j);
    } else {
      i := |rs| - 1;
    }
  }

  lemma {:induction false} DecodingAt(rs: seq<Request>, j: nat) returns (i: nat)
    requires j < |DecodingIds(rs)|
    ensures i < |rs| && rs[i].id == DecodingIds(rs)[j] && Decoding(rs[i])
  {
    if j < |DecodingIds(rs[..|rs| - 1])| {
      i := DecodingAt(rs[..|rs| - 1], j);
    } else {
      i := |rs| - 1;
    }
  }

  /** Lengths of the inputs, added up. */
  function TotalInput(items: seq<WorkItem>): nat {
    if items == [] then 0 else TotalInput(items[..|items| - 1]) + |items[|items| - 1].input|
  }

  lemma {:induction false} TotalInputConcat(a: seq<WorkItem>, b: seq<WorkItem>)
    ensures TotalInput(a + b) == TotalInput(a) + TotalInput(b)
  {
    if b == [] {
      assert a + b == a;
    } else {
      assert (a + b)[..|a + b| - 1] == a + b[..|b| - 1];
      TotalInputConcat(a, b[..|b| - 1]);
    }
  }

  /** The chunk a prefilling request contributes: exactly the tokens its cursor will move over. */
  function Chunk(r: Request, config: Config): seq<Token>
    requires !Decoding(r)
  {
    r.promptTokens[r.prefillCursor..r.prefillCursor + ChunkSize(r, config)]
  }

  /** Item `j` is the next chunk of the request it names; in particular the fully-cached branch is not taken. */
  ghost predicate IsChunkOf(item: WorkItem, rs: seq<Request>, id: RequestId, config: Config) {
    match IndexOf(rs, id)
    case None => false
    case Some(i) =>
      && !Decoding(rs[i])
      && item == WorkItem(id, Chunk(rs[i], config),
                          rs[i].prefillCursor + ChunkSize(rs[i], config) == |rs[i].promptTokens|,
                          true, rs[i].prefillCursor == 0)
  }

  /** Item `j` feeds the named request, which is past prefill, its own last token, or 0 when it has none. */
  ghost predicate IsDecodeOf(item: WorkItem, rs: seq<Request>, id: RequestId) {
    match IndexOf(rs, id)
    case None => false
    case Some(i) => Decoding(rs[i]) && item == WorkItem(id, [LastOrZero(rs[i].generatedTokens)], false, false, false)
  }

  lemma TotalInputSnoc(items: seq<WorkItem>, item: WorkItem)
    ensures TotalInput(items + [item]) == TotalInput(items) + |item.input|
  {
    assert (items + [item])[..|items|] == items;
  }

  /** The batch's `j`-th prefill. */
  lemma PrefillItemAt(rs: seq<Request>, config: Config, j: nat) returns (item: WorkItem)
    requires NoDup(Ids(rs)) && j < |PrefillingIds(rs)|
    ensures var id := PrefillingIds(rs)[j];
      && IndexOf(rs, id).Some? && PrefillItem(rs[IndexOf(rs, id).value], config) == [item]
      && item.reqId == id && IsChunkOf(item, rs, id, config)
      && j < |PrefillChunks(rs, config)| && |item.input| == PrefillChunks(rs, config)[j]
  {
    hide IndexOf, NoDup, Ids, PrefillChunks, PrefillingIds;
    var i := PrefillingAt(rs, config, j);
    IndexOfUnique(rs, i);
    item := PrefillItem(rs[i], config)[0];
  }

  lemma {:induction false} PrefillItemsFacts(rs: seq<Request>, config: Config, k: nat)
    requires NoDup(Ids(rs)) && k <= |PrefillingIds(rs)|
    ensures var ids := PrefillingIds(rs)[..k];
      var items := PrefillItems(rs, ids, config);
      && |items| == k
      && (forall j | 0 <= j < k :: items[j].reqId == ids[j] && IsChunkOf(items[j], rs, ids[j], config))
      && k <= |PrefillChunks(rs, config)| && TotalInput(items) == Sum(PrefillChunks(rs, config)[..k])
  {
    hide IndexOf, NoDup, Ids, PrefillChunks, PrefillingIds, PrefillItem, IsChunkOf, Sum, TotalInput;
    var all, chunks := PrefillingIds(rs), PrefillChunks(rs, config);
    if k > 0 {
      PrefillItemsFacts(rs, config, k - 1);
      assert all[..k][..|all[..k]| - 1] == all[..k - 1];
      var item := PrefillItemAt(rs, config, k - 1);
      assert chunks[..k] == chunks[..k - 1] + [chunks[k - 1]];
      SumAppend(chunks[..k - 1], chunks[k - 1]);
      TotalInputSnoc(PrefillItems(rs, all[..k - 1], config), item);
    } else {
      NoInput(rs, config);
    }
  }

  lemma NoInput(rs: seq<Request>, config: Config)
    ensures TotalInput([]) == 0 && Sum(PrefillChunks(rs, config)[..0]) == 0
  {
  }

  /** The batch's `j`-th decode. */
  lemma DecodeItemAt(rs: seq<Request>, j: nat) returns (item: WorkItem)
    requires NoDup(Ids(rs)) && j < |DecodingIds(rs)|
    ensures var id := DecodingIds(rs)[j];
      && IndexOf(rs, id).Some? && DecodeItem(rs[IndexOf(rs, id).value]) == item
      && item.reqId == id && IsDecodeOf(item, rs, id) && |item.input| == 1
  {
    hide IndexOf, NoDup, Ids, DecodingIds;
    var i := DecodingAt(rs, j);
    IndexOfUnique(rs, i);
    item := DecodeItem(rs[i]);
  }

  lemma {:induction false} DecodeItemsFacts(rs: seq<Request>, k: nat)
    requires NoDup(Ids(rs)) && k <= |DecodingIds(rs)|
    ensures var ids := DecodingIds(rs)[..k];
      var items := DecodeItems(rs, ids);
      && |items| == k
      && (forall j | 0 <= j < k :: items[j].reqId == ids[j] && IsDecodeOf(items[j], rs, ids[j]))
      && TotalInput(items) == k
  {
    hide IndexOf, NoDup, Ids, DecodingIds, DecodeItem, IsDecodeOf;
    if k > 0 {
      var all := DecodingIds(rs);
      DecodeItemsFacts(rs, k - 1);
      var item := DecodeItemAt(rs, k - 1);
      DecodeItemsInit(rs, all, k);
      hide TotalInput, DecodeItems;
      TotalInputSnoc(DecodeItems(rs, all[..k - 1]), item);
    }
  }

  lemma DecodeItemsInit(rs: seq<Request>, ids: seq<RequestId>, k: nat)
    requires 0 < k <= |ids| && IndexOf(rs, ids[k - 1]).Some?
    ensures DecodeItems(rs, ids[..k]) == DecodeItems(rs, ids[..k - 1]) + [DecodeItem(rs[IndexOf(rs, ids[k - 1]).value])]
  {
    hide DecodeItem, IndexOf;
    assert ids[..k][..|ids[..k]| - 1] == ids[..k - 1];
  }

  function ItemIds(items: seq<WorkItem>): (ids: seq<RequestId>)
    ensures |ids| == |items| && forall j | 0 <= j < |items| :: ids[j] == items[j].reqId
  {
    seq(|items|, j requires 0 <= j < |items| => items[j].reqId)
  }

  /**
   * The batch does what the plan says: one item per planned id, in order, with inputs adding up to the planned total.
   */
  lemma BatchExact(pl: Plan, config: Config)
    requires Exact(pl, config) && NoDup(Ids(pl.running))
    ensures var items := Batch(pl, config);
      && ItemIds(items) == pl.toPrefill + pl.toDecode
      && TotalInput(items) == pl.totalTokens
      && (forall j | 0 <= j < |pl.toPrefill| :: IsChunkOf(items[j], pl.running, pl.toPrefill[j], config))
      && (forall j | 0 <= j < |pl.toDecode| :: IsDecodeOf(items[|pl.toPrefill| + j], pl.running, pl.toDecode[j]))
      && (forall j | |pl.toPrefill| <= j < |items| :: !items[j].isPrefill)
  {
    hide NoDup, Ids, PrefillItems, DecodeItems, IsChunkOf, DecodingIds, PrefillingIds, PrefillChunks, Sum, TotalInput;
    PrefillItemsFacts(pl.running, config, |pl.toPrefill|);
    assert pl.toDecode[..|pl.toDecode|] == pl.toDecode;
    DecodeItemsFacts(pl.running, |pl.toDecode|);
    TotalInputConcat(PrefillItems(pl.running, pl.toPrefill, config), DecodeItems(pl.running, pl.toDecode));
  }

  lemma {:induction false} IdsOfParts(rs: seq<Request>)
    requires NoDup(Ids(rs))
    ensures NoDup(PrefillingIds(rs) + DecodingIds(rs))
    ensures forall id | id in PrefillingIds(rs) + DecodingIds(rs) :: id in Ids(rs)
  {
    if rs != [] {
      var init, last := rs[..|rs| - 1], rs[|rs| - 1];
      assert Ids(rs) == Ids(init) + [last.id];
      assert NoDup(Ids(init)) by {
        assert forall i, j | 0 <= i < j < |init| :: Ids(init)[i] == Ids(rs)[i] && Ids(init)[j] == Ids(rs)[j];
      }
      IdsOfParts(init);
      assert last.id !in Ids(init) by {
        assert forall i | 0 <= i < |init| :: Ids(rs)[i] != Ids(rs)[|init|];
      }
      InsertDistinct(PrefillingIds(init), DecodingIds(init), last.id);
      assert PrefillingIds(init) + [] == PrefillingIds(init) && DecodingIds(init) + [] == DecodingIds(init);
    }
  }

  lemma InsertDistinct(a: seq<RequestId>, b: seq<RequestId>, x: RequestId)
    requires NoDup(a + b) && x !in a + b
    ensures NoDup(a + (b + [x])) && NoDup(a + [x] + b)
    ensures NoDup(a + [] + b) && NoDup(a + b + [])
  {
    assert forall i | 0 <= i < |a| :: (a + b)[i] == a[i];
    assert forall i | 0 <= i < |b| :: (a + b)[|a| + i] == b[i];
    NoDupAppend(a + b, x);
    assert a + (b + [x]) == a + b + [x];
    forall i, j | 0 <= i < j < |a + [x] + b|
      ensures (a + [x] + b)[i] != (a + [x] + b)[j]
    {
      var i' := if i < |a| then i else i - 1;
      var j' := if j < |a| then j else j - 1;
      assert i != |a| && j != |a| ==> (a + b)[i'] != (a + b)[j'];
    }
    assert a + [] == a && a + b + [] == a + b;
  }

  /** The ids of a batch are distinct and all running. */
  lemma BatchIdsDistinct(pl: Plan, config: Config)
    requires Exact(pl, config) && NoDup(Ids(pl.running))
    ensures NoDup(pl.toPrefill + pl.toDecode)
    ensures forall id | id in pl.toPrefill + pl.toDecode :: id in Ids(pl.running)
  {
    IdsOfParts(pl.running);
    var p, d, k := PrefillingIds(pl.running), DecodingIds(pl.running), |pl.toPrefill|;
    forall i, j | 0 <= i < j < |p[..k] + d|
      ensures (p[..k] + d)[i] != (p[..k] + d)[j]
    {
      var i' := if i < k then i else i - k + |p|;
      var j' := if j < k then j else j - k + |p|;
      assert (p + d)[i'] != (p + d)[j'];
    }
  }

  // ---------------------------------------------------------------- pushing tokens, moving cursors

  function ResultIds(results: seq<ComputeResult>): (ids: seq<RequestId>)
    ensures |ids| == |results| && forall j | 0 <= j < |results| :: ids[j] == results[j].reqId
  {
    seq(|results|, j requires 0 <= j < |results| => results[j].reqId)
  }

  /** The token computed for a request. */
  function TokenFor(results: seq<ComputeResult>, id: RequestId): Option<Token> {
    if results == [] then None
    else if results[|results| - 1].reqId == id then Some(results[|results| - 1].token)
    else TokenFor(results[..|results| - 1], id)
  }

  lemma {:induction false} TokenForKnown(results: seq<ComputeResult>, id: RequestId)
    ensures TokenFor(results, id).Some? <==> id in ResultIds(results)
  {
    if results != [] {
      TokenForKnown(results[..|results| - 1], id);
      assert ResultIds(results) == ResultIds(results[..|results| - 1]) + [results[|results| - 1].reqId];
    }
  }

  function Pushed(r: Request, results: seq<ComputeResult>): Request {
    match TokenFor(results, r.id)
    case None => r
    case Some(t) => r.(generatedTokens := r.generatedTokens + [t])
  }

  /** Every request gets exactly the token computed for it. */
  lemma {:induction false} PushTokensFacts(rs: seq<Request>, results: seq<ComputeResult>)
    requires NoDup(Ids(rs)) && NoDup(ResultIds(results))
    ensures var u := PushTokens(rs, results);
      Ids(u) == Ids(rs) && forall i | 0 <= i < |rs| :: u[i] == Pushed(rs[i], results)
  {
    if results != [] {
      var init, last := results[..|results| - 1], results[|results| - 1];
      assert ResultIds(results) == ResultIds(init) + [last.reqId];
      assert NoDup(ResultIds(init)) by {
        assert forall i, j | 0 <= i < j < |init| ::
          ResultIds(init)[i] == ResultIds(results)[i] && ResultIds(init)[j] == ResultIds(results)[j];
      }
      PushTokensFacts(rs, init);
      assert last.reqId !in ResultIds(init) by {
        assert forall i | 0 <= i < |init| :: ResultIds(results)[i] != ResultIds(results)[|init|];
      }
      TokenForKnown(init, last.reqId);
      var before := PushTokens(rs, init);
      forall i | 0 <= i < |rs|
        ensures PushTokens(rs, results)[i] == Pushed(rs[i], results) && PushTokens(rs, results)[i].id == rs[i].id
      {
        assert Ids(before)[i] == Ids(rs)[i];
        IndexOfUnique(before, i);
      }
    }
  }

  lemma {:induction false} AdvanceCursorsFacts(rs: seq<Request>, ids: seq<RequestId>, config: Config)
    requires NoDup(Ids(rs)) && NoDup(ids)
    ensures var u := AdvanceCursors(rs, ids, config);
      Ids(u) == Ids(rs) && forall i | 0 <= i < |rs| ::
        u[i] == if rs[i].id in ids then Advanced(rs[i], config) else rs[i]
  {
    if ids != [] {
      var init, last := ids[..|ids| - 1], ids[|ids| - 1];
      assert ids == init + [last];
      AdvanceCursorsFacts(rs, init, config);
      var before := AdvanceCursors(rs, init, config);
      forall i | 0 <= i < |rs|
        ensures AdvanceCursors(rs, ids, config)[i] == (if rs[i].id in ids then Advanced(rs[i], config) else rs[i])
        ensures AdvanceCursors(rs, ids, config)[i].id == rs[i].id
      {
        assert Ids(before)[i] == Ids(rs)[i];
        IndexOfUnique(before, i);
      }
    }
  }

  /** A request as the commit sees it before looking for finished ones. */
  function ComputedRequest(r: Request, toPrefill: seq<RequestId>, results: seq<ComputeResult>,
    config: Config): Request {
    if r.id in toPrefill then Advanced(Pushed(r, results), config) else Pushed(r, results)
  }

  lemma ComputedFacts(rs: seq<Request>, toPrefill: seq<RequestId>, results: seq<ComputeResult>, config: Config)
    requires NoDup(Ids(rs)) && NoDup(ResultIds(results)) && NoDup(toPrefill)
    ensures var u := Computed(rs, toPrefill, results, config);
      Ids(u) == Ids(rs) && forall i | 0 <= i < |rs| :: u[i] == ComputedRequest(rs[i], toPrefill, results, config)
  {
    PushTokensFacts(rs, results);
    AdvanceCursorsFacts(PushTokens(rs, results), toPrefill, config);
  }

  // ---------------------------------------------------------------- finishing

  lemma {:induction false} SplitFinished(rs: seq<Request>, r: Request)
    ensures r in Unfinished(rs) <==> r in rs && !Finished(r)
    ensures r in FinishedRequests(rs) <==> r in rs && Finished(r)
  {
    if rs != [] {
      SplitFinished(rs[..|rs| - 1], r);
      assert rs == rs[..|rs| - 1] + [rs[|rs| - 1]];
    }
  }

  /** The requests whose ids are not listed, in order. */
  function Without(rs: seq<Request>, ids: seq<RequestId>): seq<Request> {
    if rs == [] then []
    else Without(rs[..|rs| - 1], ids) + if rs[|rs| - 1].id in ids then [] else [rs[|rs| - 1]]
  }

  lemma IdsInit(rs: seq<Request>)
    requires rs != []
    ensures Ids(rs) == Ids(rs[..|rs| - 1]) + [rs[|rs| - 1].id]
    ensures NoDup(Ids(rs)) ==> NoDup(Ids(rs[..|rs| - 1])) && rs[|rs| - 1].id !in Ids(rs[..|rs| - 1])
  {
    var init, ids := Ids(rs[..|rs| - 1]), Ids(rs);
    assert ids == init + [rs[|rs| - 1].id];
    if NoDup(ids) {
      assert forall i | 0 <= i < |init| :: init[i] == ids[i];
      assert ids[|init|] == rs[|rs| - 1].id;
    }
  }

  lemma {:induction false} WithoutUnknown(rs: seq<Request>, ids: seq<RequestId>)
    requires forall i | 0 <= i < |rs| :: rs[i].id !in ids
    ensures Without(rs, ids) == rs
  {
    if rs != [] {
      WithoutUnknown(rs[..|rs| - 1], ids);
      assert rs == rs[..|rs| - 1] + [rs[|rs| - 1]];
    }
  }

  lemma {:induction false} WithoutTwice(rs: seq<Request>, ids: seq<RequestId>, id: RequestId)
    ensures Without(Without(rs, ids), [id]) == Without(rs, ids + [id])
  {
    if rs != [] {
      var init, last := rs[..|rs| - 1], rs[|rs| - 1];
      WithoutTwice(init, ids, id);
      if last.id !in ids {
        assert (Without(init, ids) + [last])[..|Without(init, ids) + [last]| - 1] == Without(init, ids);
      } else {
        assert Without(rs, ids) == Without(init, ids);
      }
    }
  }

  lemma {:induction false} RemoveIsWithout(rs: seq<Request>, i: nat)
    requires i < |rs| && forall j | 0 <= j < |rs| && j != i :: rs[j].id != rs[i].id
    ensures Without(rs, [rs[i].id]) == rs[..i] + rs[i + 1..]
  {
    var init := rs[..|rs| - 1];
    if i == |init| {
      WithoutUnknown(init, [rs[i].id]);
    } else {
      RemoveIsWithout(init, i);
      assert rs[i + 1..] == init[i + 1..] + [rs[|init|]];
    }
  }

  lemma {:induction false} WithoutIds(rs: seq<Request>, ids: seq<RequestId>)
    requires NoDup(Ids(rs))
    ensures NoDup(Ids(Without(rs, ids)))
    ensures forall id :: id in Ids(Without(rs, ids)) <==> id in Ids(rs) && id !in ids
  {
    if rs != [] {
      var init, last := rs[..|rs| - 1], rs[|rs| - 1];
      IdsInit(rs);
      WithoutIds(init, ids);
      if last.id !in ids {
        assert Ids(Without(init, ids) + [last]) == Ids(Without(init, ids)) + [last.id];
        NoDupAppend(Ids(Without(init, ids)), last.id);
      } else {
        assert Without(rs, ids) == Without(init, ids);
      }
    }
  }

  lemma RemoveFirstIsWithout(rs: seq<Request>, id: RequestId)
    requires NoDup(Ids(rs)) && id in Ids(rs)
    ensures RemoveFirst(rs, id) == Without(rs, [id])
  {
    var i := IndexOf(rs, id).value;
    forall j | 0 <= j < |rs| && j != i
      ensures rs[j].id != id
    {
      assert Ids(rs)[j] != Ids(rs)[i];
    }
    RemoveIsWithout(rs, i);
  }

  lemma InitDistinct(ids: seq<RequestId>)
    requires NoDup(ids) && ids != []
    ensures NoDup(ids[..|ids| - 1]) && ids[|ids| - 1] !in ids[..|ids| - 1]
  {
  }

  /** Finishing distinct running requests one by one removes just them and frees them in order. */
  lemma {:induction false} FinishEachFacts(l: Live, ids: seq<RequestId>, pss: seq<seq<Path>>)
    requires Sound(l.mem) && NoDup(Ids(l.running)) && NoDup(ids) && |pss| == |ids|
    requires forall id | id in ids :: id in Ids(l.running)
    ensures PermittedFinishes(l, ids, pss) <==> PermittedFrees(l.mem, ids, pss)
    ensures PermittedFrees(l.mem, ids, pss)
      ==> FinishEach(l, ids, pss) == Live(Without(l.running, ids), FreeAll(l.mem, ids, pss))
  {
    hide Sound, PermittedFree, Free, IndexOf, Ids, NoDup, Without, RemoveFirst;
    if ids == [] {
      WithoutUnknown(l.running, ids);
    } else {
      var init, last := ids[..|ids| - 1], ids[|ids| - 1];
      assert ids == init + [last];
      InitDistinct(ids);
      FinishEachFacts(l, init, pss[..|pss| - 1]);
      WithoutIds(l.running, init);
      WithoutTwice(l.running, init, last);
      RemoveFirstIsWithout(Without(l.running, init), last);
    }
  }

  lemma {:induction false} FinishedIdsDistinct(rs: seq<Request>)
    requires NoDup(Ids(rs))
    ensures NoDup(Ids(FinishedRequests(rs)))
    ensures forall id | id in Ids(FinishedRequests(rs)) :: id in Ids(rs)
  {
    if rs != [] {
      var init, last := rs[..|rs| - 1], rs[|rs| - 1];
      IdsInit(rs);
      FinishedIdsDistinct(init);
      if Finished(last) {
        assert Ids(FinishedRequests(init) + [last]) == Ids(FinishedRequests(init)) + [last.id];
        NoDupAppend(Ids(FinishedRequests(init)), last.id);
      } else {
        assert FinishedRequests(rs) == FinishedRequests(init);
      }
    }
  }

  lemma {:induction false} WithoutFinished(rs: seq<Request>, ids: seq<RequestId>)
    requires forall r | r in rs :: r.id in ids <==> Finished(r)
    ensures Without(rs, ids) == Unfinished(rs)
  {
    if rs != [] {
      WithoutFinished(rs[..|rs| - 1], ids);
    }
  }

  lemma FinishedExactly(rs: seq<Request>)
    requires NoDup(Ids(rs))
    ensures Without(rs, Ids(FinishedRequests(rs))) == Unfinished(rs)
  {
    var f := FinishedRequests(rs);
    forall r | r in rs
      ensures r.id in Ids(f) <==> Finished(r)
    {
      SplitFinished(rs, r);
      if Finished(r) {
        var i :| 0 <= i < |f| && f[i] == r;
        assert Ids(f)[i] == r.id;
      }
      if r.id in Ids(f) {
        var i :| 0 <= i < |f| && Ids(f)[i] == r.id;
        SplitFinished(rs, f[i]);
        SameId(rs, r, f[i]);
      }
    }
    WithoutFinished(rs, Ids(f));
  }

  lemma SameId(rs: seq<Request>, a: Request, b: Request)
    requires NoDup(Ids(rs)) && a in rs && b in rs && a.id == b.id
    ensures a == b
  {
    var i :| 0 <= i < |rs| && rs[i] == a;
    var j :| 0 <= j < |rs| && rs[j] == b;
    assert Ids(rs)[i] == Ids(rs)[j];
  }

  /** The commit, in closed form: tokens pushed, cursors moved, finished requests removed and freed in order. */
  lemma CommitFacts(s: State, toPrefill: seq<RequestId>, results: seq<ComputeResult>, pss: seq<seq<Path>>)
    requires Sound(s.mem) && PermittedCommit(s, toPrefill, results, pss)
    requires NoDup(Ids(s.running)) && NoDup(ResultIds(results)) && NoDup(toPrefill)
    ensures var rs, u := Computed(s.running, toPrefill, results, s.config), Commit(s, toPrefill, results, pss);
      && Ids(rs) == Ids(s.running)
      && (forall i | 0 <= i < |rs| :: rs[i] == ComputedRequest(s.running[i], toPrefill, results, s.config))
      && u.running == Unfinished(rs)
      && PermittedFrees(s.mem, Ids(FinishedRequests(rs)), pss)
      && u.mem == FreeAll(s.mem, Ids(FinishedRequests(rs)), pss)
      && u.waiting == s.waiting && u.config == s.config
  {
    hide Sound, NoDup, Computed, PermittedFrees;
    ComputedFacts(s.running, toPrefill, results, s.config);
    var rs := Computed(s.running, toPrefill, results, s.config);
    FinishedIdsDistinct(rs);
    FinishEachFacts(Live(rs, s.mem), Ids(FinishedRequests(rs)), pss);
    FinishedExactly(rs);
  }
}
