/** The block manager's part of the serving invariant: tables follow the running queue. */
module ServingMemory {
  import opened Types
  import opened RadixTrie
  import opened BlockAccounting
  import opened BlockSafety
  import opened BlockCoverage
  import opened SchedulerModel
  import opened ServingSystem

  lemma CountsTwice(s: seq<RequestId>, i: nat, j: nat)
    requires i < j < |s| && s[i] == s[j]
    ensures multiset(s)[s[i]] >= 2
  {
    assert s == s[..j] + [s[j]] + s[j + 1..];
    assert s[..j][i] == s[i];
    assert s[i] in multiset(s[..j]);
  }

  lemma CountsNoDup(s: seq<RequestId>)
    requires forall x :: multiset(s)[x] <= 1
    ensures NoDup(s)
  {
    forall i, j | 0 <= i < j < |s|
      ensures s[i] != s[j]
    {
      if s[i] == s[j] {
        CountsTwice(s, i, j);
      }
    }
  }

  lemma NoDupSameElements(s: seq<RequestId>, t: seq<RequestId>)
    requires NoDup(s) && multiset(s) == multiset(t)
    ensures NoDup(t)
  {
    NoDupCounts(s);
    CountsNoDup(t);
  }

  // ---------------------------------------------------------------- splitting a queue

  lemma IdsSnoc(rs: seq<Request>, r: Request)
    ensures Ids(rs + [r]) == Ids(rs) + [r.id] && multiset(Ids(rs + [r])) == multiset(Ids(rs)) + multiset{r.id}
  {
  }

  lemma {:induction false} ExpirySplit(rs: seq<Request>, now: nat)
    ensures Ids(ExpiredRequests(rs, now)) == ExpiredIds(rs, now)
    ensures multiset(Ids(Unexpired(rs, now))) + multiset(ExpiredIds(rs, now)) == multiset(Ids(rs))
    ensures forall r :: r in Unexpired(rs, now) ==> r in rs
    ensures forall r :: r in ExpiredRequests(rs, now) ==> r in rs
  {
    if rs != [] {
      hide Expired, Ids;
      var init, last := rs[..|rs| - 1], rs[|rs| - 1];
      ExpirySplit(init, now);
      assert rs == init + [last];
      IdsSnoc(init, last);
      if Expired(last, now) {
        assert Unexpired(rs, now) == Unexpired(init, now);
        IdsSnoc(ExpiredRequests(init, now), last);
      } else {
        assert ExpiredRequests(rs, now) == ExpiredRequests(init, now) && ExpiredIds(rs, now) == ExpiredIds(init, now);
        IdsSnoc(Unexpired(init, now), last);
      }
    }
  }

  lemma {:induction false} FinishSplit(rs: seq<Request>)
    ensures multiset(Ids(Unfinished(rs))) + multiset(Ids(FinishedRequests(rs))) == multiset(Ids(rs))
    ensures forall r :: r in Unfinished(rs) ==> r in rs && !Finished(r)
    ensures forall r :: r in FinishedRequests(rs) ==> r in rs && Finished(r)
  {
    if rs != [] {
      hide Finished, Ids;
      var init, last := rs[..|rs| - 1], rs[|rs| - 1];
      FinishSplit(init);
      assert rs == init + [last];
      IdsSnoc(init, last);
      if Finished(last) {
        assert Unfinished(rs) == Unfinished(init);
        IdsSnoc(FinishedRequests(init), last);
      } else {
        assert FinishedRequests(rs) == FinishedRequests(init);
        IdsSnoc(Unfinished(init), last);
      }
    }
  }

  // ---------------------------------------------------------------- freeing requests

  lemma FreeMem(m: Mem, id: RequestId, ps: seq<Path>)
    requires Sound(m) && Covers(m) && m.table.Keys == m.prompts.Keys && PermittedFree(m, id, ps)
    ensures var u := Free(m, id, ps);
      && Sound(u) && Covers(u) && u.table.Keys == u.prompts.Keys
      && u.table.Keys == m.table.Keys - {id}
      && forall i | i in u.prompts :: i in m.prompts && u.prompts[i] == m.prompts[i]
  {
    FreeSound(m, id, ps);
    FreeCovers(m, id, ps);
  }

  lemma {:induction false} FreeAllMem(m: Mem, ids: seq<RequestId>, pss: seq<seq<Path>>)
    requires Sound(m) && Covers(m) && m.table.Keys == m.prompts.Keys && PermittedFrees(m, ids, pss)
    ensures var u := FreeAll(m, ids, pss);
      && Sound(u) && Covers(u) && u.table.Keys == u.prompts.Keys
      && (forall i :: i in u.table <==> i in m.table && i !in ids)
      && forall i | i in u.prompts :: i in m.prompts && u.prompts[i] == m.prompts[i]
  {
    hide Sound, Covers, PermittedFree, Free;
    if ids != [] {
      var init, last := ids[..|ids| - 1], ids[|ids| - 1];
      assert ids == init + [last];
      FreeAllMem(m, init, pss[..|pss| - 1]);
      FreeMem(FreeAll(m, init, pss[..|pss| - 1]), last, pss[|pss| - 1]);
    }
  }

  lemma SplitMembers(all: seq<RequestId>, left: seq<RequestId>, out: seq<RequestId>)
    requires NoDup(all) && multiset(left) + multiset(out) == multiset(all)
    ensures forall id :: id in left <==> id in all && id !in out
  {
    NoDupCounts(all);
    forall id
      ensures id in left <==> id in all && id !in out
    {
      assert multiset(left)[id] + multiset(out)[id] == multiset(all)[id] <= 1;
    }
  }

  /** Removing requests from the queue while freeing them keeps the tables in step. */
  lemma FreeAllTracks(m: Mem, rs: seq<Request>, left: seq<Request>, ids: seq<RequestId>, pss: seq<seq<Path>>)
    requires MemOk(m, rs) && NoDup(Ids(rs)) && PermittedFrees(m, ids, pss)
    requires multiset(Ids(left)) + multiset(ids) == multiset(Ids(rs))
    requires forall r | r in left :: exists q :: q in rs && q.id == r.id && q.promptTokens == r.promptTokens
    ensures MemOk(FreeAll(m, ids, pss), left)
  {
    hide Sound, Covers, PermittedFrees, FreeAll, NoDup, Ids;
    assert m.table.Keys == m.prompts.Keys;
    FreeAllMem(m, ids, pss);
    SplitMembers(Ids(rs), Ids(left), ids);
    var u := FreeAll(m, ids, pss);
    forall r | r in left
      ensures r.id in u.prompts && u.prompts[r.id] == r.promptTokens
    {
      var q :| q in rs && q.id == r.id && q.promptTokens == r.promptTokens;
      IdOfMember(left, r);
    }
  }

  lemma IdOfMember(rs: seq<Request>, r: Request)
    requires r in rs
    ensures r.id in Ids(rs)
  {
    var i :| 0 <= i < |rs| && rs[i] == r;
    assert Ids(rs)[i] == r.id;
  }

  // ---------------------------------------------------------------- admitting requests

  lemma AdmitTracks(pl: Plan, config: Config, ps: seq<Path>)
    requires MemOk(pl.mem, pl.running) && PermittedTry(pl, config, ps) && Try(pl, config, ps).result.Some?
    requires pl.waiting[0].id !in Ids(pl.running)
    ensures MemOk(Admit(pl, config, ps).mem, Admit(pl, config, ps).running)
  {
    hide Sound, Covers, PermittedAllocate, AllocateWithPrefix;
    var w := pl.waiting[0];
    AllocateWithPrefixSound(pl.mem, w.id, w.promptTokens, ps);
    AllocationCovers(pl.mem, w.id, w.promptTokens, ps);
    var u := Admit(pl, config, ps);
    var r := u.running[|u.running| - 1];
    IdsSnoc(pl.running, r);
    hide Ids;
    forall q | q in u.running
      ensures q.id in u.mem.prompts && u.mem.prompts[q.id] == q.promptTokens
    {
      if q != r {
        assert q in pl.running;
        IdOfMember(pl.running, q);
      }
    }
  }
}
