/** The two dirty page accounts, the global one and those of the files, agree. */
module CacheAccounts {
  import opened Collections
  import opened CacheState
  import opened CacheEvents
  import opened CacheRuns

  function SumPages(order: seq<FileId>, pages: map<FileId, int>): (n: int)
    requires forall f :: f in order ==> f in pages
  {
    if order == [] then 0 else pages[order[0]] + SumPages(order[1..], pages)
  }

  function SumCounts(order: seq<FileId>, list: seq<VacbId>, chunk: map<VacbId, Chunk>): (n: nat) {
    if order == [] then 0 else CountIn(list, chunk, order[0]) + SumCounts(order[1..], list, chunk)
  }

  lemma {:induction false} SumNothing(order: seq<FileId>, chunk: map<VacbId, Chunk>)
    ensures SumCounts(order, [], chunk) == 0
  {
    if order == [] {
    } else {
      SumNothing(order[1..], chunk);
    }
  }

  /** One more view in front counts for exactly its own file. */
  lemma {:induction false} SumOneMore(order: seq<FileId>, v: VacbId, list: seq<VacbId>, chunk: map<VacbId, Chunk>)
    requires v in chunk && Distinct(order)
    ensures SumCounts(order, [v] + list, chunk) == SumCounts(order, list, chunk) + One(chunk[v].file in order)
  {
    if order == [] {
    } else {
      SumOneMore(order[1..], v, list, chunk);
      assert ([v] + list)[1..] == list;
    }
  }

  lemma {:induction false} SumIsLength(order: seq<FileId>, list: seq<VacbId>, chunk: map<VacbId, Chunk>)
    requires Distinct(order) && forall v :: v in list ==> v in chunk && chunk[v].file in order
    ensures SumCounts(order, list, chunk) == |list|
  {
    if list == [] {
      SumNothing(order, chunk);
    } else {
      SumIsLength(order, list[1..], chunk);
      SumOneMore(order, list[0], list[1..], chunk);
      assert list == [list[0]] + list[1..];
    }
  }

  lemma {:induction false} SumScales(order: seq<FileId>, pages: map<FileId, int>, list: seq<VacbId>, chunk: map<VacbId, Chunk>)
    requires forall f :: f in order ==> f in pages && pages[f] == PAGES_PER_VIEW * CountIn(list, chunk, f)
    ensures SumPages(order, pages) == PAGES_PER_VIEW * SumCounts(order, list, chunk)
  {
    if order == [] {
    } else {
      SumScales(order[1..], pages, list, chunk);
    }
  }

  /** As long as no assertion has been tripped, CcTotalDirtyPages is 64 pages for each view on the
      dirty list, and the sum of the DirtyPages of all cached files, in whatever order they are added up. */
  lemma AccountsAgree(states: seq<Cache>, events: seq<Event>, store: map<Chunk, View>, files: set<FileId>, n: nat, order: seq<FileId>)
    requires IsRun(states, events, store, files) && n < |states| && Clear(states, events, n)
    requires Distinct(order) && forall f :: f in order <==> f in states[n].lists
    ensures forall f :: f in order ==> f in states[n].dirtyPages
    ensures states[n].totalDirty == PAGES_PER_VIEW * |states[n].dirtyList| == SumPages(order, states[n].dirtyPages)
  {
    hide Step, Enabled, CleanOk, Coherent;
    RunInv(states, events, store, files, n);
    var c := states[n];
    assert PartOk(Account, c) && PartOk(Index, c) && PartOk(Dirties, c);
    SumIsLength(order, c.dirtyList, c.chunk);
    SumScales(order, c.dirtyPages, c.dirtyList, c.chunk);
  }
}
