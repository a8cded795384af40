/** What each primitive of the cache manager keeps of its invariant. */
module CacheSteps {
  import opened CacheState
  import opened CacheLists

  // ------------------------------------------------------------- frames

  /** The linked views, their bytes, the store and the flat file are the same. */
  ghost predicate SameBytes(c: Cache, d: Cache) {
    && d.store == c.store && d.h.linked == c.h.linked
    && d.h.lost == c.h.lost && d.h.initial == c.h.initial && d.h.writes == c.h.writes
    && (forall v :: v in c.h.linked ==>
          && (v in d.chunk <==> v in c.chunk) && (v in c.chunk ==> d.chunk[v] == c.chunk[v])
          && (v in d.data <==> v in c.data) && (v in c.data ==> d.data[v] == c.data[v]))
  }

  lemma BytesFrame(c: Cache, d: Cache)
    requires Coherent(c) && SameBytes(c, d)
    ensures Coherent(d)
  {
  }

  /** Fewer views are required to be clean. */
  lemma CleanFrame(c: Cache, d: Cache)
    requires CleanOk(c) && SameBytes(c, d)
    requires forall v :: v in d.h.linked && v !in d.dirty && v !in d.h.unsaved && d.h.writers[v] == 0 ==>
               v !in c.dirty && v !in c.h.unsaved && c.h.writers[v] == 0
    ensures CleanOk(d)
  {
  }

  // ------------------------------------------------------------- client references

  lemma RefsHold(refs: map<VacbId, int>, linked: set<VacbId>, dirty: set<VacbId>, holds: multiset<VacbId>, v: VacbId)
    requires RefsOk(refs, linked, dirty, holds) && v in refs
    ensures RefsOk(refs[v := refs[v] + 1], linked, dirty, holds + multiset{v})
  {
  }

  lemma AllocHold(chunk: map<VacbId, Chunk>, refs: map<VacbId, int>, data: map<VacbId, View>, h: History, v: VacbId)
    requires AllocOk(chunk, refs, data, h) && v in refs
    ensures AllocOk(chunk, refs[v := refs[v] + 1], data, h.(holds := h.holds + multiset{v}))
  {
  }

  lemma WritersHold(writers: multiset<VacbId>, holds: multiset<VacbId>, linked: set<VacbId>,
                    unsaved: set<VacbId>, dirty: set<VacbId>, v: VacbId)
    requires WritersOk(writers, holds, linked, unsaved, dirty)
    ensures WritersOk(writers, holds + multiset{v}, linked, unsaved, dirty)
  {
  }

  lemma HoldPart(c: Cache, v: VacbId, p: Part)
    requires Structure(c) && v in c.refs
    ensures PartOk(p, Hold(c, v))
  {
    assert PartOk(p, c);
    match p
    case Alloc => AllocHold(c.chunk, c.refs, c.data, c.h, v);
    case Refs => RefsHold(c.refs, c.h.linked, c.dirty, c.h.holds, v);
    case Writers => WritersHold(c.h.writers, c.h.holds, c.h.linked, c.h.unsaved, c.dirty, v);
    case _ =>
  }

  lemma HoldKeeps(c: Cache, v: VacbId)
    requires Inv(c) && v in c.refs
    ensures Inv(Hold(c, v))
  {
    forall p: Part
      ensures PartOk(p, Hold(c, v))
    {
      HoldPart(c, v, p);
    }
    BytesFrame(c, Hold(c, v));
    CleanFrame(c, Hold(c, v));
  }

  lemma RefsUnhold(refs: map<VacbId, int>, linked: set<VacbId>, dirty: set<VacbId>, holds: multiset<VacbId>, v: VacbId)
    requires RefsOk(refs, linked, dirty, holds) && v in refs && holds[v] > 0
    ensures RefsOk(if refs[v] == 1 then refs - {v} else refs[v := refs[v] - 1], linked, dirty, holds - multiset{v})
    ensures refs[v] == 1 ==> v !in linked && v !in dirty && holds[v] == 1
  {
  }

  lemma IndexIgnores(lists: map<FileId, seq<VacbId>>, chunk: map<VacbId, Chunk>, chunk': map<VacbId, Chunk>,
                     linked: set<VacbId>)
    requires IndexOk(lists, chunk, linked) && forall v :: v in linked && v in chunk ==> v in chunk' && chunk'[v] == chunk[v]
    ensures IndexOk(lists, chunk', linked)
  {
  }

  lemma AccountIgnores(total: int, dirtyList: seq<VacbId>, dirtyPages: map<FileId, int>, files: set<FileId>,
                       chunk: map<VacbId, Chunk>, chunk': map<VacbId, Chunk>)
    requires AccountOk(total, dirtyList, dirtyPages, files, chunk)
    requires forall v :: v in dirtyList ==> (v in chunk <==> v in chunk') && (v in chunk ==> chunk'[v] == chunk[v])
    ensures AccountOk(total, dirtyList, dirtyPages, files, chunk')
  {
    forall f | f in dirtyPages
      ensures CountIn(dirtyList, chunk', f) == CountIn(dirtyList, chunk, f)
    {
      CountSame(dirtyList, chunk, chunk', f);
    }
  }

  lemma AllocFree(chunk: map<VacbId, Chunk>, refs: map<VacbId, int>, data: map<VacbId, View>, h: History, v: VacbId)
    requires AllocOk(chunk, refs, data, h) && v !in h.linked && h.holds[v] == 1
    ensures AllocOk(chunk - {v}, refs - {v}, data - {v}, h.(holds := h.holds - multiset{v}))
  {
  }

  lemma AllocLess(chunk: map<VacbId, Chunk>, refs: map<VacbId, int>, data: map<VacbId, View>, h: History, v: VacbId)
    requires AllocOk(chunk, refs, data, h) && v in refs
    ensures AllocOk(chunk, refs[v := refs[v] - 1], data, h.(holds := h.holds - multiset{v}))
  {
  }

  lemma WritersUnhold(writers: multiset<VacbId>, holds: multiset<VacbId>, linked: set<VacbId>,
                      unsaved: set<VacbId>, dirty: set<VacbId>, v: VacbId)
    requires WritersOk(writers, holds, linked, unsaved, dirty) && writers[v] < holds[v]
    ensures WritersOk(writers, holds - multiset{v}, linked, unsaved, dirty)
  {
  }

  lemma UnholdPart(c: Cache, v: VacbId, p: Part)
    requires Structure(c) && c.h.writers[v] < c.h.holds[v] && v in c.refs
    ensures PartOk(p, Unhold(c, v))
  {
    assert PartOk(p, c) && PartOk(Refs, c);
    RefsUnhold(c.refs, c.h.linked, c.dirty, c.h.holds, v);
    match p
    case Alloc =>
      if c.refs[v] == 1 {
        AllocFree(c.chunk, c.refs, c.data, c.h, v);
      } else {
        AllocLess(c.chunk, c.refs, c.data, c.h, v);
      }
    case Index =>
      if c.refs[v] == 1 {
        IndexIgnores(c.lists, c.chunk, c.chunk - {v}, c.h.linked);
      }
    case Account =>
      if c.refs[v] == 1 {
        assert PartOk(Dirties, c);
        AccountIgnores(c.totalDirty, c.dirtyList, c.dirtyPages, c.lists.Keys, c.chunk, c.chunk - {v});
      }
    case Writers => WritersUnhold(c.h.writers, c.h.holds, c.h.linked, c.h.unsaved, c.dirty, v);
    case _ =>
  }

  lemma UnholdBytes(c: Cache, v: VacbId)
    requires CleanOk(c) && Coherent(c) && v in c.refs && (c.refs[v] == 1 ==> v !in c.h.linked)
    ensures CleanOk(Unhold(c, v)) && Coherent(Unhold(c, v))
  {
    BytesFrame(c, Unhold(c, v));
    CleanFrame(c, Unhold(c, v));
  }

  /** The last reference of a VACB is never a client's while it is linked. */
  lemma LastReference(c: Cache, v: VacbId)
    requires Structure(c) && c.h.holds[v] > 0
    ensures v in c.refs && (c.refs[v] == 1 ==> v !in c.h.linked && v !in c.dirty)
  {
    assert PartOk(Alloc, c) && PartOk(Refs, c) && v in c.h.holds;
  }

  /** Giving a reference back never frees a linked VACB; an unlinked one goes with its last. */
  lemma UnholdKeeps(c: Cache, v: VacbId)
    requires Inv(c) && c.h.writers[v] < c.h.holds[v]
    ensures v in c.refs && Inv(Unhold(c, v))
    ensures v in c.h.linked ==> v in Unhold(c, v).refs
  {
    LastReference(c, v);
    forall p: Part
      ensures PartOk(p, Unhold(c, v))
    {
      UnholdPart(c, v, p);
    }
    UnholdBytes(c, v);
  }

  // ------------------------------------------------------------- creation

  lemma NewAlloc(c: Cache, file: FileId, offset: nat)
    requires AllocOk(c.chunk, c.refs, c.data, c.h)
    ensures var d := New(c, file, offset); AllocOk(d.chunk, d.refs, d.data, d.h)
    ensures c.h.nextId !in c.chunk && c.h.nextId !in c.h.linked && c.h.nextId !in c.h.holds
  {
  }

  lemma NewRefs(refs: map<VacbId, int>, linked: set<VacbId>, dirty: set<VacbId>, holds: multiset<VacbId>, v: VacbId)
    requires RefsOk(refs, linked, dirty, holds) && v !in linked && v !in dirty && v !in holds
    ensures RefsOk(refs[v := 1], linked, dirty, holds + multiset{v})
  {
  }

  lemma NewPart(c: Cache, file: FileId, offset: nat, p: Part)
    requires Structure(c)
    ensures PartOk(p, New(c, file, offset))
  {
    assert PartOk(p, c) && PartOk(Alloc, c) && PartOk(Dirties, c);
    NewAlloc(c, file, offset);
    var d, v := New(c, file, offset), c.h.nextId;
    match p
    case Index => IndexIgnores(c.lists, c.chunk, d.chunk, c.h.linked);
    case Refs => NewRefs(c.refs, c.h.linked, c.dirty, c.h.holds, v);
    case Account => AccountIgnores(c.totalDirty, c.dirtyList, c.dirtyPages, c.lists.Keys, c.chunk, d.chunk);
    case Writers => WritersHold(c.h.writers, c.h.holds, c.h.linked, c.h.unsaved, c.dirty, v);
    case _ =>
  }

  lemma NewKeeps(c: Cache, file: FileId, offset: nat)
    requires Inv(c)
    ensures Inv(New(c, file, offset))
    ensures c.h.nextId !in c.chunk && c.h.nextId !in c.h.linked
  {
    assert PartOk(Alloc, c);
    NewAlloc(c, file, offset);
    forall p: Part
      ensures PartOk(p, New(c, file, offset))
    {
      NewPart(c, file, offset, p);
    }
    BytesFrame(c, New(c, file, offset));
    CleanFrame(c, New(c, file, offset));
  }

  // ------------------------------------------------------------- linking

  lemma LinkAlloc(c: Cache, v: VacbId)
    requires AllocOk(c.chunk, c.refs, c.data, c.h) && v in c.chunk && c.chunk[v].file in c.lists
    ensures var d := Link(c, v); AllocOk(d.chunk, d.refs, d.data, d.h)
  {
  }

  lemma LinkIndex(lists: map<FileId, seq<VacbId>>, chunk: map<VacbId, Chunk>, linked: set<VacbId>, v: VacbId)
    requires IndexOk(lists, chunk, linked) && v in chunk && chunk[v].file in lists
    requires forall u :: u in linked && u in chunk ==> chunk[u] != chunk[v]
    ensures var file := chunk[v].file;
            IndexOk(lists[file := InsertSorted(lists[file], chunk, v)], chunk, linked + {v})
  {
    var file := chunk[v].file;
    assert ListOk(lists[file], chunk, file, linked);
    forall y | y in lists[file]
      ensures y in chunk && chunk[y].base != chunk[v].base
    {
      assert chunk[y] != chunk[v];
    }
    InsertListOk(lists[file], chunk, file, linked, v);
    forall f | f in lists && f != file
      ensures ListOk(lists[f], chunk, f, linked + {v})
    {
      assert ListOk(lists[f], chunk, f, linked);
    }
  }

  lemma LinkRefs(refs: map<VacbId, int>, linked: set<VacbId>, dirty: set<VacbId>, holds: multiset<VacbId>, v: VacbId)
    requires RefsOk(refs, linked, dirty, holds) && v in refs && v !in linked
    ensures RefsOk(refs[v := refs[v] + 1], linked + {v}, dirty, holds)
  {
  }

  ghost predicate Linkable(c: Cache, v: VacbId) {
    v in c.chunk && v in c.refs && v !in c.h.linked && c.chunk[v].file in c.lists && Uncovered(c, c.chunk[v])
  }

  lemma LinkPart(c: Cache, v: VacbId, p: Part)
    requires Structure(c) && Linkable(c, v)
    ensures PartOk(p, Link(c, v))
  {
    assert PartOk(p, c);
    match p
    case Alloc => LinkAlloc(c, v);
    case Index => LinkIndex(c.lists, c.chunk, c.h.linked, v);
    case Lru => TailLruOk(c.lru, c.h.linked, c.h.touched, c.h.clock, v);
    case Refs => LinkRefs(c.refs, c.h.linked, c.dirty, c.h.holds, v);
    case Account => assert Link(c, v).lists.Keys == c.lists.Keys;
    case _ =>
  }

  lemma LinkBytes(c: Cache, v: VacbId)
    requires CleanOk(c) && Coherent(c) && Linkable(c, v) && c.chunk[v].base % GRANULARITY == 0
    ensures CleanOk(Link(c, v)) && Coherent(Link(c, v))
  {
    var d := Link(c, v);
    forall k: Chunk | k.base % GRANULARITY == 0 && k !in d.h.lost && Uncovered(d, k)
      ensures Agrees(d.h, k, Stored(d.store, k))
    {
      forall u | u in c.h.linked && u in c.chunk
        ensures c.chunk[u] != k
      {
        assert u in d.h.linked;
      }
      assert Agrees(c.h, k, Stored(c.store, k));
    }
    forall u | u in d.h.linked && u in d.chunk && u in d.data && d.chunk[u] !in d.h.lost
      ensures Agrees(d.h, d.chunk[u], d.data[u])
    {
      if u == v {
        assert Agrees(c.h, c.chunk[v], Stored(c.store, c.chunk[v]));
      } else {
        assert Agrees(c.h, c.chunk[u], c.data[u]);
      }
    }
  }

  lemma LinkKeeps(c: Cache, v: VacbId)
    requires Inv(c) && Linkable(c, v)
    ensures Inv(Link(c, v))
  {
    forall p: Part
      ensures PartOk(p, Link(c, v))
    {
      LinkPart(c, v, p);
    }
    assert PartOk(Alloc, c);
    LinkBytes(c, v);
  }

  // ------------------------------------------------------------- touching and marking

  /** What linked VACBs have. */
  lemma LinkedFacts(c: Cache, v: VacbId)
    requires Structure(c) && v in c.h.linked
    ensures v in c.chunk && v in c.refs && v in c.data
    ensures c.chunk[v].file in c.lists && c.chunk[v].file in c.dirtyPages && v in c.lru
    ensures c.chunk[v].base % GRANULARITY == 0
  {
    assert PartOk(Alloc, c) && PartOk(Index, c) && PartOk(Account, c) && PartOk(Lru, c);
  }

  /** Allocation is untouched when only other history changes. */
  lemma AllocSame(c: Cache, d: Cache)
    requires AllocOk(c.chunk, c.refs, c.data, c.h)
    requires d.chunk == c.chunk && d.refs.Keys == c.refs.Keys && d.data.Keys == c.data.Keys
    requires d.h.nextId == c.h.nextId && d.h.linked == c.h.linked && d.h.holds == c.h.holds
    ensures AllocOk(d.chunk, d.refs, d.data, d.h)
  {
  }

  lemma TouchPart(c: Cache, v: VacbId, p: Part)
    requires Structure(c) && v in c.h.linked
    ensures PartOk(p, Touch(c, v))
  {
    assert PartOk(p, c);
    match p
    case Alloc => AllocSame(c, Touch(c, v));
    case Lru => TouchLruOk(c.lru, c.h.linked, c.h.touched, c.h.clock, v);
    case _ =>
  }

  lemma TouchKeeps(c: Cache, v: VacbId)
    requires Inv(c) && v in c.h.linked
    ensures Inv(Touch(c, v))
  {
    forall p: Part
      ensures PartOk(p, Touch(c, v))
    {
      TouchPart(c, v, p);
    }
    BytesFrame(c, Touch(c, v));
    CleanFrame(c, Touch(c, v));
  }

  lemma MarkRefs(refs: map<VacbId, int>, linked: set<VacbId>, dirty: set<VacbId>, holds: multiset<VacbId>, v: VacbId)
    requires RefsOk(refs, linked, dirty, holds) && v in refs && v !in dirty
    ensures RefsOk(refs[v := refs[v] + 1], linked, dirty + {v}, holds)
  {
  }

  lemma MarkDirtyList(dirtyList: seq<VacbId>, dirty: set<VacbId>, linked: set<VacbId>, v: VacbId)
    requires DirtyOk(dirtyList, dirty, linked) && v in linked && v !in dirty
    ensures DirtyOk(dirtyList + [v], dirty + {v}, linked)
  {
  }

  lemma MarkAccount(total: int, dirtyList: seq<VacbId>, dirtyPages: map<FileId, int>, files: set<FileId>,
                    chunk: map<VacbId, Chunk>, v: VacbId)
    requires AccountOk(total, dirtyList, dirtyPages, files, chunk) && v in chunk && chunk[v].file in dirtyPages
    ensures var f := chunk[v].file;
            AccountOk(total + PAGES_PER_VIEW, dirtyList + [v], dirtyPages[f := dirtyPages[f] + PAGES_PER_VIEW], files, chunk)
  {
    forall f | f in dirtyPages
      ensures CountIn(dirtyList + [v], chunk, f) == CountIn(dirtyList, chunk, f) + One(chunk[v].file == f)
    {
      CountAppend(dirtyList, chunk, f, v);
    }
    var f := chunk[v].file;
    assert dirtyPages[f := dirtyPages[f] + PAGES_PER_VIEW].Keys == dirtyPages.Keys;
  }

  lemma WritersMark(writers: multiset<VacbId>, holds: multiset<VacbId>, linked: set<VacbId>,
                    unsaved: set<VacbId>, dirty: set<VacbId>, v: VacbId)
    requires WritersOk(writers, holds, linked, unsaved, dirty)
    ensures WritersOk(writers, holds, linked, unsaved - {v}, dirty + {v})
  {
  }

  ghost predicate Accounted(c: Cache, v: VacbId) {
    v in c.chunk && v in c.refs && c.chunk[v].file in c.dirtyPages
  }

  lemma MarkPart(c: Cache, v: VacbId, p: Part)
    requires Structure(c) && v in c.h.linked && v !in c.dirty && Accounted(c, v)
    ensures PartOk(p, MarkDirty(c, v))
  {
    assert PartOk(p, c);
    match p
    case Alloc => AllocSame(c, MarkDirty(c, v));
    case Index =>
    case Lru => TouchLruOk(c.lru, c.h.linked, c.h.touched, c.h.clock, v);
    case Dirties => MarkDirtyList(c.dirtyList, c.dirty, c.h.linked, v);
    case Refs => MarkRefs(c.refs, c.h.linked, c.dirty, c.h.holds, v);
    case Account => MarkAccount(c.totalDirty, c.dirtyList, c.dirtyPages, c.lists.Keys, c.chunk, v);
    case Writers => WritersMark(c.h.writers, c.h.holds, c.h.linked, c.h.unsaved, c.dirty, v);
  }

  lemma MarkDirtyKeeps(c: Cache, v: VacbId)
    requires Inv(c) && v in c.h.linked && v !in c.dirty
    ensures Accounted(c, v) && Inv(MarkDirty(c, v))
  {
    LinkedFacts(c, v);
    forall p: Part
      ensures PartOk(p, MarkDirty(c, v))
    {
      MarkPart(c, v, p);
    }
    BytesFrame(c, MarkDirty(c, v));
    CleanFrame(c, MarkDirty(c, v));
  }
}
