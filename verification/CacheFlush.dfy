/** Writing into views, flushing them and dropping them: what these steps keep. */
module CacheFlush {
  import opened Collections
  import opened CacheState
  import opened CacheLists
  import opened CacheSteps

  // ------------------------------------------------------------- unmarking

  lemma UnmarkRefs(refs: map<VacbId, int>, linked: set<VacbId>, dirty: set<VacbId>, holds: multiset<VacbId>, v: VacbId)
    requires RefsOk(refs, linked, dirty, holds) && v in refs && v in dirty && v in linked
    ensures RefsOk(refs[v := refs[v] - 1], linked, dirty - {v}, holds)
  {
  }

  lemma UnmarkDirtyList(dirtyList: seq<VacbId>, dirty: set<VacbId>, linked: set<VacbId>, v: VacbId)
    requires DirtyOk(dirtyList, dirty, linked)
    ensures DirtyOk(Without(dirtyList, v), dirty - {v}, linked)
  {
    WithoutDistinct(dirtyList, v);
  }

  lemma UnmarkAccount(total: int, dirtyList: seq<VacbId>, dirtyPages: map<FileId, int>, files: set<FileId>,
                      chunk: map<VacbId, Chunk>, v: VacbId)
    requires AccountOk(total, dirtyList, dirtyPages, files, chunk) && Distinct(dirtyList) && v in dirtyList
    requires v in chunk && chunk[v].file in dirtyPages
    ensures var f := chunk[v].file;
            AccountOk(total - PAGES_PER_VIEW, Without(dirtyList, v), dirtyPages[f := dirtyPages[f] - PAGES_PER_VIEW], files, chunk)
  {
    WithoutLength(dirtyList, v);
    forall f | f in dirtyPages
      ensures CountIn(Without(dirtyList, v), chunk, f) == CountIn(dirtyList, chunk, f) - One(chunk[v].file == f)
    {
      CountWithout(dirtyList, chunk, f, v);
    }
    var f := chunk[v].file;
    assert dirtyPages[f := dirtyPages[f] - PAGES_PER_VIEW].Keys == dirtyPages.Keys;
  }

  lemma WritersUnmark(writers: multiset<VacbId>, holds: multiset<VacbId>, linked: set<VacbId>,
                      unsaved: set<VacbId>, dirty: set<VacbId>, v: VacbId)
    requires WritersOk(writers, holds, linked, unsaved, dirty)
    ensures WritersOk(writers, holds, linked, unsaved, dirty - {v})
  {
  }

  lemma UnmarkPart(c: Cache, v: VacbId, p: Part)
    requires Structure(c) && v in c.dirty && Accounted(c, v)
    ensures PartOk(p, UnmarkDirty(c, v))
  {
    assert PartOk(p, c) && PartOk(Dirties, c);
    match p
    case Alloc => AllocSame(c, UnmarkDirty(c, v));
    case Dirties => UnmarkDirtyList(c.dirtyList, c.dirty, c.h.linked, v);
    case Refs => UnmarkRefs(c.refs, c.h.linked, c.dirty, c.h.holds, v);
    case Account => UnmarkAccount(c.totalDirty, c.dirtyList, c.dirtyPages, c.lists.Keys, c.chunk, v);
    case Writers => WritersUnmark(c.h.writers, c.h.holds, c.h.linked, c.h.unsaved, c.dirty, v);
    case _ =>
  }

  lemma UnmarkStructure(c: Cache, v: VacbId)
    requires Structure(c) && v in c.dirty && Accounted(c, v)
    ensures Structure(UnmarkDirty(c, v))
  {
    forall p: Part
      ensures PartOk(p, UnmarkDirty(c, v))
    {
      UnmarkPart(c, v, p);
    }
  }

  // ------------------------------------------------------------- saving

  /** Writing the chunk of a linked view to the store changes no other chunk's reading. */
  lemma SaveCoherent(c: Cache, v: VacbId, bytes: View)
    requires Coherent(c) && v in c.h.linked && v in c.chunk
    ensures Coherent(Save(c, v, bytes))
  {
  }

  /** Mm may write a view's own bytes any time, and mixed with older ones where the view is dirty,
      abandoned or answered for. */
  lemma SaveClean(c: Cache, v: VacbId, bytes: View)
    requires CleanOk(c) && IndexOk(c.lists, c.chunk, c.h.linked) && v in c.h.linked && v in c.chunk && v in c.data
    requires bytes == c.data[v] || v in c.dirty || v in c.h.unsaved || c.h.writers[v] > 0
    ensures CleanOk(Save(c, v, bytes))
  {
  }

  lemma SaveStructure(c: Cache, v: VacbId, bytes: View)
    requires Structure(c) && v in c.chunk
    ensures Structure(Save(c, v, bytes))
  {
    forall p: Part
      ensures PartOk(p, Save(c, v, bytes))
    {
      assert PartOk(p, c);
    }
  }

  lemma SaveKeeps(c: Cache, v: VacbId, bytes: View)
    requires Inv(c) && v in c.h.linked && v in c.chunk && v in c.data
    requires bytes == c.data[v] || v in c.dirty || v in c.h.unsaved || c.h.writers[v] > 0
    ensures Inv(Save(c, v, bytes))
  {
    assert PartOk(Index, c);
    SaveStructure(c, v, bytes);
    SaveClean(c, v, bytes);
    SaveCoherent(c, v, bytes);
  }

  /** A view that has reached the store may be unmarked. */
  lemma UnmarkKeeps(c: Cache, v: VacbId)
    requires Inv(c) && v in c.dirty && Accounted(c, v) && v in c.data && c.data[v] == Stored(c.store, c.chunk[v])
    ensures Inv(UnmarkDirty(c, v))
  {
    UnmarkStructure(c, v);
    BytesFrame(c, UnmarkDirty(c, v));
  }

  /** One that has not may be unmarked by who answers for it from then on. */
  lemma BeginFlushKeeps(c: Cache, v: VacbId)
    requires Inv(c) && v in c.dirty && c.h.writers[v] < c.h.holds[v]
    ensures Accounted(c, v) && Inv(BeginFlush(c, v))
  {
    assert PartOk(Dirties, c) && v in c.h.linked;
    LinkedFacts(c, v);
    UnmarkStructure(c, v);
    var u, d := UnmarkDirty(c, v), BeginFlush(c, v);
    forall p: Part
      ensures PartOk(p, d)
    {
      assert PartOk(p, u);
      match p
      case Alloc => AllocSame(u, d);
      case Writers => WritersWrite(u.h.writers, u.h.holds, u.h.linked, u.h.unsaved, u.dirty, v);
      case _ =>
    }
    BytesFrame(c, d);
    CleanFrame(c, d);
  }

  // ------------------------------------------------------------- writing

  lemma WriteStructure(c: Cache, v: VacbId, at: nat, bytes: seq<Byte>)
    requires Structure(c) && v in c.h.linked && c.h.writers[v] < c.h.holds[v] && at + |bytes| <= GRANULARITY
    requires v in c.chunk && v in c.data
    ensures Structure(WriteView(c, v, at, bytes))
  {
    var d := WriteView(c, v, at, bytes);
    forall p: Part
      ensures PartOk(p, d)
    {
      assert PartOk(p, c);
      match p
      case Alloc => AllocSame(c, d);
      case Writers => WritersWrite(c.h.writers, c.h.holds, c.h.linked, c.h.unsaved, c.dirty, v);
      case _ =>
    }
  }

  lemma WritersWrite(writers: multiset<VacbId>, holds: multiset<VacbId>, linked: set<VacbId>,
                     unsaved: set<VacbId>, dirty: set<VacbId>, v: VacbId)
    requires WritersOk(writers, holds, linked, unsaved, dirty) && writers[v] < holds[v] && v in linked
    ensures WritersOk(writers + multiset{v}, holds, linked, unsaved, dirty)
  {
  }

  lemma WriteCoherent(c: Cache, v: VacbId, at: nat, bytes: seq<Byte>)
    requires Coherent(c) && AllocOk(c.chunk, c.refs, c.data, c.h) && IndexOk(c.lists, c.chunk, c.h.linked)
    requires v in c.h.linked && v in c.chunk && v in c.data && at + |bytes| <= GRANULARITY
    ensures Coherent(WriteView(c, v, at, bytes))
  {
    hide Agrees;
    var d := WriteView(c, v, at, bytes);
    forall k: Chunk | k.base % GRANULARITY == 0 && k !in d.h.lost && Uncovered(d, k)
      ensures Agrees(d.h, k, Stored(d.store, k))
    {
      assert Uncovered(c, k) && k != c.chunk[v];
      AgreesElsewhere(c.h, c.chunk[v], at, bytes, d.h, k, Stored(c.store, k));
    }
    forall u | u in d.h.linked && u in d.chunk && u in d.data && d.chunk[u] !in d.h.lost
      ensures Agrees(d.h, d.chunk[u], d.data[u])
    {
      if u == v {
        AgreesAfterWrite(c.h, c.chunk[v], at, bytes, d.h, c.data[v]);
      } else {
        if c.chunk[u] == c.chunk[v] {
          UniqueChunk(c, u, v);
        }
        AgreesElsewhere(c.h, c.chunk[v], at, bytes, d.h, c.chunk[u], c.data[u]);
      }
    }
  }

  lemma AgreesElsewhere(h: History, k: Chunk, at: nat, bytes: seq<Byte>, h': History, q: Chunk, view: View)
    requires k.base % GRANULARITY == 0 && q.base % GRANULARITY == 0 && at + |bytes| <= GRANULARITY && q != k
    requires h'.initial == h.initial && h'.writes == h.writes + [Write(k.file, k.base + at, bytes)]
    requires Agrees(h, q, view)
    ensures Agrees(h', q, view)
  {
  }

  lemma AgreesAfterWrite(h: History, k: Chunk, at: nat, bytes: seq<Byte>, h': History, view: View)
    requires k.base % GRANULARITY == 0 && at + |bytes| <= GRANULARITY
    requires h'.initial == h.initial && h'.writes == h.writes + [Write(k.file, k.base + at, bytes)]
    requires Agrees(h, k, view)
    ensures Agrees(h', k, Splice(view, at, bytes))
  {
  }

  lemma WriteClean(c: Cache, v: VacbId, at: nat, bytes: seq<Byte>)
    requires CleanOk(c) && v in c.chunk && v in c.data && at + |bytes| <= GRANULARITY
    ensures CleanOk(WriteView(c, v, at, bytes))
  {
  }

  /** Copying into a held view: the flat file has the write too, and until the view is marked
      dirty its writer stands for it. */
  lemma WriteKeeps(c: Cache, v: VacbId, at: nat, bytes: seq<Byte>)
    requires Inv(c) && v in c.h.linked && c.h.writers[v] < c.h.holds[v] && at + |bytes| <= GRANULARITY
    ensures v in c.chunk && v in c.data && Inv(WriteView(c, v, at, bytes))
  {
    LinkedFacts(c, v);
    assert PartOk(Alloc, c) && PartOk(Index, c);
    WriteStructure(c, v, at, bytes);
    WriteCoherent(c, v, at, bytes);
    WriteClean(c, v, at, bytes);
  }

  /** So is a further write of a client that already answers for the view. */
  lemma WriteMoreKeeps(c: Cache, v: VacbId, at: nat, bytes: seq<Byte>)
    requires Inv(c) && v in c.h.writers && at + |bytes| <= GRANULARITY
    ensures v in c.chunk && v in c.data && Inv(WriteMore(c, v, at, bytes))
  {
    hide Coherent, Stored, Splice;
    assert PartOk(Writers, c) && PartOk(Alloc, c) && PartOk(Index, c);
    LinkedFacts(c, v);
    var d := WriteMore(c, v, at, bytes);
    forall p: Part
      ensures PartOk(p, d)
    {
      assert PartOk(p, c);
      if p.Alloc? {
        AllocSame(c, d);
      }
    }
    WriteCoherent(c, v, at, bytes);
    BytesFrame(WriteView(c, v, at, bytes), d);
  }
}
