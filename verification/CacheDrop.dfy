/** Releasing references after a write, and dropping views: eviction, purge and teardown. */
module CacheDrop {
  import opened CacheState
  import opened CacheLists
  import opened CacheSteps
  import opened CacheFlush

  // ------------------------------------------------------------- the end of a write

  lemma WritersLess(writers: multiset<VacbId>, holds: multiset<VacbId>, linked: set<VacbId>,
                    unsaved: set<VacbId>, dirty: set<VacbId>, v: VacbId)
    requires WritersOk(writers, holds, linked, unsaved, dirty)
    ensures WritersOk(writers - multiset{v}, holds, linked, unsaved, dirty)
  {
  }

  /** Nobody need answer for a view that is dirty, abandoned or on disk. */
  lemma WriterDoneKeeps(c: Cache, v: VacbId)
    requires Inv(c)
    requires v in c.dirty || v in c.h.unsaved || (v in c.data && v in c.chunk && c.data[v] == Stored(c.store, c.chunk[v]))
    ensures Inv(WriterDone(c, v))
  {
    var d := WriterDone(c, v);
    forall p: Part
      ensures PartOk(p, d)
    {
      assert PartOk(p, c);
      match p
      case Alloc => AllocSame(c, d);
      case Writers => WritersLess(c.h.writers, c.h.holds, c.h.linked, c.h.unsaved, c.dirty, v);
      case _ =>
    }
    BytesFrame(c, d);
  }

  /** The second half of CcRosFlushVacb, whatever happened to the view since the first: on
      success the view's bytes of that moment are on disk, on failure the view is dirty again. */
  lemma EndFlushKeeps(c: Cache, v: VacbId, ok: bool, torn: View)
    requires Inv(c) && v in c.h.writers && (!ok ==> v !in c.dirty)
    ensures Accounted(c, v) && v in c.data && Inv(EndFlush(c, v, ok, torn))
  {
    assert PartOk(Writers, c) && v in c.h.linked;
    LinkedFacts(c, v);
    var s := Save(c, v, if ok then c.data[v] else torn);
    SaveKeeps(c, v, if ok then c.data[v] else torn);
    if ok {
      WriterDoneKeeps(s, v);
    } else {
      MarkDirtyKeeps(s, v);
      WriterDoneKeeps(MarkDirty(s, v), v);
    }
  }

  /** Dropping the writer's reference once the view is dirty or abandoned. */
  lemma WriterLeaves(c: Cache, v: VacbId)
    requires Inv(c) && v in c.h.linked && c.h.holds[v] > 0 && (v in c.dirty || v in c.h.unsaved) && v in c.refs
    ensures Inv(Unhold(WriterDone(c, v), v)) && v in Unhold(WriterDone(c, v), v).refs
  {
    WriterDoneKeeps(c, v);
    assert PartOk(Writers, c) && c.h.writers[v] <= c.h.holds[v];
    UnholdKeeps(WriterDone(c, v), v);
  }

  lemma MarkedIfNeeded(c: Cache, v: VacbId) returns (m: Cache)
    requires Inv(c) && v in c.h.linked
    ensures Accounted(c, v)
    ensures m == if v in c.dirty then c else MarkDirty(c, v)
    ensures Inv(m) && v in m.dirty && v in m.refs && m.h.linked == c.h.linked && m.h.holds == c.h.holds
  {
    LinkedFacts(c, v);
    m := c;
    if v !in c.dirty {
      MarkDirtyKeeps(c, v);
      m := MarkDirty(c, v);
    }
  }

  lemma SetDirtyKeeps(c: Cache, v: VacbId)
    requires Inv(c) && v in c.h.linked
    ensures Accounted(c, v)
    ensures Inv(WriterDone(if v in c.dirty then c else MarkDirty(c, v), v))
  {
    hide Inv, MarkDirty, WriterDone;
    var m := MarkedIfNeeded(c, v);
    WriterDoneKeeps(m, v);
  }

  lemma ReleaseDirtyKeeps(c: Cache, v: VacbId)
    requires Inv(c) && v in c.h.linked && c.h.holds[v] > 0
    ensures Accounted(c, v)
    ensures Inv(Release(c, v, true)) && v in Release(c, v, true).refs && v in Release(c, v, true).dirty
  {
    var m := MarkedIfNeeded(c, v);
    WriterLeaves(m, v);
  }

  /** CcRosReleaseVacb: with Dirty the view ends up on the dirty list; the VACB survives. */
  lemma ReleaseKeeps(c: Cache, v: VacbId, dirty: bool)
    requires Inv(c) && v in c.h.linked && c.h.holds[v] > 0
    requires !dirty ==> c.h.writers[v] < c.h.holds[v]
    ensures Accounted(c, v)
    ensures Inv(Release(c, v, dirty)) && v in Release(c, v, dirty).refs
    ensures dirty ==> v in Release(c, v, dirty).dirty
  {
    if dirty {
      ReleaseDirtyKeeps(c, v);
    } else {
      LinkedFacts(c, v);
      UnholdKeeps(c, v);
    }
  }

  lemma AbandonedIfClean(c: Cache, v: VacbId) returns (d: Cache)
    requires Inv(c) && v in c.h.linked
    ensures d == c.(h := c.h.(unsaved := if v in c.dirty then c.h.unsaved else c.h.unsaved + {v}))
    ensures Inv(d) && (v in d.dirty || v in d.h.unsaved)
  {
    d := c.(h := c.h.(unsaved := if v in c.dirty then c.h.unsaved else c.h.unsaved + {v}));
    forall p: Part
      ensures PartOk(p, d)
    {
      assert PartOk(p, c);
      if p.Alloc? {
        AllocSame(c, d);
      }
    }
    BytesFrame(c, d);
    CleanFrame(c, d);
  }

  /** The exception path of a write leaves the view readable, but nothing protects it any more
      unless it was dirty already. */
  lemma AbandonKeeps(c: Cache, v: VacbId)
    requires Inv(c) && v in c.h.linked && v in c.h.writers
    ensures v in c.refs && Inv(Abandon(c, v)) && v in Abandon(c, v).refs
    ensures Abandon(c, v).h.unsaved == (if v in c.dirty then c.h.unsaved else c.h.unsaved + {v})
  {
    LinkedFacts(c, v);
    assert PartOk(Writers, c) && c.h.writers[v] <= c.h.holds[v];
    var d := AbandonedIfClean(c, v);
    WriterLeaves(d, v);
  }

  // ------------------------------------------------------------- marking and unmarking out of turn

  /** Marking keeps the invariant exactly if the view is clean: a dirty one would be on the dirty
      list twice. */
  lemma MarkExactly(c: Cache, v: VacbId)
    requires Inv(c) && v in c.h.linked
    ensures Accounted(c, v) && (Inv(MarkDirty(c, v)) <==> v !in c.dirty)
  {
    LinkedFacts(c, v);
    if v in c.dirty {
      MarkTwice(c, v);
    } else {
      MarkDirtyKeeps(c, v);
    }
  }

  /** Then its count is one more than there are references to it, and its pages count twice. */
  lemma MarkTwice(c: Cache, v: VacbId)
    requires Structure(c) && v in c.dirty && Accounted(c, v)
    ensures !PartOk(Dirties, MarkDirty(c, v))
    ensures MarkDirty(c, v).refs[v] == One(v in c.h.linked) + One(v in c.dirty) + c.h.holds[v] + 1
    ensures MarkDirty(c, v).totalDirty == PAGES_PER_VIEW * |c.dirtyList| + PAGES_PER_VIEW
  {
    assert PartOk(Dirties, c) && PartOk(Refs, c) && PartOk(Account, c);
    var i :| 0 <= i < |c.dirtyList| && c.dirtyList[i] == v;
    var list := MarkDirty(c, v).dirtyList;
    assert list[i] == list[|c.dirtyList|];
  }

  /** Unmarking a clean view takes its pages off the account a second time, and leaves its count one
      below the number of references to it. */
  lemma UnmarkTwice(c: Cache, v: VacbId)
    requires Structure(c) && v !in c.dirty && Accounted(c, v)
    ensures !PartOk(Account, UnmarkDirty(c, v))
    ensures UnmarkDirty(c, v).refs[v] == One(v in c.h.linked) + One(v in c.dirty) + c.h.holds[v] - 1
    ensures UnmarkDirty(c, v).totalDirty == PAGES_PER_VIEW * |c.dirtyList| - PAGES_PER_VIEW
  {
    assert PartOk(Account, c) && PartOk(Dirties, c) && PartOk(Refs, c);
    WithoutLength(c.dirtyList, v);
  }

  /** Unmarking keeps the lists and counts exactly if the view is dirty, and the whole invariant
      exactly if, besides, its bytes are on disk or somebody answers for them. */
  lemma UnmarkExactly(c: Cache, v: VacbId)
    requires Inv(c) && v in c.h.linked
    ensures Accounted(c, v) && v in c.data && (Structure(UnmarkDirty(c, v)) <==> v in c.dirty)
    ensures Inv(UnmarkDirty(c, v)) <==> v in c.dirty && (c.h.writers[v] > 0 || c.data[v] == Stored(c.store, c.chunk[v]))
  {
    hide Coherent, Stored;
    LinkedFacts(c, v);
    var d := UnmarkDirty(c, v);
    if v in c.dirty {
      UnmarkStructure(c, v);
      BytesFrame(c, d);
      assert PartOk(Writers, c);
    } else {
      UnmarkTwice(c, v);
      assert !PartOk(Account, d);
    }
  }

  /** The first half of a flush finds its view dirty or breaks the accounts. */
  lemma BeginFlushExactly(c: Cache, v: VacbId)
    requires Inv(c) && v in c.h.linked && c.h.writers[v] < c.h.holds[v]
    ensures Accounted(c, v) && (Inv(BeginFlush(c, v)) <==> v in c.dirty)
  {
    LinkedFacts(c, v);
    if v in c.dirty {
      BeginFlushKeeps(c, v);
    } else {
      UnmarkTwice(c, v);
      assert !PartOk(Account, BeginFlush(c, v));
    }
  }

  /** The second half succeeds, or finds its view clean, or puts it on the dirty list twice. */
  lemma EndFlushExactly(c: Cache, v: VacbId, ok: bool, torn: View)
    requires Inv(c) && v in c.h.writers
    ensures Accounted(c, v) && v in c.data && (Inv(EndFlush(c, v, ok, torn)) <==> ok || v !in c.dirty)
  {
    assert PartOk(Writers, c) && v in c.h.linked;
    LinkedFacts(c, v);
    if ok || v !in c.dirty {
      EndFlushKeeps(c, v, ok, torn);
    } else {
      SaveStructure(c, v, torn);
      MarkTwice(Save(c, v, torn), v);
      assert !PartOk(Dirties, EndFlush(c, v, ok, torn));
    }
  }

  // ------------------------------------------------------------- detaching a view

  /** `c` with the unlinking of `v` applied to every list, the counts done. */
  lemma DetachIndex(lists: map<FileId, seq<VacbId>>, chunk: map<VacbId, Chunk>, linked: set<VacbId>, v: VacbId)
    requires IndexOk(lists, chunk, linked) && v in linked && v in chunk && chunk[v].file in lists
    ensures var f := chunk[v].file;
            IndexOk(lists[f := Without(lists[f], v)], chunk, linked - {v})
  {
    var file := chunk[v].file;
    var lists' := lists[file := Without(lists[file], v)];
    forall f | f in lists'
      ensures ListOk(lists'[f], chunk, f, linked - {v})
    {
      WithoutListOk(lists[f], chunk, f, linked, v);
      if f != file {
        OtherFile(lists[f], chunk, f, v);
      }
    }
  }

  lemma {:induction false} OtherFile(list: seq<VacbId>, chunk: map<VacbId, Chunk>, file: FileId, v: VacbId)
    requires v in chunk && chunk[v].file != file
    requires forall i :: 0 <= i < |list| ==> list[i] in chunk && chunk[list[i]].file == file
    ensures Without(list, v) == list
  {
    if list == [] {
    } else {
      OtherFile(list[1..], chunk, file, v);
    }
  }

  lemma UnmarkedStructure(c: Cache, v: VacbId) returns (u: Cache)
    requires Structure(c) && Accounted(c, v)
    ensures u == Unmarked(c, v) && Structure(u) && v !in u.dirty
    ensures u.h == c.h && u.chunk == c.chunk && u.lists == c.lists && u.lru == c.lru && u.data == c.data
  {
    u := Unmarked(c, v);
    if v in c.dirty {
      UnmarkStructure(c, v);
    }
  }

  /** The list's reference becomes a holder's. */
  lemma DetachRefs(refs: map<VacbId, int>, linked: set<VacbId>, dirty: set<VacbId>, holds: multiset<VacbId>, v: VacbId)
    requires RefsOk(refs, linked, dirty, holds) && v in linked
    ensures RefsOk(refs, linked - {v}, dirty, holds + multiset{v})
  {
  }

  lemma DetachWriters(writers: multiset<VacbId>, holds: multiset<VacbId>, linked: set<VacbId>,
                      unsaved: set<VacbId>, dirty: set<VacbId>, v: VacbId)
    requires WritersOk(writers, holds, linked, unsaved, dirty) && writers[v] == 0
    ensures WritersOk(writers, holds + multiset{v}, linked - {v}, unsaved - {v}, dirty)
  {
  }

  lemma DetachAlloc(chunk: map<VacbId, Chunk>, refs: map<VacbId, int>, data: map<VacbId, View>, h: History, v: VacbId, h': History)
    requires AllocOk(chunk, refs, data, h) && v in chunk
    requires h'.linked == h.linked - {v} && h'.holds == h.holds + multiset{v} && h'.nextId == h.nextId
    ensures AllocOk(chunk, refs, data, h')
  {
  }

  lemma DetachPart(c: Cache, v: VacbId, p: Part)
    requires Structure(c) && v in c.h.linked && c.h.writers[v] == 0 && Accounted(c, v) && c.chunk[v].file in c.lists
    ensures PartOk(p, Detach(c, v))
  {
    var u := UnmarkedStructure(c, v);
    var d := Detach(c, v);
    assert PartOk(p, u);
    match p
    case Alloc => DetachAlloc(u.chunk, u.refs, u.data, u.h, v, d.h);
    case Index => DetachIndex(u.lists, u.chunk, u.h.linked, v);
    case Lru => WithoutLruOk(u.lru, u.h.linked, u.h.touched, u.h.clock, v);
    case Dirties =>
    case Refs => DetachRefs(u.refs, u.h.linked, u.dirty, u.h.holds, v);
    case Account => assert d.lists.Keys == u.lists.Keys;
    case Writers => DetachWriters(u.h.writers, u.h.holds, u.h.linked, u.h.unsaved, u.dirty, v);
  }

  lemma DetachClean(c: Cache, v: VacbId)
    requires CleanOk(c)
    requires v in c.chunk && v in c.refs && c.chunk[v].file in c.lists && c.chunk[v].file in c.dirtyPages
    ensures CleanOk(Detach(c, v))
  {
  }

  /** The key to eviction: a detached view that nobody had left unsaved equals its chunk on disk,
      so reading from the store goes on where reading through the view left off. */
  lemma DetachCoherent(c: Cache, v: VacbId)
    requires CleanOk(c) && Coherent(c) && v in c.h.linked && c.h.writers[v] == 0
    requires v in c.chunk && v in c.refs && v in c.data && c.chunk[v].file in c.lists && c.chunk[v].file in c.dirtyPages
    ensures Coherent(Detach(c, v))
  {
    var d := Detach(c, v);
    forall k: Chunk | k.base % GRANULARITY == 0 && k !in d.h.lost && Uncovered(d, k)
      ensures Agrees(d.h, k, Stored(d.store, k))
    {
      if k == c.chunk[v] {
        assert v !in c.dirty && v !in c.h.unsaved;
        assert Agrees(c.h, k, c.data[v]);
      } else {
        assert Uncovered(c, k) by {
          forall u | u in c.h.linked && u in c.chunk
            ensures c.chunk[u] != k
          {
            assert u == v || (u in d.h.linked && u in d.chunk);
          }
        }
        assert Agrees(c.h, k, Stored(c.store, k));
      }
    }
    forall u | u in d.h.linked && u in d.chunk && u in d.data && d.chunk[u] !in d.h.lost
      ensures Agrees(d.h, d.chunk[u], d.data[u])
    {
      assert Agrees(c.h, c.chunk[u], c.data[u]);
    }
  }

  /** Detaching a view nobody answers for, held or not. */
  lemma DetachKeeps(c: Cache, v: VacbId)
    requires Inv(c) && v in c.h.linked && c.h.writers[v] == 0
    ensures Accounted(c, v) && c.chunk[v].file in c.lists && Inv(Detach(c, v))
  {
    LinkedFacts(c, v);
    forall p: Part
      ensures PartOk(p, Detach(c, v))
    {
      DetachPart(c, v, p);
    }
    DetachClean(c, v);
    DetachCoherent(c, v);
  }

  /** Giving the list's reference back frees the VACB exactly if nobody holds it. */
  lemma DropKeeps(c: Cache, v: VacbId)
    requires Inv(c) && v in c.h.linked && c.h.writers[v] == 0
    ensures Accounted(c, v) && c.chunk[v].file in c.lists && Inv(Drop(c, v))
    ensures v in Drop(c, v).refs <==> c.h.holds[v] > 0
  {
    hide CleanOk, Coherent;
    DetachKeeps(c, v);
    var d := Detach(c, v);
    UnholdKeeps(d, v);
    assert PartOk(Refs, d);
  }

  /** What dropping an unheld view leaves. */
  lemma DropFacts(c: Cache, v: VacbId) returns (d: Cache)
    requires Structure(c) && v in c.h.linked && c.h.holds[v] == 0 && Accounted(c, v) && c.chunk[v].file in c.lists
    ensures d == Drop(c, v)
    ensures d.chunk == c.chunk - {v} && d.refs == c.refs - {v} && d.data == c.data - {v} && d.dirty == c.dirty - {v}
    ensures d.lists == c.lists[c.chunk[v].file := Without(c.lists[c.chunk[v].file], v)] && d.store == c.store
    ensures d.totalDirty == c.totalDirty - PAGES_PER_VIEW * One(v in c.dirty)
    ensures d.h == c.h.(linked := c.h.linked - {v}, unsaved := c.h.unsaved - {v},
                        lost := if v in c.dirty || v in c.h.unsaved then c.h.lost + {c.chunk[v]} else c.h.lost)
  {
    hide Without;
    d := Drop(c, v);
    var u := UnmarkedStructure(c, v);
    assert PartOk(Refs, u);
    assert c.h.holds + multiset{v} - multiset{v} == c.h.holds;
  }

  lemma CloseViewKeeps(c: Cache, v: VacbId, ok: bool, torn: View)
    requires Inv(c) && v in c.h.linked && c.h.writers[v] == 0
    ensures Accounted(c, v) && v in c.data && c.chunk[v].file in c.lists && Inv(CloseView(c, v, ok, torn))
  {
    LinkedFacts(c, v);
    if v !in c.dirty {
      DetachKeeps(c, v);
    } else {
      var s := Save(c, v, if ok then c.data[v] else torn);
      SaveKeeps(c, v, if ok then c.data[v] else torn);
      if ok {
        UnmarkKeeps(s, v);
      }
      DetachKeeps(if ok then UnmarkDirty(s, v) else s, v);
    }
  }
}
