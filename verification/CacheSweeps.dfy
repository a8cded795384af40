/** Operations that drop many views at once: purging a range, trimming the cache, and tearing down
    a file's cache map. */
module CacheSweeps {
  import opened Collections
  import opened CacheState
  import opened CacheSteps
  import opened CacheDrop
  import opened CacheRuns
  import opened CacheManager
  import opened CacheCopy

  /** `c` is `c0` without the views of `gone`; what only they held is lost. */
  ghost predicate Swept(c0: Cache, c: Cache, gone: set<VacbId>) {
    && Inv(c) && gone <= c0.h.linked && c.h.linked == c0.h.linked - gone
    && c.chunk == c0.chunk - gone && c.refs == c0.refs - gone && c.dirty == c0.dirty - gone && c.data == c0.data - gone
    && c.lists.Keys == c0.lists.Keys && c.store == c0.store && SweptHistory(c0, c, gone)
  }

  ghost predicate SweptHistory(c0: Cache, c: Cache, gone: set<VacbId>) {
    && c.h.holds == c0.h.holds && c.h.writers == c0.h.writers && c.h.writes == c0.h.writes && c.h.initial == c0.h.initial
    && c.h.unsaved == c0.h.unsaved - gone && c.h.lost == c0.h.lost + Unwritten(c0, gone)
  }

  /** The chunks of which the views in `gone` held bytes the store does not have. */
  ghost function Unwritten(c0: Cache, gone: set<VacbId>): (ks: set<Chunk>) {
    set v | v in gone && v in c0.chunk && (v in c0.dirty || v in c0.h.unsaved) :: c0.chunk[v]
  }

  lemma SweptStep(c0: Cache, c: Cache, gone: set<VacbId>, v: VacbId)
    requires Swept(c0, c, gone) && v in c.h.linked && c.h.holds[v] == 0
    ensures Accounted(c, v) && c.chunk[v].file in c.lists && Swept(c0, Drop(c, v), gone + {v})
    ensures Drop(c, v).h.linked == c.h.linked - {v}
  {
    hide Inv, Structure, Drop, Without;
    InvParts(c);
    NotAnswered(c, v);
    DropKeeps(c, v);
    var d := DropFacts(c, v);
    assert d.chunk == c0.chunk - (gone + {v}) && d.refs == c0.refs - (gone + {v});
    assert d.data == c0.data - (gone + {v}) && d.dirty == c0.dirty - (gone + {v});
    assert d.h.lost == c0.h.lost + Unwritten(c0, gone + {v});
  }

  lemma InvParts(c: Cache)
    requires Inv(c)
    ensures Structure(c)
  {
  }

  lemma SweptStart(c: Cache)
    requires Inv(c)
    ensures Swept(c, c, {})
  {
  }

  // ------------------------------------------------------------- purging a range

  /** Where the view of a chunk ends, as far as the section reaches. */
  function ViewEnd(k: Chunk, size: nat): (end: nat) {
    Min(k.base + GRANULARITY, size)
  }

  /** The view lies in [start, end). */
  predicate Inside(k: Chunk, start: nat, end: nat, size: nat) {
    start <= k.base && ViewEnd(k, size) <= end
  }

  /** What CcPurgeCacheSection takes for that: its test stops at a view that ends with the range. */
  predicate Taken(k: Chunk, start: nat, end: nat, size: nat) {
    start <= k.base && ViewEnd(k, size) < end
  }

  /** A view of the file lies inside the range and ends with it. */
  ghost predicate OnBorder(c: Cache, file: FileId, start: nat, end: nat, size: nat) {
    exists v :: v in c.h.linked && v in c.chunk && c.chunk[v].file == file && start <= c.chunk[v].base && ViewEnd(c.chunk[v], size) == end
  }

  /** A view that is to be purged is in use. */
  ghost predicate AnyHeld(c: Cache, file: FileId, start: nat, end: nat, size: nat) {
    exists v :: v in c.h.linked && v in c.chunk && c.chunk[v].file == file && Taken(c.chunk[v], start, end, size) && c.h.holds[v] > 0
  }

  ghost predicate NoneLeft(c: Cache, file: FileId, start: nat, end: nat, size: nat) {
    forall v :: v in c.h.linked && v in c.chunk && c.chunk[v].file == file ==> !Inside(c.chunk[v], start, end, size)
  }

  /** All views that are to be purged are gone, but for `first` in use and those behind it. */
  ghost predicate GoneUpTo(c: Cache, gone: set<VacbId>, first: Option<VacbId>, file: FileId, start: nat, end: nat, size: nat) {
    && (first.Some? ==> first.value in c.chunk)
    && forall v :: v in c.h.linked && v in c.chunk && c.chunk[v].file == file && Taken(c.chunk[v], start, end, size) ==>
         (v in gone <==> first.None? || c.chunk[v].base < c.chunk[first.value].base)
  }

  ghost predicate PurgedTo(c0: Cache, c: Cache, gone: set<VacbId>, file: FileId, i: nat, start: nat, end: nat, size: nat)
    requires file in c0.lists
  {
    var list := c0.lists[file];
    && Swept(c0, c, gone) && i <= |list|
    && (forall v :: v in gone ==> v in c0.chunk && c0.chunk[v].file == file && Taken(c0.chunk[v], start, end, size))
    && (forall v :: v in gone ==> c0.h.holds[v] == 0 && v in list[..i])
    && (forall j :: 0 <= j < i ==> list[j] in c0.chunk && (list[j] in gone || c0.chunk[list[j]].base < start))
    && (forall j :: i <= j < |list| ==> list[j] in c.h.linked)
  }

  lemma PurgeStarts(c0: Cache, file: FileId, start: nat, end: nat, size: nat)
    requires Inv(c0) && file in c0.lists
    ensures PurgedTo(c0, c0, {}, file, 0, start, end, size)
  {
    assert PartOk(Index, c0);
    assert ListOk(c0.lists[file], c0.chunk, file, c0.h.linked);
  }

  /** What is known of the next view of the list. */
  lemma PurgeNext(c0: Cache, c: Cache, gone: set<VacbId>, file: FileId, i: nat, start: nat, end: nat, size: nat)
    requires file in c0.lists && i < |c0.lists[file]| && Inv(c0) && PurgedTo(c0, c, gone, file, i, start, end, size)
    ensures var v := c0.lists[file][i];
            && v in c.h.linked && Accounted(c, v) && c.chunk[v].file == file && file in c.lists && v in c0.chunk
            && c.chunk[v] == c0.chunk[v] && v !in gone
            && (c.refs[v] > 1 + One(v in c.dirty) <==> c.h.holds[v] > 0)
  {
    hide CleanOk, Coherent, Unwritten;
    var v := c0.lists[file][i];
    assert PartOk(Index, c0) && PartOk(Refs, c);
    assert ListOk(c0.lists[file], c0.chunk, file, c0.h.linked);
    LinkedFacts(c, v);
  }

  lemma ListDistinct(c: Cache, file: FileId, i: nat, j: nat)
    requires Inv(c) && file in c.lists && i < j < |c.lists[file]|
    ensures c.lists[file][i] != c.lists[file][j] && c.lists[file][i] in c.chunk && c.lists[file][j] in c.chunk
    ensures c.chunk[c.lists[file][i]].base < c.chunk[c.lists[file][j]].base
    ensures c.chunk[c.lists[file][i]].file == c.chunk[c.lists[file][j]].file == file
  {
    assert PartOk(Index, c);
    assert ListOk(c.lists[file], c.chunk, file, c.h.linked);
  }

  lemma PurgeSkips(c0: Cache, c: Cache, gone: set<VacbId>, file: FileId, i: nat, start: nat, end: nat, size: nat)
    requires file in c0.lists && i < |c0.lists[file]| && Inv(c0) && PurgedTo(c0, c, gone, file, i, start, end, size)
    requires c0.lists[file][i] in c0.chunk && c0.chunk[c0.lists[file][i]].base < start
    ensures PurgedTo(c0, c, gone, file, i + 1, start, end, size)
  {
  }

  lemma PurgeDrops(c0: Cache, c: Cache, gone: set<VacbId>, file: FileId, i: nat, start: nat, end: nat, size: nat)
    requires file in c0.lists && i < |c0.lists[file]| && Inv(c0) && PurgedTo(c0, c, gone, file, i, start, end, size)
    requires var v := c0.lists[file][i];
             v in c0.chunk && Taken(c0.chunk[v], start, end, size) && c.h.holds[v] == 0
    ensures var v := c0.lists[file][i];
            Accounted(c, v) && c.chunk[v].file in c.lists && PurgedTo(c0, Drop(c, v), gone + {v}, file, i + 1, start, end, size)
  {
    hide Inv, Unwritten, Drop;
    var list, v := c0.lists[file], c0.lists[file][i];
    PurgeNext(c0, c, gone, file, i, start, end, size);
    SweptStep(c0, c, gone, v);
    forall j | i + 1 <= j < |list|
      ensures list[j] in Drop(c, v).h.linked
    {
      ListDistinct(c0, file, i, j);
    }
  }

  /** From the first view on that ends with the range or past it, none is taken. */
  lemma NoneTaken(c0: Cache, file: FileId, i: nat, start: nat, end: nat, size: nat)
    requires Inv(c0) && file in c0.lists && i <= |c0.lists[file]|
    requires i < |c0.lists[file]| ==> var v := c0.lists[file][i]; v in c0.chunk && ViewEnd(c0.chunk[v], size) >= end
    ensures forall j :: i <= j < |c0.lists[file]| ==>
              c0.lists[file][j] in c0.chunk && !Taken(c0.chunk[c0.lists[file][j]], start, end, size)
  {
    hide Inv;
    forall j | i <= j < |c0.lists[file]|
      ensures c0.lists[file][j] in c0.chunk && !Taken(c0.chunk[c0.lists[file][j]], start, end, size)
    {
      if i < j {
        ListDistinct(c0, file, i, j);
      }
    }
  }

  lemma PurgeEnds(c0: Cache, c: Cache, gone: set<VacbId>, file: FileId, i: nat, start: nat, end: nat, size: nat)
    requires Inv(c0) && file in c0.lists && PurgedTo(c0, c, gone, file, i, start, end, size)
    requires forall j :: i <= j < |c0.lists[file]| ==>
               c0.lists[file][j] in c0.chunk && !Taken(c0.chunk[c0.lists[file][j]], start, end, size)
    ensures forall v :: v in c.h.linked && v in c.chunk && c.chunk[v].file == file ==> !Taken(c.chunk[v], start, end, size)
  {
    hide CleanOk, Coherent, Unwritten;
    assert PartOk(Index, c0);
    forall v | v in c.h.linked && v in c.chunk && c.chunk[v].file == file
      ensures !Taken(c.chunk[v], start, end, size)
    {
      assert v in c0.lists[file];
    }
  }

  /** CcPurgeCacheSection, without the uninitialization of private maps: views lying inside the
      range and not ending with it are dropped in order of offset until one is in use. It succeeds
      exactly if none was in use and MmPurgeSegment, which is asked then, answers `mm`. With none in
      use no view is left inside exactly if none ended with the range. */
  method Purge(m: Manager, file: FileId, start: nat, length: Option<nat>, size: nat, mm: bool)
    returns (success: bool, inUse: Option<VacbId>, ghost gone: set<VacbId>)
    requires Inv(m.Snapshot())
    requires length.Some? ==> length.value > 0 && start + length.value <= MAXLONGLONG
    modifies m
    ensures Swept(old(m.Snapshot()), m.Snapshot(), gone)
    ensures var end := if length.Some? then start + length.value else MAXLONGLONG; var c0, c := old(m.Snapshot()), m.Snapshot();
            && (forall v :: v in gone ==> v in c0.chunk && c0.chunk[v].file == file
                                          && Taken(c0.chunk[v], start, end, size) && c0.h.holds[v] == 0)
            && GoneUpTo(c0, gone, inUse, file, start, end, size)
            && (success <==> mm && !AnyHeld(c0, file, start, end, size))
            && (inUse.Some? <==> AnyHeld(c0, file, start, end, size))
            && (inUse.None? ==> (NoneLeft(c, file, start, end, size) <==> !OnBorder(c0, file, start, end, size)))
            && (inUse.Some? ==> var v := inUse.value; v in c.h.linked && v in c.chunk && c.chunk[v].file == file
                                                      && Taken(c.chunk[v], start, end, size) && c.h.holds[v] > 0)
  {
    hide Inv, Swept, PurgedTo, Taken, Inside, Drop, OnBorder, AnyHeld, NoneLeft, ViewEnd, GoneUpTo;
    ghost var c0 := m.Snapshot();
    gone, inUse, success := {}, None, mm;
    SweptStart(c0);
    if file !in m.lists {
      NoneCached(c0, file);
      BorderDecides(c0, c0, {}, file, start, if length.Some? then start + length.value else MAXLONGLONG, size);
      return;
    }
    var end := if length.Some? then start + length.value else MAXLONGLONG;
    var list := m.lists[file];
    var i := 0;
    PurgeStarts(c0, file, start, end, size);
    while i < |list|
      invariant PurgedTo(c0, m.Snapshot(), gone, file, i, start, end, size) && i <= |list| && inUse == None && success == mm
    {
      PurgeNext(c0, m.Snapshot(), gone, file, i, start, end, size);
      var v := list[i];
      var base := m.chunk[v].base;
      if base < start {
        PurgeSkips(c0, m.Snapshot(), gone, file, i, start, end, size);
        i := i + 1;
        continue;
      }
      if ViewEnd(m.chunk[v], size) >= end {
        break;
      }
      IsTaken(m.chunk[v], start, end, size);
      if (m.refs[v] > 1 && v !in m.dirty) || (m.refs[v] > 2 && v in m.dirty) {
        PurgedIsSwept(c0, m.Snapshot(), gone, file, i, start, end, size);
        HeldStops(c0, m.Snapshot(), gone, v, file, start, end, size);
        GoneBefore(c0, m.Snapshot(), gone, file, i, start, end, size);
        return false, Some(v), gone;
      }
      PurgeDrops(c0, m.Snapshot(), gone, file, i, start, end, size);
      m.DropView(v);
      gone, i := gone + {v}, i + 1;
    }
    NoneTaken(c0, file, i, start, end, size);
    PurgeEnds(c0, m.Snapshot(), gone, file, i, start, end, size);
    PurgedIsSwept(c0, m.Snapshot(), gone, file, i, start, end, size);
    BorderDecides(c0, m.Snapshot(), gone, file, start, end, size);
  }

  /** Of the views inside, those that are not taken are those that end with the range. */
  lemma BorderDecides(c0: Cache, c: Cache, gone: set<VacbId>, file: FileId, start: nat, end: nat, size: nat)
    requires Swept(c0, c, gone)
    requires forall v :: v in gone ==> v in c0.chunk && Taken(c0.chunk[v], start, end, size) && c0.h.holds[v] == 0
    requires forall v :: v in c.h.linked && v in c.chunk && c.chunk[v].file == file ==> !Taken(c.chunk[v], start, end, size)
    ensures NoneLeft(c, file, start, end, size) <==> !OnBorder(c0, file, start, end, size)
    ensures !AnyHeld(c0, file, start, end, size) && GoneUpTo(c0, gone, None, file, start, end, size)
  {
    hide Inv, Unwritten, SweptHistory;
    if v :| v in c0.h.linked && v in c0.chunk && c0.chunk[v].file == file && start <= c0.chunk[v].base && ViewEnd(c0.chunk[v], size) == end {
      assert v in c.h.linked && v in c.chunk && Inside(c.chunk[v], start, end, size);
    }
    forall v | v in c0.h.linked && v in c0.chunk && c0.chunk[v].file == file && Taken(c0.chunk[v], start, end, size)
      ensures c0.h.holds[v] == 0 && v in gone
    {
      assert v in gone || (v in c.h.linked && v in c.chunk);
    }
  }

  lemma GoneBefore(c0: Cache, c: Cache, gone: set<VacbId>, file: FileId, i: nat, start: nat, end: nat, size: nat)
    requires Inv(c0) && file in c0.lists && i < |c0.lists[file]| && PurgedTo(c0, c, gone, file, i, start, end, size)
    ensures GoneUpTo(c0, gone, Some(c0.lists[file][i]), file, start, end, size)
  {
    hide CleanOk, Coherent, Swept;
    var list := c0.lists[file];
    assert PartOk(Index, c0);
    assert ListOk(list, c0.chunk, file, c0.h.linked);
    forall v | v in c0.h.linked && v in c0.chunk && c0.chunk[v].file == file && Taken(c0.chunk[v], start, end, size)
      ensures v in gone <==> c0.chunk[v].base < c0.chunk[list[i]].base
    {
      assert v in list;
      var j :| 0 <= j < |list| && list[j] == v;
    }
  }

  lemma HeldStops(c0: Cache, c: Cache, gone: set<VacbId>, v: VacbId, file: FileId, start: nat, end: nat, size: nat)
    requires Swept(c0, c, gone)
    requires v in c.h.linked && v in c.chunk && c.chunk[v].file == file && Taken(c.chunk[v], start, end, size) && c.h.holds[v] > 0
    ensures AnyHeld(c0, file, start, end, size)
  {
    hide Inv, Unwritten;
    assert v in c0.h.linked;
  }

  /** Purging exactly the first 256 KB of a file whose section reaches as far drops nothing, whether
      or not the view is in use, and reports success unless Mm fails. */
  method PurgeFirstView(m: Manager, file: FileId, v: VacbId, size: nat, mm: bool) returns (success: bool)
    requires Inv(m.Snapshot()) && v in m.Snapshot().h.linked && v in m.chunk && m.chunk[v] == Chunk(file, 0) && size >= GRANULARITY
    modifies m
    ensures success == mm && v in m.Snapshot().h.linked && v in m.chunk && Inside(m.chunk[v], 0, GRANULARITY, size)
    ensures Swept(old(m.Snapshot()), m.Snapshot(), {})
  {
    hide Inv, SweptHistory;
    var inUse;
    ghost var gone;
    success, inUse, gone := Purge(m, file, 0, Some(GRANULARITY), size, mm);
    assert gone == {};
  }

  lemma IsTaken(k: Chunk, start: nat, end: nat, size: nat)
    requires start <= k.base && ViewEnd(k, size) < end
    ensures Taken(k, start, end, size)
  {
  }

  lemma NoneCached(c: Cache, file: FileId)
    requires Inv(c) && file !in c.lists
    ensures forall v :: v in c.h.linked && v in c.chunk ==> c.chunk[v].file != file
  {
    assert PartOk(Index, c);
  }

  lemma PurgedIsSwept(c0: Cache, c: Cache, gone: set<VacbId>, file: FileId, i: nat, start: nat, end: nat, size: nat)
    requires file in c0.lists && PurgedTo(c0, c, gone, file, i, start, end, size)
    ensures Swept(c0, c, gone)
    ensures forall v :: v in gone ==> v in c0.chunk && c0.chunk[v].file == file && Taken(c0.chunk[v], start, end, size)
                                      && c0.h.holds[v] == 0
  {
  }

  // ------------------------------------------------------------- one pass over the LRU list

  ghost predicate TrimmedTo(c0: Cache, c: Cache, gone: set<VacbId>, i: nat) {
    && Swept(c0, c, gone) && i <= |c0.lru| && gone <= UnusedOf(c0)
    && (forall j :: 0 <= j < i && c0.lru[j] in UnusedOf(c0) ==> c0.lru[j] in gone)
    && (forall j :: i <= j < |c0.lru| ==> c0.lru[j] in c.h.linked)
  }

  lemma TrimStarts(c0: Cache)
    requires Inv(c0)
    ensures TrimmedTo(c0, c0, {}, 0)
  {
    assert PartOk(Lru, c0);
  }

  lemma TrimNext(c0: Cache, c: Cache, gone: set<VacbId>, i: nat)
    requires Inv(c0) && TrimmedTo(c0, c, gone, i) && i < |c0.lru|
    ensures var v := c0.lru[i];
            && v in c.h.linked && Accounted(c, v) && c.chunk[v].file in c.lists && v !in gone
            && (c.refs[v] < 2 <==> v in UnusedOf(c0)) && (c.refs[v] >= 2 ==> TrimmedTo(c0, c, gone, i + 1))
  {
    hide CleanOk, Coherent, Unwritten;
    LinkedFacts(c, c0.lru[i]);
  }

  lemma TrimDrops(c0: Cache, c: Cache, gone: set<VacbId>, i: nat)
    requires Inv(c0) && TrimmedTo(c0, c, gone, i) && i < |c0.lru| && c0.lru[i] in UnusedOf(c0)
    ensures var v := c0.lru[i];
            Accounted(c, v) && c.chunk[v].file in c.lists && TrimmedTo(c0, Drop(c, v), gone + {v}, i + 1)
  {
    hide CleanOk, Coherent, Unwritten, Drop;
    var v := c0.lru[i];
    TrimNext(c0, c, gone, i);
    UnusedByCount(c, v);
    SweptStep(c0, c, gone, v);
    assert PartOk(Lru, c0);
  }

  lemma TrimEnds(c0: Cache, c: Cache, gone: set<VacbId>)
    requires Inv(c0) && TrimmedTo(c0, c, gone, |c0.lru|)
    ensures Swept(c0, c, gone) && gone == UnusedOf(c0)
  {
    hide CleanOk, Coherent, Unwritten;
    assert PartOk(Lru, c0);
    forall v | v in UnusedOf(c0)
      ensures v in gone
    {
      var j :| 0 <= j < |c0.lru| && c0.lru[j] == v;
    }
  }

  /** A pass of CcRosTrimCache frees every view only its list refers to, however small the target,
      but reports no more pages than were asked for. */
  method TrimPass(m: Manager, target: nat) returns (freed: nat, ghost gone: set<VacbId>)
    requires Inv(m.Snapshot())
    modifies m
    ensures Swept(old(m.Snapshot()), m.Snapshot(), gone) && gone == UnusedOf(old(m.Snapshot()))
    ensures freed == Min(PAGES_PER_VIEW * |gone|, target)
  {
    hide Inv, Swept, TrimmedTo, UnusedOf, Drop;
    ghost var c0 := m.Snapshot();
    var list := m.lru;
    var i, left := 0, target;
    gone, freed := {}, 0;
    TrimStarts(c0);
    while i < |list|
      invariant TrimmedTo(c0, m.Snapshot(), gone, i) && i <= |list|
      invariant freed == Min(PAGES_PER_VIEW * |gone|, target) && left == target - freed
    {
      TrimNext(c0, m.Snapshot(), gone, i);
      var v := list[i];
      if m.refs[v] < 2 {
        TrimDrops(c0, m.Snapshot(), gone, i);
        m.DropView(v);
        gone := gone + {v};
        var pages := Min(PAGES_PER_VIEW, left);
        left, freed := left - pages, freed + pages;
      }
      i := i + 1;
    }
    TrimEnds(c0, m.Snapshot(), gone);
  }
}
