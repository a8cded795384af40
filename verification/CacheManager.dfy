/** The cache manager as it works in place: its lists are walked and updated step by step. Every
    method that is one locked section of the source is proved equal to the step of the same name. */
module CacheManager {
  import opened Collections
  import opened CacheState
  import opened CacheLists
  import opened CacheSteps
  import opened CacheFlush
  import opened CacheDrop
  import opened CacheEvents
  import opened CacheRuns

  /** The chunks of the views whose writer gave up. */
  ghost function Abandoned(c: Cache): (ks: set<Chunk>) {
    set v | v in c.h.unsaved && v in c.chunk :: c.chunk[v]
  }

  /** Bytes are lost only of such chunks. */
  ghost predicate LosesAbandoned(c: Cache, d: Cache) {
    c.h.lost <= d.h.lost <= c.h.lost + Abandoned(c)
  }

  /** What an operation that only finds, creates and evicts views leaves alone. */
  ghost predicate SameFile(c: Cache, d: Cache) {
    && d.h.writes == c.h.writes && d.h.initial == c.h.initial && d.h.writers == c.h.writers
    && LosesAbandoned(c, d) && d.h.unsaved <= c.h.unsaved && Abandoned(d) <= Abandoned(c)
    && d.lists.Keys == c.lists.Keys && d.dirty == c.dirty && d.totalDirty == c.totalDirty
  }

  /** Views in use stay where they are. */
  ghost predicate KeepsHeld(c: Cache, d: Cache) {
    forall u :: u in c.h.linked && c.h.holds[u] > 0 ==>
                  u in d.h.linked && u in c.chunk && u in d.chunk && d.chunk[u] == c.chunk[u] && d.h.holds[u] > 0
  }

  /** Of this chunk no bytes were dropped, and nobody answers for some that are not on disk. */
  ghost predicate Quiet(c: Cache, k: Chunk) {
    && k !in c.h.lost
    && forall v :: v in c.h.linked && v in c.chunk && c.chunk[v] == k ==> c.h.writers[v] == 0 && v !in c.h.unsaved
  }

  ghost predicate KeepsQuiet(c: Cache, d: Cache) {
    forall k: Chunk :: Quiet(c, k) ==> Quiet(d, k)
  }

  /** The views only their file's list refers to. */
  ghost function UnusedOf(c: Cache): (vs: set<VacbId>) {
    set v | v in c.h.linked && v in c.refs && c.refs[v] < 2
  }

  /** A view of the offset can be had although Mm refuses so many times to map one: there is one, or
      there are as many unused ones to give up. */
  ghost predicate Obtainable(c: Cache, file: FileId, offset: nat, failures: nat) {
    !Uncovered(c, Chunk(file, RoundDown(offset))) || failures <= |UnusedOf(c)|
  }

  class Manager {
    var chunk: map<VacbId, Chunk>
    var refs: map<VacbId, int>
    var dirty: set<VacbId>
    var data: map<VacbId, View>
    var lists: map<FileId, seq<VacbId>>
    var lru: seq<VacbId>
    var dirtyList: seq<VacbId>
    var totalDirty: int
    var dirtyPages: map<FileId, int>
    var store: map<Chunk, View>
    var next: VacbId
    ghost var h: History

    ghost function Snapshot(): (c: Cache)
      reads this
    {
      Cache(chunk, refs, dirty, data, lists, lru, dirtyList, totalDirty, dirtyPages, store, h.(nextId := next))
    }

    constructor (disk: map<Chunk, View>, files: set<FileId>)
      ensures Snapshot() == Initial(disk, files) && Inv(Snapshot())
    {
      chunk, refs, dirty, data := map[], map[], {}, map[];
      lists := map f | f in files :: [];
      lru, dirtyList, totalDirty := [], [], 0;
      dirtyPages := map f | f in files :: 0;
      store, next := disk, 0;
      h := History(0, multiset{}, multiset{}, multiset{}, {}, {}, {}, map[], 0, disk, []);
      InitialInv(disk, files);
    }

    // ------------------------------------------------------------- references

    method IncRef(v: VacbId)
      requires v in refs
      modifies this
      ensures Snapshot() == Hold(old(Snapshot()), v)
    {
      refs := refs[v := refs[v] + 1];
      h := h.(holds := h.holds + multiset{v});
    }

    method DecRef(v: VacbId)
      requires v in refs
      modifies this
      ensures Snapshot() == Unhold(old(Snapshot()), v)
    {
      ghost var c := Snapshot();
      if refs[v] == 1 {
        chunk, refs, data := chunk - {v}, refs - {v}, data - {v};
      } else {
        refs := refs[v := refs[v] - 1];
      }
      h := Unhold(c, v).h;
    }

    // ------------------------------------------------------------- finding and creating views

    /** The walk of CcRosLookupVacb, which stops at the first view past the offset. */
    method Walk(file: FileId, offset: nat) returns (r: Option<VacbId>, before: nat)
      requires Inv(Snapshot()) && file in lists
      ensures r == Covering(lists[file], chunk, offset)
      ensures before <= |lists[file]|
      ensures forall j :: 0 <= j < |lists[file]| ==> lists[file][j] in chunk
      ensures r.None? ==> forall j :: 0 <= j < before ==> chunk[lists[file][j]].base < offset
      ensures r.None? ==> forall j :: before <= j < |lists[file]| ==> chunk[lists[file][j]].base > offset
    {
      hide Inv, Covering, ListOk;
      var list := lists[file];
      ListSorted(Snapshot(), file);
      before := 0;
      while before < |list|
        invariant before <= |list| && Covering(list, chunk, offset) == Covering(list[before..], chunk, offset)
        invariant forall j :: 0 <= j < before ==> chunk[list[j]].base < offset
      {
        var v := list[before];
        CoveringStep(list, chunk, offset, before);
        if chunk[v].base <= offset < chunk[v].base + GRANULARITY {
          return Some(v), before;
        }
        if chunk[v].base > offset {
          break;
        }
        before := before + 1;
      }
      NothingFurther(list[before..], chunk, offset);
      r := None;
    }

    /** CcRosLookupVacb. */
    method Lookup(file: FileId, offset: nat) returns (r: Option<VacbId>)
      requires Inv(Snapshot()) && file in lists
      modifies this
      ensures r == Covering(old(lists[file]), old(chunk), offset)
      ensures old(Snapshot().chunk.Keys) == old(Snapshot().refs.Keys)
      ensures Snapshot() == AfterLookup(old(Snapshot()), file, offset) && Inv(Snapshot())
    {
      hide Inv, Covering;
      ghost var c := Snapshot();
      InvIsReady(c);
      LookupKeeps(c, file, offset);
      var before;
      r, before := Walk(file, offset);
      if r.Some? {
        IncRef(r.value);
      }
    }

    /** The allocation in CcRosCreateVacb. */
    method Allocate(file: FileId, offset: nat) returns (v: VacbId)
      modifies this
      ensures v == old(next) && Snapshot() == New(old(Snapshot()), file, offset)
    {
      v := next;
      chunk, refs, data := chunk[v := Chunk(file, RoundDown(offset))], refs[v := 1], data[v := ZeroView()];
      next := v + 1;
      h := h.(holds := h.holds + multiset{v});
    }

    /** Links a view behind the last one before the offset, and at the LRU tail. */
    method LinkAt(v: VacbId, k: nat)
      requires v in chunk && v in refs && chunk[v].file in lists && k <= |lists[chunk[v].file]|
      requires InsertSorted(lists[chunk[v].file], chunk, v) == lists[chunk[v].file][..k] + [v] + lists[chunk[v].file][k..]
      modifies this
      ensures Snapshot() == Link(old(Snapshot()), v)
    {
      hide InsertSorted, ZeroView;
      ghost var c := Snapshot();
      var file := chunk[v].file;
      var list := lists[file];
      lists := lists[file := list[..k] + [v] + list[k..]];
      lru := lru + [v];
      refs := refs[v := refs[v] + 1];
      data := data[v := if chunk[v] in store then store[chunk[v]] else ZeroView()];
      h := Link(c, v).h;
    }

    /** The own view is given up for another. */
    method Trade(v: VacbId, u: VacbId)
      requires v in refs && u in refs
      modifies this
      ensures v in Hold(old(Snapshot()), u).refs && Snapshot() == Unhold(Hold(old(Snapshot()), u), v)
    {
      hide Unhold;
      IncRef(u);
      DecRef(v);
    }

    /** The locked section of CcRosCreateVacb. */
    method Insert(v: VacbId, offset: nat) returns (r: VacbId)
      requires Inv(Snapshot()) && ClientMay(Snapshot(), ClientEvent.Insert(v, offset))
      modifies this
      ensures old(v in chunk && chunk[v].file in lists && chunk.Keys == refs.Keys)
      ensures Snapshot() == AfterInsert(old(Snapshot()), v, offset) && Inv(Snapshot())
      ensures var found := Covering(old(lists[chunk[v].file]), old(chunk), offset);
              r == if found.Some? then found.value else v
    {
      hide Inv, Covering, InsertSorted, Unhold, Link;
      ghost var c := Snapshot();
      InvIsReady(c);
      InsertKeeps(c, v, offset);
      var file := chunk[v].file;
      var found, before := Walk(file, offset);
      if found.Some? {
        Trade(v, found.value);
        r := found.value;
      } else {
        InsertPlace(c, v, offset, before);
        LinkAt(v, before);
        r := v;
      }
    }

    // ------------------------------------------------------------- evicting views

    /** Takes a view off its lists, for whoever is going to free it. */
    method TakeOff(v: VacbId)
      requires Accounted(Snapshot(), v) && chunk[v].file in lists
      modifies this
      ensures Snapshot() == Detach(old(Snapshot()), v)
    {
      hide Without, UnmarkDirty;
      ghost var c := Snapshot();
      UnmarkLeaves(c, v);
      if v in dirty {
        Unmark(v);
      }
      var file := chunk[v].file;
      lists := lists[file := Without(lists[file], v)];
      lru := Without(lru, v);
      h := Detach(c, v).h;
    }

    /** Takes a view off its lists and gives back the reference that came with them. */
    method DropView(v: VacbId)
      requires Accounted(Snapshot(), v) && chunk[v].file in lists
      modifies this
      ensures Snapshot() == Drop(old(Snapshot()), v)
    {
      hide Detach, Unhold;
      DetachLeaves(Snapshot(), v);
      TakeOff(v);
      DecRef(v);
    }

    /** CcRosFreeOneUnusedVacb: frees the first view of the LRU list that nobody uses, which is
        the one touched least recently of all those. */
    method FreeOneUnused() returns (r: Option<VacbId>)
      requires Inv(Snapshot())
      modifies this
      ensures r.None? ==> Snapshot() == old(Snapshot()) && forall v :: v in old(Snapshot().h.linked) ==> v in refs && refs[v] >= 2
      ensures r.Some? ==>
                && OldestUnused(old(Snapshot()), r.value) && Accounted(old(Snapshot()), r.value)
                && old(Snapshot()).chunk[r.value].file in old(Snapshot()).lists
                && Snapshot() == Drop(old(Snapshot()), r.value)
      ensures Inv(Snapshot())
    {
      ghost var c := Snapshot();
      assert PartOk(Lru, c) && PartOk(Alloc, c);
      var i := 0;
      while i < |lru|
        invariant i <= |lru| && Snapshot() == c && forall j :: 0 <= j < i ==> refs[lru[j]] >= 2
      {
        var v := lru[i];
        if refs[v] < 2 {
          FirstIsOldest(c, i);
          DropView(v);
          return Some(v);
        }
        i := i + 1;
      }
      r := None;
    }

    // ------------------------------------------------------------- acquiring a view

    method MoveToTail(v: VacbId)
      modifies this
      ensures Snapshot() == Touch(old(Snapshot()), v)
    {
      ghost var c := Snapshot();
      lru := Without(lru, v) + [v];
      h := Touch(c, v).h;
    }

    /** CcRosCreateVacb. Mm refuses `failures` times to map the view; each time an unused view is
        freed to make room. It gives up exactly if there are too few of them. */
    method Create(file: FileId, offset: nat, failures: nat) returns (r: Option<VacbId>)
      requires Inv(Snapshot()) && file in lists
      modifies this
      ensures Inv(Snapshot()) && SameFile(old(Snapshot()), Snapshot()) && KeepsHeld(old(Snapshot()), Snapshot())
      ensures KeepsQuiet(old(Snapshot()), Snapshot())
      ensures r.None? ==> Snapshot().h.holds == old(Snapshot().h.holds)
      ensures r.Some? ==> Acquired(old(Snapshot()), Snapshot(), file, offset, r.value)
      ensures r.None? <==> failures > |UnusedOf(old(Snapshot()))|
      ensures r.Some? ==> |UnusedOf(Snapshot())| + failures + 1 >= |UnusedOf(old(Snapshot()))|
    {
      hide Inv, SameFile, KeepsHeld, KeepsQuiet, Drop, Unhold, AfterInsert, UnusedOf, New;
      ghost var c0 := Snapshot();
      NewIsCreating(c0, file, offset);
      UnusedNew(c0, file, offset);
      var v := Allocate(file, offset);
      for i := 0 to failures
        invariant Creating(c0, Snapshot(), v, file, offset) && |UnusedOf(Snapshot())| + i == |UnusedOf(c0)|
      {
        ghost var c := Snapshot();
        var freed := FreeOneUnused();
        if freed.None? {
          UnusedNone(c);
          CreatingGivesUp(c0, Snapshot(), v, file, offset);
          DecRef(v);
          return None;
        }
        CreatingEvicts(c0, c, v, file, offset, freed.value);
        UnusedDrop(c, freed.value);
      }
      CreatingInserts(c0, Snapshot(), v, file, offset);
      UnusedInsert(Snapshot(), v, offset);
      var w := Insert(v, offset);
      r := Some(w);
    }

    /** CcRosGetVacb: whatever happens on the way, the caller gets a reference to the one view of
        the chunk, now last in the LRU list, or nothing; no byte anyone wrote is affected. */
    method Get(file: FileId, offset: nat, failures: nat) returns (r: Option<VacbId>)
      requires Inv(Snapshot()) && file in lists
      modifies this
      ensures Inv(Snapshot()) && SameFile(old(Snapshot()), Snapshot()) && KeepsHeld(old(Snapshot()), Snapshot())
      ensures KeepsQuiet(old(Snapshot()), Snapshot())
      ensures r.None? ==> Snapshot().h.holds == old(Snapshot().h.holds)
      ensures r.Some? ==> Acquired(old(Snapshot()), Snapshot(), file, offset, r.value)
      ensures r.Some? ==> |lru| > 0 && lru[|lru| - 1] == r.value
      ensures r.Some? <==> Obtainable(old(Snapshot()), file, offset, failures)
      ensures r.Some? ==> |UnusedOf(Snapshot())| + failures + 1 >= |UnusedOf(old(Snapshot()))|
    {
      hide Inv, SameFile, KeepsHeld, KeepsQuiet, Hold, AfterLookup, UnusedOf, Covering;
      ghost var c0 := Snapshot();
      LookupAcquires(c0, file, offset);
      UnusedLookup(c0, file, offset);
      r := Lookup(file, offset);
      if r.None? {
        r := Create(file, offset, failures);
        if r.None? {
          return;
        }
      }
      TouchAcquires(c0, Snapshot(), file, offset, r.value);
      UnusedTouch(Snapshot(), r.value);
      MoveToTail(r.value);
    }

    // ------------------------------------------------------------- using and releasing a view

    method PutOnDirtyList(v: VacbId)
      requires Accounted(Snapshot(), v)
      modifies this
      ensures Snapshot() == MarkDirty(old(Snapshot()), v)
    {
      hide Without;
      ghost var c := Snapshot();
      var file := chunk[v].file;
      dirtyList, dirty := dirtyList + [v], dirty + {v};
      totalDirty := totalDirty + PAGES_PER_VIEW;
      dirtyPages := dirtyPages[file := dirtyPages[file] + PAGES_PER_VIEW];
      refs := refs[v := refs[v] + 1];
      lru := Without(lru, v) + [v];
      h := MarkDirty(c, v).h;
    }

    /** CcRosMarkDirtyVacb: what holds of lists, counts and bytes goes on to hold exactly if the
        view was not dirty, which is the assertion. */
    method Mark(v: VacbId)
      requires Accounted(Snapshot(), v)
      modifies this
      ensures Snapshot() == MarkDirty(old(Snapshot()), v)
      ensures old(Inv(Snapshot()) && v in Snapshot().h.linked) ==> (Inv(Snapshot()) <==> v !in old(dirty))
    {
      hide MarkDirty, Inv;
      ghost var c := Snapshot();
      PutOnDirtyList(v);
      if Inv(c) && v in c.h.linked {
        MarkExactly(c, v);
      }
    }

    method TakeOffDirtyList(v: VacbId)
      requires Accounted(Snapshot(), v)
      modifies this
      ensures Snapshot() == UnmarkDirty(old(Snapshot()), v)
    {
      hide Without;
      var file := chunk[v].file;
      dirtyList, dirty := Without(dirtyList, v), dirty - {v};
      totalDirty := totalDirty - PAGES_PER_VIEW;
      dirtyPages := dirtyPages[file := dirtyPages[file] - PAGES_PER_VIEW];
      refs := refs[v := refs[v] - 1];
    }

    /** CcRosUnmarkDirtyVacb: lists and counts go on to agree exactly if the view was dirty, which
        is the assertion; so do the bytes, if the store has them or somebody answers for them. */
    method Unmark(v: VacbId)
      requires Accounted(Snapshot(), v)
      modifies this
      ensures Snapshot() == UnmarkDirty(old(Snapshot()), v)
      ensures old(Inv(Snapshot()) && v in Snapshot().h.linked) ==>
                && (Structure(Snapshot()) <==> v in old(dirty))
                && (Inv(Snapshot()) <==> v in old(dirty) && old(Answered(Snapshot(), v)))
    {
      hide UnmarkDirty, Inv, Structure;
      ghost var c := Snapshot();
      TakeOffDirtyList(v);
      if Inv(c) && v in c.h.linked {
        UnmarkExactly(c, v);
      }
    }

    /** CcRosReleaseVacb. */
    method Release(v: VacbId, isDirty: bool)
      requires Inv(Snapshot()) && Releasable(Snapshot(), v, isDirty)
      modifies this
      ensures old(Accounted(Snapshot(), v))
      ensures Snapshot() == CacheState.Release(old(Snapshot()), v, isDirty) && Inv(Snapshot())
    {
      hide Inv, MarkDirty, Unhold;
      ReleaseKeeps(Snapshot(), v, isDirty);
      if isDirty {
        ghost var c := Snapshot();
        if v !in dirty {
          MarkLeaves(c, v);
          Mark(v);
        }
        h := h.(writers := h.writers - multiset{v});
      }
      DecRef(v);
    }

    /** The marking in CcSetDirtyPinnedData. */
    method SetDirtyData(v: VacbId)
      requires Inv(Snapshot()) && v in Snapshot().h.linked
      modifies this
      ensures old(Accounted(Snapshot(), v)) && Inv(Snapshot())
      ensures Snapshot() == WriterDone(if v in old(dirty) then old(Snapshot()) else MarkDirty(old(Snapshot()), v), v)
    {
      hide Inv, MarkDirty;
      SetDirtyKeeps(Snapshot(), v);
      if v !in dirty {
        Mark(v);
      }
      h := h.(writers := h.writers - multiset{v});
    }

    /** The release after an exception: the view keeps what was written to it, unmarked. */
    method AbandonWrite(v: VacbId)
      requires Inv(Snapshot()) && ClientMay(Snapshot(), AbandonIt(v))
      modifies this
      ensures old(v in refs)
      ensures Snapshot() == Abandon(old(Snapshot()), v) && Inv(Snapshot())
    {
      hide Inv, Unhold;
      AbandonKeeps(Snapshot(), v);
      h := h.(unsaved := if v in dirty then h.unsaved else h.unsaved + {v}, writers := h.writers - multiset{v});
      DecRef(v);
    }

    method CopyInto(v: VacbId, at: nat, bytes: seq<Byte>)
      requires Inv(Snapshot()) && ClientMay(Snapshot(), CopyIn(v, at, bytes))
      modifies this
      ensures old(v in chunk && v in data)
      ensures Snapshot() == WriteView(old(Snapshot()), v, at, bytes) && Inv(Snapshot())
    {
      hide Inv;
      WriteKeeps(Snapshot(), v, at, bytes);
      ghost var c := Snapshot();
      data := data[v := Splice(data[v], at, bytes)];
      h := WriteView(c, v, at, bytes).h;
    }
  }

  /** The store has the bytes of the view, or somebody answers for them. */
  ghost predicate Answered(c: Cache, v: VacbId) {
    c.h.writers[v] > 0 || (v in c.data && v in c.chunk && c.data[v] == Stored(c.store, c.chunk[v]))
  }

  lemma UnmarkLeaves(c: Cache, v: VacbId)
    requires Accounted(c, v)
    ensures var u := UnmarkDirty(c, v); u.chunk == c.chunk && u.lists == c.lists && u.lru == c.lru && u.h == c.h
  {
  }

  lemma DetachLeaves(c: Cache, v: VacbId)
    requires Accounted(c, v) && c.chunk[v].file in c.lists
    ensures v in Detach(c, v).refs
  {
  }

  lemma MarkLeaves(c: Cache, v: VacbId)
    requires Accounted(c, v)
    ensures v in MarkDirty(c, v).refs
  {
  }

  /** The caller has one reference more, to the view of the chunk. */
  ghost predicate Acquired(c: Cache, d: Cache, file: FileId, offset: nat, v: VacbId) {
    && v in d.h.linked && v in d.chunk && d.chunk[v] == Chunk(file, RoundDown(offset))
    && d.h.holds == c.h.holds + multiset{v} && d.h.writers[v] < d.h.holds[v]
  }

  /** `v` is being created: nobody else knows it. */
  ghost predicate Creating(c0: Cache, c: Cache, v: VacbId, file: FileId, offset: nat) {
    && Inv(c) && SameFile(c0, c) && KeepsHeld(c0, c) && KeepsQuiet(c0, c) && file in c.lists
    && v in c.chunk && v in c.refs && v !in c.h.linked && c.chunk[v] == Chunk(file, RoundDown(offset))
    && c.h.holds == c0.h.holds + multiset{v} && c.h.writers[v] < c.h.holds[v]
  }

  // ------------------------------------------------------------- counting unused views

  lemma UnusedNew(c: Cache, file: FileId, offset: nat)
    requires Inv(c)
    ensures UnusedOf(New(c, file, offset)) == UnusedOf(c)
  {
    hide CleanOk, Coherent;
    NewKeeps(c, file, offset);
  }

  lemma UnusedNone(c: Cache)
    requires forall v :: v in c.h.linked ==> v in c.refs && c.refs[v] >= 2
    ensures UnusedOf(c) == {}
  {
  }

  lemma UnusedDrop(c: Cache, u: VacbId)
    requires Inv(c) && OldestUnused(c, u) && Accounted(c, u) && c.chunk[u].file in c.lists
    ensures UnusedOf(Drop(c, u)) == UnusedOf(c) - {u} && |UnusedOf(Drop(c, u))| == |UnusedOf(c)| - 1
  {
    hide Structure, CleanOk, Coherent, Drop, Without;
    var d := DropFacts(c, u);
    assert UnusedOf(d) == UnusedOf(c) - {u};
  }

  /** At most one more view is in use. */
  lemma UnusedLess(c: Cache, d: Cache, u: VacbId)
    requires d.h.linked >= c.h.linked && forall x :: x in c.h.linked && x in c.refs && x != u ==> x in d.refs && d.refs[x] == c.refs[x]
    ensures |UnusedOf(d)| + 1 >= |UnusedOf(c)|
  {
    assert UnusedOf(c) <= UnusedOf(d) + {u};
    SubsetSize(UnusedOf(c), UnusedOf(d) + {u});
  }

  lemma UnusedLookup(c: Cache, file: FileId, offset: nat)
    requires Inv(c) && file in c.lists
    ensures c.chunk.Keys == c.refs.Keys && |UnusedOf(AfterLookup(c, file, offset))| + 1 >= |UnusedOf(c)|
  {
    hide CleanOk, Coherent, Covering, UnusedOf;
    assert PartOk(Alloc, c);
    var found := Covering(c.lists[file], c.chunk, offset);
    UnusedLess(c, AfterLookup(c, file, offset), if found.Some? then found.value else 0);
  }

  lemma UnusedInsert(c: Cache, v: VacbId, offset: nat)
    requires Inv(c) && ClientMay(c, Insert(v, offset))
    ensures c.chunk.Keys == c.refs.Keys && |UnusedOf(AfterInsert(c, v, offset))| + 1 >= |UnusedOf(c)|
  {
    hide CleanOk, Coherent, Covering, UnusedOf, InsertSorted;
    assert PartOk(Alloc, c);
    var found := Covering(c.lists[c.chunk[v].file], c.chunk, offset);
    UnusedLess(c, AfterInsert(c, v, offset), if found.Some? then found.value else v);
  }

  /** No unused view is touched. */
  lemma UnusedKept(c: Cache, d: Cache)
    requires d.h.linked >= c.h.linked
    requires forall x :: x in c.h.linked && x in c.refs && c.refs[x] < 2 ==> x in d.refs && d.refs[x] == c.refs[x]
    ensures |UnusedOf(d)| >= |UnusedOf(c)|
  {
    SubsetSize(UnusedOf(c), UnusedOf(d));
  }

  lemma UnusedTouch(c: Cache, v: VacbId)
    ensures UnusedOf(Touch(c, v)) == UnusedOf(c)
  {
  }

  lemma SameFileTrans(c: Cache, d: Cache, e: Cache)
    requires SameFile(c, d) && SameFile(d, e)
    ensures SameFile(c, e)
  {
  }

  /** Views that stay keep their chunk, and new ones have nobody to answer for. */
  lemma QuietFrame(c: Cache, d: Cache)
    requires d.h.lost == c.h.lost && d.h.writers == c.h.writers && d.h.unsaved <= c.h.unsaved
    requires forall v :: v in d.h.linked && v in d.chunk ==>
               (v in c.h.linked && v in c.chunk && c.chunk[v] == d.chunk[v]) || (d.h.writers[v] == 0 && v !in d.h.unsaved)
    ensures KeepsQuiet(c, d)
  {
  }

  lemma QuietTrans(c: Cache, d: Cache, e: Cache)
    requires KeepsQuiet(c, d) && KeepsQuiet(d, e)
    ensures KeepsQuiet(c, e)
  {
  }

  /** Evicting a view of a quiet chunk loses nothing. */
  lemma DropQuiet(c: Cache, v: VacbId)
    requires Structure(c) && v in c.h.linked && c.h.holds[v] == 0 && Accounted(c, v) && c.chunk[v].file in c.lists && v !in c.dirty
    ensures KeepsQuiet(c, Drop(c, v))
  {
    hide Structure, Drop, Without;
    var d := DropFacts(c, v);
  }

  lemma LinkQuiet(c: Cache, v: VacbId)
    requires Inv(c) && v in c.chunk && v in c.refs && c.chunk[v].file in c.lists && v !in c.h.linked
    ensures KeepsQuiet(c, Link(c, v))
  {
    hide CleanOk, Coherent, KeepsQuiet, InsertSorted;
    assert PartOk(Writers, c);
    QuietFrame(c, Link(c, v));
  }

  lemma InsertQuiet(c: Cache, v: VacbId, offset: nat)
    requires Inv(c) && Ready(c) && ClientMay(c, Insert(v, offset))
    ensures KeepsQuiet(c, AfterInsert(c, v, offset))
  {
    hide Inv, KeepsQuiet, Covering, Link;
    var found := Covering(c.lists[c.chunk[v].file], c.chunk, offset);
    if found.Some? {
      QuietFrame(c, AfterInsert(c, v, offset));
    } else {
      LinkQuiet(c, v);
    }
  }

  lemma NewIsCreating(c: Cache, file: FileId, offset: nat)
    requires Inv(c) && file in c.lists
    ensures Creating(c, New(c, file, offset), c.h.nextId, file, offset)
  {
    hide Structure, CleanOk, Coherent, KeepsQuiet;
    NewKeeps(c, file, offset);
    QuietFrame(c, New(c, file, offset));
    WritersHeld(c, c.h.nextId);
    LinkedAllocated(c);
    hide Abandoned;
    NewAbandons(c, file, offset);
  }

  lemma NewAbandons(c: Cache, file: FileId, offset: nat)
    requires Inv(c)
    ensures Abandoned(New(c, file, offset)) == Abandoned(c)
  {
    hide CleanOk, Coherent;
    assert PartOk(Alloc, c) && PartOk(Writers, c);
  }

  lemma LinkedAllocated(c: Cache)
    requires Inv(c)
    ensures forall u :: u in c.h.linked || c.h.holds[u] > 0 ==> u in c.chunk
  {
    assert PartOk(Alloc, c);
  }

  lemma CreatingEvicts(c0: Cache, c: Cache, v: VacbId, file: FileId, offset: nat, u: VacbId)
    requires Creating(c0, c, v, file, offset) && OldestUnused(c, u) && Accounted(c, u) && c.chunk[u].file in c.lists
    requires Inv(Drop(c, u))
    ensures Creating(c0, Drop(c, u), v, file, offset)
  {
    hide Structure, CleanOk, Coherent, Drop, Without, KeepsQuiet;
    var d := DropFacts(c, u);
    DropQuiet(c, u);
    QuietTrans(c0, c, d);
  }

  lemma CreatingGivesUp(c0: Cache, c: Cache, v: VacbId, file: FileId, offset: nat)
    requires Creating(c0, c, v, file, offset)
    ensures Inv(Unhold(c, v)) && SameFile(c0, Unhold(c, v)) && KeepsHeld(c0, Unhold(c, v)) && KeepsQuiet(c0, Unhold(c, v))
    ensures Unhold(c, v).h.holds == c0.h.holds
  {
    hide Inv, KeepsQuiet;
    UnholdSameFile(c, v);
    UnholdKeeps(c, v);
    SameFileTrans(c0, c, Unhold(c, v));
    QuietFrame(c, Unhold(c, v));
    QuietTrans(c0, c, Unhold(c, v));
  }

  lemma UnholdSameFile(c: Cache, v: VacbId)
    requires v in c.refs
    ensures SameFile(c, Unhold(c, v))
  {
  }

  lemma WritersHeld(c: Cache, v: VacbId)
    requires Inv(c)
    ensures c.h.writers[v] <= c.h.holds[v]
  {
    assert PartOk(Writers, c);
  }

  lemma InsertSameFile(c: Cache, v: VacbId, offset: nat)
    requires Ready(c) && ClientMay(c, Insert(v, offset))
    ensures SameFile(c, AfterInsert(c, v, offset))
  {
    assert AfterInsert(c, v, offset).lists.Keys == c.lists.Keys;
  }

  lemma LinkKeepsHeld(c0: Cache, c: Cache, v: VacbId)
    requires KeepsHeld(c0, c) && v in c.chunk && v in c.refs && c.chunk[v].file in c.lists
    ensures KeepsHeld(c0, Link(c, v))
  {
  }

  lemma RaceKeepsHeld(c0: Cache, c: Cache, v: VacbId, u: VacbId)
    requires KeepsHeld(c0, c) && v in c.refs && u in c.refs && v !in c.h.linked && c.h.holds == c0.h.holds + multiset{v}
    ensures KeepsHeld(c0, Unhold(Hold(c, u), v))
  {
    hide Hold, Unhold;
    var d := RaceFacts(c, v, u);
    assert d.h.holds == c0.h.holds + multiset{u};
  }

  lemma RaceFacts(c: Cache, v: VacbId, u: VacbId) returns (d: Cache)
    requires v in c.refs && u in c.refs
    ensures v in Hold(c, u).refs && d == Unhold(Hold(c, u), v)
    ensures d.h.linked == c.h.linked && d.h.holds == c.h.holds + multiset{u} - multiset{v}
    ensures forall x :: x in c.chunk && x != v ==> x in d.chunk && d.chunk[x] == c.chunk[x]
  {
    d := Unhold(Hold(c, u), v);
  }

  lemma InsertKeepsHeld(c0: Cache, c: Cache, v: VacbId, offset: nat)
    requires Ready(c) && ClientMay(c, Insert(v, offset)) && KeepsHeld(c0, c) && c.h.holds == c0.h.holds + multiset{v}
    ensures KeepsHeld(c0, AfterInsert(c, v, offset))
  {
    hide Covering, Link, Hold, Unhold, KeepsHeld;
    var found := Covering(c.lists[c.chunk[v].file], c.chunk, offset);
    if found.Some? {
      RaceKeepsHeld(c0, c, v, found.value);
    } else {
      LinkKeepsHeld(c0, c, v);
    }
  }

  lemma InsertLeaves(c: Cache, v: VacbId, offset: nat, u: VacbId)
    requires Ready(c) && ClientMay(c, Insert(v, offset)) && u in c.chunk
    requires var found := Covering(c.lists[c.chunk[v].file], c.chunk, offset);
             if found.Some? then u == found.value && u in c.h.linked else u == v
    ensures var d := AfterInsert(c, v, offset); u in d.chunk && d.chunk[u] == c.chunk[u] && u in d.h.linked
  {
  }

  lemma CreatingInserts(c0: Cache, c: Cache, v: VacbId, file: FileId, offset: nat)
    requires Creating(c0, c, v, file, offset)
    ensures c.chunk.Keys == c.refs.Keys && ClientMay(c, Insert(v, offset))
    ensures var d, found := AfterInsert(c, v, offset), Covering(c.lists[file], c.chunk, offset);
            && Inv(d) && SameFile(c0, d) && KeepsHeld(c0, d) && KeepsQuiet(c0, d)
            && Acquired(c0, d, file, offset, if found.Some? then found.value else v)
  {
    hide Inv, Covering, AfterInsert, KeepsQuiet;
    InvIsReady(c);
    InsertKeeps(c, v, offset);
    InsertQuiet(c, v, offset);
    QuietTrans(c0, c, AfterInsert(c, v, offset));
    InsertSameFile(c, v, offset);
    InsertKeepsHeld(c0, c, v, offset);
    var d := AfterInsert(c, v, offset);
    SameFileTrans(c0, c, d);
    var found := Covering(c.lists[file], c.chunk, offset);
    var u := if found.Some? then found.value else v;
    WritersHeld(c, u);
    InsertLeaves(c, v, offset, u);
  }

  lemma LookupAcquires(c: Cache, file: FileId, offset: nat)
    requires Inv(c) && file in c.lists
    ensures c.chunk.Keys == c.refs.Keys
    ensures var d, found := AfterLookup(c, file, offset), Covering(c.lists[file], c.chunk, offset);
            && (found.None? <==> Uncovered(c, Chunk(file, RoundDown(offset))))
            && SameFile(c, d) && KeepsHeld(c, d) && KeepsQuiet(c, d) && (found.Some? ==> Acquired(c, d, file, offset, found.value)) && (found.None? ==> d == c)
  {
    hide CleanOk, Coherent, Covering, KeepsQuiet;
    assert PartOk(Alloc, c) && PartOk(Index, c);
    CoveringExact(c, file, offset);
    QuietFrame(c, AfterLookup(c, file, offset));
    var found := Covering(c.lists[file], c.chunk, offset);
    if found.Some? {
      WritersHeld(c, found.value);
    }
  }

  lemma TouchAcquires(c0: Cache, c: Cache, file: FileId, offset: nat, v: VacbId)
    requires Inv(c) && SameFile(c0, c) && KeepsHeld(c0, c) && KeepsQuiet(c0, c) && Acquired(c0, c, file, offset, v)
    ensures Inv(Touch(c, v)) && SameFile(c0, Touch(c, v)) && KeepsHeld(c0, Touch(c, v)) && KeepsQuiet(c0, Touch(c, v))
    ensures Acquired(c0, Touch(c, v), file, offset, v)
  {
    hide Inv, KeepsQuiet;
    TouchKeeps(c, v);
    QuietFrame(c, Touch(c, v));
    QuietTrans(c0, c, Touch(c, v));
  }

  /** Of the linked views only the list refers to, `v` was touched least recently. */
  ghost predicate OldestUnused(c: Cache, v: VacbId) {
    && v in c.h.linked && v in c.refs && c.refs[v] == 1 && v !in c.dirty && c.h.holds[v] == 0
    && forall u :: u in c.h.linked && u in c.refs && c.refs[u] < 2 && u in c.h.touched && v in c.h.touched ==>
                     c.h.touched[v] <= c.h.touched[u]
  }

  lemma FirstIsOldest(c: Cache, i: nat)
    requires Inv(c) && i < |c.lru| && c.lru[i] in c.refs && c.refs[c.lru[i]] < 2
    requires forall j :: 0 <= j < i ==> c.lru[j] in c.refs && c.refs[c.lru[j]] >= 2
    ensures Accounted(c, c.lru[i]) && c.chunk[c.lru[i]].file in c.lists
    ensures OldestUnused(c, c.lru[i]) && Inv(Drop(c, c.lru[i]))
  {
    hide CleanOk, Coherent;
    var v := c.lru[i];
    assert PartOk(Lru, c);
    UnusedByCount(c, v);
    NotAnswered(c, v);
    DropKeeps(c, v);
    forall u | u in c.h.linked && u in c.refs && c.refs[u] < 2 && u in c.h.touched && v in c.h.touched
      ensures c.h.touched[v] <= c.h.touched[u]
    {
      var j :| 0 <= j < |c.lru| && c.lru[j] == u;
      assert i <= j;
    }
  }

  lemma {:induction false} InsertAt(list: seq<VacbId>, chunk: map<VacbId, Chunk>, v: VacbId, k: nat)
    requires v in chunk && k <= |list| && forall j :: 0 <= j < |list| ==> list[j] in chunk
    requires forall j :: 0 <= j < k ==> chunk[list[j]].base <= chunk[v].base
    requires k < |list| ==> chunk[list[k]].base > chunk[v].base
    ensures InsertSorted(list, chunk, v) == list[..k] + [v] + list[k..]
  {
    if list == [] || k == 0 {
    } else {
      InsertAt(list[1..], chunk, v, k - 1);
    }
  }

  /** Where the walk for an uncovered offset stops is the sorted place of a view of it. */
  lemma InsertPlace(c: Cache, v: VacbId, offset: nat, k: nat)
    requires Inv(c) && v in c.chunk && c.chunk[v].file in c.lists && c.chunk[v].base == RoundDown(offset)
    requires var list := c.lists[c.chunk[v].file];
             && k <= |list| && (forall j :: 0 <= j < |list| ==> list[j] in c.chunk)
             && (forall j :: 0 <= j < k ==> c.chunk[list[j]].base < offset)
             && (forall j :: k <= j < |list| ==> c.chunk[list[j]].base > offset)
             && Covering(list, c.chunk, offset).None?
    ensures var list := c.lists[c.chunk[v].file];
            InsertSorted(list, c.chunk, v) == list[..k] + [v] + list[k..]
  {
    hide Covering;
    assert PartOk(Alloc, c);
    var list := c.lists[c.chunk[v].file];
    forall j | 0 <= j < k
      ensures c.chunk[list[j]].base <= c.chunk[v].base
    {
      assert list[j] in list && c.chunk[list[j]].base + GRANULARITY <= offset;
    }
    InsertAt(list, c.chunk, v, k);
  }

  lemma ListSorted(c: Cache, file: FileId)
    requires Inv(c) && file in c.lists
    ensures forall j :: 0 <= j < |c.lists[file]| ==> c.lists[file][j] in c.chunk
    ensures forall i, j :: 0 <= i < j < |c.lists[file]| ==> c.chunk[c.lists[file][i]].base < c.chunk[c.lists[file][j]].base
  {
    hide CleanOk, Coherent;
    assert PartOk(Index, c);
    assert ListOk(c.lists[file], c.chunk, file, c.h.linked);
  }

  lemma CoveringStep(list: seq<VacbId>, chunk: map<VacbId, Chunk>, offset: nat, k: nat)
    requires k < |list| && list[k] in chunk
    ensures var base := chunk[list[k]].base;
            Covering(list[k..], chunk, offset) ==
            if base <= offset < base + GRANULARITY then Some(list[k]) else Covering(list[k + 1..], chunk, offset)
  {
  }

  /** In a sorted list no view past the offset covers it. */
  lemma {:induction false} NothingFurther(list: seq<VacbId>, chunk: map<VacbId, Chunk>, offset: nat)
    requires forall v :: v in list && v in chunk ==> chunk[v].base > offset
    ensures Covering(list, chunk, offset).None?
  {
  }
}
