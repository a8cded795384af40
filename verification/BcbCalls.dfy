/** The pinning interface of a cached file, call by call. */
module BcbCalls {
  import opened Collections
  import opened CacheState
  import opened CacheSteps
  import opened CacheEvents
  import opened CacheManager
  import opened CacheCopy
  import opened FlushRange
  import opened Pinning

  /** The range test of CcpFindBcb. */
  predicate Covers(e: Bcb, offset: nat, length: nat) {
    e.offset <= offset && e.offset + e.length >= offset + length
  }

  /** Address `at` of the view is byte `offset` of the file, and `n` bytes can be read there. */
  ghost predicate Shows(c: Cache, file: FileId, offset: nat, n: nat, v: VacbId, at: nat) {
    && v in c.h.linked && v in c.chunk && v in c.data && at == offset % GRANULARITY && at + n <= GRANULARITY
    && c.chunk[v] == Chunk(file, RoundDown(offset)) && ReadsFlat(c, file, offset, c.data[v][at..at + n])
  }

  /** The one case in which a BCB that passes the range test is not of the offset's view. */
  predicate Misses(e: Bcb, offset: nat, length: nat) {
    length == 0 && offset == RoundDown(e.offset) + GRANULARITY
  }

  /** The pointer computed from a BCB that covers the range is right exactly when the range is not
      an empty one on the border of the BCB's chunk. */
  lemma CoveredShows(c: Cache, file: FileId, e: Bcb, offset: nat, length: nat)
    requires Inv(c) && Inside(e, c, file) && Covers(e, offset, length) && offset % GRANULARITY + length <= GRANULARITY
    ensures Shows(c, file, offset, length, e.vacb, offset % GRANULARITY) <==> !Misses(e, offset, length)
  {
    hide CleanOk, Coherent;
    LinkedFacts(c, e.vacb);
    var k := RoundDown(e.offset);
    assert k <= offset && offset + length <= k + GRANULARITY;
    if !Misses(e, offset, length) {
      assert offset < k + GRANULARITY;
      SameChunk(k, offset - k);
      ViewReadsFlat(c, e.vacb, file, offset, length);
    }
  }

  /** An empty range at the end of a whole-view BCB is such a case. */
  lemma BorderIsMissed(v: VacbId)
    ensures var e := Bcb(0, GRANULARITY, v, 0, 1); Covers(e, GRANULARITY, 0) && Misses(e, GRANULARITY, 0)
  {
  }

  class BcbList {
    const m: Manager
    const file: FileId
    var list: seq<BcbId>
    var bcb: map<BcbId, Bcb>
    var next: BcbId
    ghost var tokens: multiset<(BcbId, Token)>
    ghost var spare: multiset<VacbId>

    ghost function Snap(): (k: Book)
      reads this
    {
      Book(list, bcb, next, tokens, spare)
    }

    ghost predicate Valid()
      reads this, m
    {
      Inv(m.Snapshot()) && file in m.lists && BookOk(Snap()) && Anchored(Snap(), m.Snapshot(), file)
    }

    constructor (manager: Manager, f: FileId)
      requires Inv(manager.Snapshot()) && f in manager.lists
      ensures m == manager && file == f && Snap() == Book([], map[], 0, multiset{}, multiset{}) && Valid()
    {
      m, file := manager, f;
      list, bcb, next, tokens, spare := [], map[], 0, multiset{}, multiset{};
      new;
      WritersBelowHolds(m.Snapshot());
    }

    /** CcpFindBcb. */
    method Find(offset: nat, length: nat, pinned: bool) returns (r: Option<BcbId>)
      requires forall b :: b in list <==> b in bcb
      ensures r.Some? ==> r.value in bcb && Covers(bcb[r.value], offset, length) && (pinned <==> bcb[r.value].pinCount > 0)
      ensures r.None? ==> forall b :: b in bcb ==> !(Covers(bcb[b], offset, length) && (pinned <==> bcb[b].pinCount > 0))
    {
      var i := 0;
      while i < |list|
        invariant i <= |list|
        invariant forall j :: 0 <= j < i ==> !(Covers(bcb[list[j]], offset, length) && (pinned <==> bcb[list[j]].pinCount > 0))
      {
        var e := bcb[list[i]];
        if Covers(e, offset, length) && (pinned <==> e.pinCount > 0) {
          return Some(list[i]);
        }
        i := i + 1;
      }
      r := None;
      assert forall b :: b in bcb ==> b in list;
    }

    /** CcpDereferenceBcb, for a token of kind `t`. */
    method Dereference(b: BcbId, pinCount: int, ghost t: Token)
      requires Valid() && (b, t) in tokens && b in bcb && pinCount == Bump(bcb[b], t, -1).pinCount
      modifies this, m
      ensures Valid() && Snap() == Take(old(Snap()), b, t) && SameFile(old(m.Snapshot()), m.Snapshot())
      ensures m.store == old(m.store)
    {
      hide Inv, SameFile, Release, Anchored, BookOk, Without;
      ghost var k, c := Snap(), m.Snapshot();
      NothingRead(c, file, 0);
      TakeKeeps(k, b, t);
      tokens := tokens - multiset{(b, t)};
      if bcb[b].refCount == 1 {
        TakeLastAnchored(k, c, file, b, t);
        OwnedView(k, c, file, b);
        ReleaseFacts(c, bcb[b].vacb);
        ReleaseSameFile(c, bcb[b].vacb);
        var v := bcb[b].vacb;
        list, bcb := Without(list, b), bcb - {b};
        m.Release(v, false);
      } else {
        TakeOneAnchored(k, c, file, b, t);
        bcb := bcb[b := bcb[b].(refCount := bcb[b].refCount - 1, pinCount := pinCount)];
      }
    }

    /** CcUnpinData: the token is a map's or a pin's, and PinCount tells which. */
    method Unpin(b: BcbId, ghost t: Token)
      requires Valid() && (b, t) in tokens && t != Repinned && b in bcb
      modifies this, m
      ensures Valid() && Snap() == Take(old(Snap()), b, t) && SameFile(old(m.Snapshot()), m.Snapshot())
    {
      TakeKeeps(Snap(), b, t);
      var pins := bcb[b].pinCount;
      if pins != 0 {
        pins := pins - 1;
      }
      Dereference(b, pins, t);
    }

    /** CcRepinBcb. */
    method Repin(b: BcbId)
      requires Valid() && b in bcb
      modifies this
      ensures Valid() && Snap() == Give(old(Snap()), b, Repinned)
    {
      hide Inv, Anchored;
      GiveKeeps(Snap(), b, Repinned);
      GiveAnchored(Snap(), m.Snapshot(), file, b, Repinned);
      bcb := bcb[b := bcb[b].(refCount := bcb[b].refCount + 1)];
      tokens := tokens + multiset{(b, Repinned)};
    }

    /** CcUnpinRepinnedBcb: its own branch for a BCB still pinned at its last reference is never
        taken. With WriteThrough the range of the BCB is flushed first. */
    method UnpinRepinned(b: BcbId, writeThrough: bool, script: seq<Reply>, validData: nat)
      returns (verdict: Verdict, information: nat, valid: nat)
      requires Valid() && (b, Repinned) in tokens && b in bcb && bcb[b].offset <= MAXLONGLONG
      modifies this, m
      ensures Valid() && Snap() == Take(old(Snap()), b, Repinned) && m.Snapshot().h.writes == old(m.Snapshot().h.writes)
      ensures Abandoning(old(m.Snapshot()), m.Snapshot(), {})
      ensures old(bcb[b].refCount) == 1 ==> old(bcb[b].pinCount) == 0
      ensures !writeThrough ==> verdict == Success && information == 0 && SameFile(old(m.Snapshot()), m.Snapshot())
      ensures writeThrough ==> var start, end := old(bcb[b].offset), old(bcb[b].offset + bcb[b].length);
                && (verdict == Overflow <==> end > MAXLONGLONG)
                && (verdict == Success <==> end <= MAXLONGLONG && forall i: nat :: i < Chunks(start, end) ==> ReplyAt(script, i).ok)
      ensures writeThrough && verdict == Success ==>
                DurableTo(old(m.Snapshot()), m.Snapshot(), file, old(bcb[b].offset), old(bcb[b].offset + bcb[b].length))
    {
      hide Inv, SameWrites, DurableTo, SameFile, Anchored, Take, Tiles, Abandoning;
      ghost var c0 := m.Snapshot();
      assert Counted(Snap(), b);
      var offset, length := bcb[b].offset, bcb[b].length;
      AnchoredInside(Snap(), c0, file, b);
      verdict, information, valid := Success, 0, validData;
      NothingRead(c0, file, 0);
      if writeThrough {
        var pieces;
        ghost var upto;
        verdict, pieces, information, valid, upto := FlushCache(m, file, Some((offset, length)), 0, script, validData);
        FlushAnchored(Snap(), c0, m.Snapshot(), file);
        FlushAbandons(c0, m.Snapshot());
      }
      ghost var c := m.Snapshot();
      Dereference(b, bcb[b].pinCount, Repinned);
      SameStore(c0, c, m.Snapshot(), file, offset, offset + length);
    }

    /** A BCB found is referenced once more. */
    method Reuse(b: BcbId, t: Token)
      requires Valid() && b in bcb && t != Repinned && (t == Pinned <==> bcb[b].pinCount > 0)
      modifies this
      ensures Valid() && Snap() == Give(old(Snap()), b, t)
    {
      hide Inv, Anchored;
      assert Counted(Snap(), b);
      GiveKeeps(Snap(), b, t);
      GiveAnchored(Snap(), m.Snapshot(), file, b, t);
      bcb := bcb[b := Bump(bcb[b], t, 1)];
      tokens := tokens + multiset{(b, t)};
    }

    /** CcRosGetVacb, for a range no BCB of the kind covered when it was looked for. */
    method Acquire(offset: nat, failures: nat) returns (r: Option<VacbId>)
      requires Valid()
      modifies this, m
      ensures Valid() && SameFile(old(m.Snapshot()), m.Snapshot())
      ensures r.None? ==> Snap() == old(Snap())
      ensures r.Some? ==> Snap() == Reserve(old(Snap()), r.value)
                          && r.value in m.chunk && m.chunk[r.value] == Chunk(file, RoundDown(offset))
      ensures r.Some? <==> Obtainable(old(m.Snapshot()), file, offset, failures)
    {
      hide Inv, SameFile, KeepsHeld, KeepsQuiet, Anchored, Obtainable, UnusedOf;
      ghost var k, c := Snap(), m.Snapshot();
      r := m.Get(file, offset, failures);
      SameLists(c, m.Snapshot());
      if r.None? {
        StaysAnchored(k, c, m.Snapshot(), file);
        return;
      }
      ReserveKeeps(k, r.value);
      ReserveAnchored(k, c, m.Snapshot(), file, offset, r.value);
      spare := spare + multiset{r.value};
    }

    /** A view acquired for nothing is given back. */
    method GiveBack(v: VacbId)
      requires Valid() && v in spare
      modifies this, m
      ensures Valid() && SameFile(old(m.Snapshot()), m.Snapshot()) && Snap() == Unreserve(old(Snap()), v)
      ensures old(Accounted(m.Snapshot(), v)) && m.Snapshot() == Release(old(m.Snapshot()), v, false)
      ensures m.Snapshot().h.holds == old(m.Snapshot().h.holds) - multiset{v} && v in m.Snapshot().h.linked && v in m.refs
    {
      hide Inv, SameFile, Anchored, Release, BookOk;
      ghost var k, c := Snap(), m.Snapshot();
      ReserveKeeps(k, v);
      UnreserveAnchored(k, c, file, v);
      UnreservedRelease(c, v);
      ReleaseSameFile(c, v);
      spare := spare - multiset{v};
      m.Release(v, false);
    }

    method PutOnList(v: VacbId, offset: nat, n: nat, t: Token) returns (b: BcbId)
      requires Valid() && v in spare && v in m.chunk && m.chunk[v] == Chunk(file, RoundDown(offset))
      requires offset % GRANULARITY + n <= GRANULARITY
      modifies this
      ensures Valid() && b == old(next) && Snap() == Add(Unreserve(old(Snap()), v), offset, n, v, t)
    {
      hide Inv, Anchored, BookOk, Add;
      ghost var k, c := Snap(), m.Snapshot();
      ReserveKeeps(k, v);
      AddKeeps(Unreserve(k, v), offset, n, v, t);
      AddAnchored(k, c, file, offset, n, v, t);
      AddIs(Unreserve(k, v), offset, n, v, t);
      list, bcb := list + [next], bcb[next := Bump(Bcb(offset, n, v, 0, 0), t, 1)];
      tokens, spare := tokens + multiset{(next, t)}, spare - multiset{v};
      b, next := next, next + 1;
    }

    /** CcpGetAppropriateBcb with a BCB allocated: whatever other calls have put on the list or
        taken off it since, there is a token for a BCB that covers the range, and the view acquired
        for it is owned by a new BCB or given back. */
    method Publish(v: VacbId, offset: nat, n: nat, t: Token) returns (b: BcbId)
      requires Valid() && v in spare && v in m.chunk && m.chunk[v] == Chunk(file, RoundDown(offset))
      requires offset % GRANULARITY + n <= GRANULARITY && t != Repinned
      modifies this, m
      ensures Valid() && SameFile(old(m.Snapshot()), m.Snapshot())
      ensures Obtained(Unreserve(old(Snap()), v), Snap(), b, t, offset, n) && Undone(Unreserve(old(Snap()), v), Snap(), b, t)
      ensures b in old(bcb) ==> m.Snapshot().h.holds == old(m.Snapshot().h.holds) - multiset{v}
      ensures b !in old(bcb) ==> m.Snapshot() == old(m.Snapshot()) && b in bcb && bcb[b].vacb == v
    {
      hide Inv, SameFile, Anchored, Take, Give, Add, Release, Covers;
      ghost var k, c := Snap(), m.Snapshot();
      var dup := Find(offset, n, t.Pinned?);
      NothingRead(c, file, offset);
      if dup.Some? {
        GiveBack(v);
        b := dup.value;
        GiveObtains(Snap(), b, t, offset, n);
        Reuse(b, t);
      } else {
        ReserveKeeps(k, v);
        b := PutOnList(v, offset, n, t);
        AddObtains(Unreserve(k, v), t, offset, n, v);
        AddIs(Unreserve(k, v), offset, n, v, t);
        AnchoredInside(Snap(), m.Snapshot(), file, b);
      }
    }

    /** CcpGetAppropriateBcb without memory for a BCB: it gives the view back, and so does its
        caller, once more. The reference counts are wrong from then on. */
    method OutOfMemory(v: VacbId)
      requires Valid() && v in spare
      modifies this, m
      ensures Snap() == Unreserve(old(Snap()), v)
      ensures old(Accounted(m.Snapshot(), v)) && v in Release(old(m.Snapshot()), v, false).refs
      ensures m.Snapshot() == Slip(Release(old(m.Snapshot()), v, false), v) && !Structure(m.Snapshot())
    {
      hide Inv, Release, Structure, Anchored, BookOk, SameFile;
      GiveBack(v);
      ghost var h := m.h;
      SecondReleaseBreaks(m.Snapshot(), v);
      m.DecRef(v);
      m.h := h;
    }

    /** A token for a BCB found, or for one made when nothing interferes. `broken` says that there
        was no memory for one. */
    method Obtain(found: Option<BcbId>, offset: nat, n: nat, t: Token, failures: nat, memory: bool)
      returns (r: Option<BcbId>, broken: bool)
      requires Valid() && offset % GRANULARITY + n <= GRANULARITY && t != Repinned
      requires found.Some? ==> found.value in bcb && Covers(bcb[found.value], offset, n) && (t.Pinned? <==> bcb[found.value].pinCount > 0)
      modifies this, m
      ensures broken <==> found.None? && Obtainable(old(m.Snapshot()), file, offset, failures) && !memory
      ensures r.Some? <==> found.Some? || (Obtainable(old(m.Snapshot()), file, offset, failures) && memory)
      ensures broken ==> !Structure(m.Snapshot())
      ensures !broken ==> Valid() && SameFile(old(m.Snapshot()), m.Snapshot())
      ensures r.None? ==> Snap() == old(Snap())
      ensures r.Some? ==> Obtained(old(Snap()), Snap(), r.value, t, offset, n) && Undone(old(Snap()), Snap(), r.value, t)
      ensures r.Some? ==> Inside(bcb[r.value], m.Snapshot(), file)
    {
      hide Inv, Structure, SameFile, Anchored, Take, Give, Add, Bump, Covers, Obtainable;
      ghost var k, c := Snap(), m.Snapshot();
      r, broken := None, false;
      if found.Some? {
        NothingRead(c, file, offset);
        GiveObtains(k, found.value, t, offset, n);
        Reuse(found.value, t);
        r := found;
      } else {
        var got := Acquire(offset, failures);
        if got.None? {
          return;
        }
        ghost var d := m.Snapshot();
        assert Unreserve(Reserve(k, got.value), got.value) == k;
        if !memory {
          OutOfMemory(got.value);
          return None, true;
        }
        var b := Publish(got.value, offset, n, t);
        SameFileTrans(c, d, m.Snapshot());
        r := Some(b);
      }
      AnchoredInside(Snap(), m.Snapshot(), file, r.value);
    }

    /** CcMapData: a reference to a BCB that covers the range, cut at the end of its chunk, and the
        address of the first byte; or nothing has changed. */
    method Map(offset: nat, length: nat, failures: nat, memory: bool, resident: bool)
      returns (r: Status, b: BcbId, v: VacbId, at: nat, broken: bool)
      requires Valid()
      modifies this, m
      ensures var none, obtainable := NoneCovers(old(Snap()), offset, Cut(offset, length), Mapped), Obtainable(old(m.Snapshot()), file, offset, failures);
              && r == (if none && !(obtainable && memory) then Raised else if !resident then WouldBlock else Done)
              && (broken <==> none && obtainable && !memory)
      ensures broken ==> !Structure(m.Snapshot())
      ensures !broken ==> Valid() && SameFile(old(m.Snapshot()), m.Snapshot())
      ensures r != Done ==> Snap() == old(Snap()).(next := next)
      ensures r == Done ==> Obtained(old(Snap()), Snap(), b, Mapped, offset, Cut(offset, length))
      ensures r == Done ==> (Shows(m.Snapshot(), file, offset, Cut(offset, length), v, at) <==> !Misses(bcb[b], offset, length))
    {
      hide Inv, Structure, SameFile, Shows, Anchored, Take, Covers, Counted, Obtainable;
      ghost var c := m.Snapshot();
      at, v, b := offset % GRANULARITY, 0, 0;
      var n := Cut(offset, length);
      var found := Find(offset, n, false);
      var got;
      got, broken := Obtain(found, offset, n, Mapped, failures, memory);
      if got.None? {
        return Raised, b, v, at, broken;
      }
      b := got.value;
      if !resident {
        ghost var d := m.Snapshot();
        Unpin(b, Mapped);
        SameFileTrans(c, d, m.Snapshot());
        return WouldBlock, b, v, at, broken;
      }
      r, v := Done, bcb[b].vacb;
      CoveredShows(m.Snapshot(), file, bcb[b], offset, n);
    }

    /** CcPinRead (CcpPinData): as CcMapData, for pinned BCBs; the BCB's lock may be refused, and a
        caller may ask for an existing BCB only. */
    method Pin(offset: nat, length: nat, onlyExisting: bool, granted: bool, failures: nat, memory: bool, resident: bool)
      returns (r: Status, b: BcbId, v: VacbId, at: nat, broken: bool)
      requires Valid()
      modifies this, m
      ensures var none, obtainable := NoneCovers(old(Snap()), offset, Cut(offset, length), Pinned), Obtainable(old(m.Snapshot()), file, offset, failures);
              && r == (if none && !onlyExisting && !obtainable then Raised
                       else if (if none then !onlyExisting && memory else granted) && resident then Done else WouldBlock)
              && (broken <==> none && !onlyExisting && obtainable && !memory)
      ensures broken ==> !Structure(m.Snapshot())
      ensures !broken ==> Valid() && SameFile(old(m.Snapshot()), m.Snapshot())
      ensures r != Done ==> Snap() == old(Snap()).(next := next)
      ensures r == Done ==> Obtained(old(Snap()), Snap(), b, Pinned, offset, Cut(offset, length))
      ensures r == Done && onlyExisting ==> b in old(bcb)
      ensures r == Done ==> (Shows(m.Snapshot(), file, offset, Cut(offset, length), v, at) <==> !Misses(bcb[b], offset, length))
    {
      hide Inv, Structure, SameFile, Shows, Anchored, Take, Covers, Counted, Obtainable;
      ghost var c := m.Snapshot();
      NothingRead(c, file, offset);
      at, v, b := offset % GRANULARITY, 0, 0;
      var n := Cut(offset, length);
      var found := Find(offset, n, true);
      if (found.Some? && !granted) || (found.None? && onlyExisting) {
        return WouldBlock, b, v, at, false;
      }
      var got;
      got, broken := Obtain(found, offset, n, Pinned, failures, memory);
      if got.None? {
        return if broken then WouldBlock else Raised, b, v, at, broken;
      }
      b := got.value;
      if !resident {
        ghost var d := m.Snapshot();
        Unpin(b, Pinned);
        SameFileTrans(c, d, m.Snapshot());
        return WouldBlock, b, v, at, broken;
      }
      r, v := Done, bcb[b].vacb;
      CoveredShows(m.Snapshot(), file, bcb[b], offset, n);
    }

    /** CcPinMappedData: trades the caller's map token for a pin token. */
    method PinMapped(mapped: BcbId, offset: nat, length: nat, onlyExisting: bool, granted: bool, failures: nat, memory: bool, resident: bool)
      returns (r: Status, b: BcbId, broken: bool)
      requires Valid() && (mapped, Mapped) in tokens && mapped in bcb
      modifies this, m
      ensures var none, obtainable := NoneCovers(old(Snap()), offset, Cut(offset, length), Pinned), Obtainable(old(m.Snapshot()), file, offset, failures);
              && (r == Done <==> (if none then !onlyExisting && obtainable && memory else granted) && resident)
              && (broken <==> none && !onlyExisting && obtainable && !memory)
      ensures broken ==> !Structure(m.Snapshot())
      ensures !broken ==> Valid() && SameFile(old(m.Snapshot()), m.Snapshot())
      ensures r != Done ==> Snap() == old(Snap()).(next := next)
      ensures r == Done ==> b in bcb && b != mapped && Covers(bcb[b], offset, Cut(offset, length))
                            && tokens == old(tokens) + multiset{(b, Pinned)} - multiset{(mapped, Mapped)}
    {
      hide Inv, Structure, SameFile, Shows, Anchored, Covers, Misses, Take, Obtainable;
      ghost var c := m.Snapshot();
      assert Counted(Snap(), mapped);
      var v, at;
      r, b, v, at, broken := Pin(offset, length, onlyExisting, granted, failures, memory, resident);
      if r == Done {
        ghost var d := m.Snapshot();
        assert Counted(Snap(), b) && Counted(Snap(), mapped);
        TakeSpares(Snap(), mapped, Mapped, b);
        Unpin(mapped, Mapped);
        SameFileTrans(c, d, m.Snapshot());
      }
    }

    /** A client writes through its pin and calls CcSetDirtyPinnedData: the file has the write and
        the view is on the dirty list, while pins and references stay as they are. */
    method WritePinned(b: BcbId, at: nat, bytes: seq<Byte>)
      requires Valid() && (b, Pinned) in tokens && b in bcb && at + |bytes| <= bcb[b].length
      modifies m
      ensures Valid()
      ensures Wrote(old(m.Snapshot()), m.Snapshot(), [Write(file, bcb[b].offset + at, bytes)])
      ensures bcb[b].vacb in m.dirty && m.Snapshot().h.lost == old(m.Snapshot().h.lost) && Abandoning(old(m.Snapshot()), m.Snapshot(), {})
    {
      hide Inv, Wrote, Abandoning, Anchored, BookOk, WriteView, MarkDirty, WriterDone;
      ghost var k, c := Snap(), m.Snapshot();
      OwnedView(k, c, file, b);
      PinnedWrite(k, c, file, b, at, bytes);
      m.CopyInto(bcb[b].vacb, bcb[b].offset % GRANULARITY + at, bytes);
      m.SetDirtyData(bcb[b].vacb);
    }
  }

  lemma SetDirtyFacts(w: Cache, v: VacbId) returns (d: Cache)
    requires Accounted(w, v)
    ensures d == WriterDone(if v in w.dirty then w else MarkDirty(w, v), v)
    ensures d.chunk == w.chunk && d.lists == w.lists && v in d.dirty
    ensures d.h.linked == w.h.linked && d.h.holds == w.h.holds && d.h.writers == w.h.writers - multiset{v}
    ensures d.h.initial == w.h.initial && d.h.writes == w.h.writes && d.h.lost == w.h.lost && d.h.unsaved <= w.h.unsaved
  {
    hide Without;
    d := WriterDone(if v in w.dirty then w else MarkDirty(w, v), v);
  }

  /** The write as the history has it, and that the BCBs stay anchored. */
  lemma PinnedWrite(k: Book, c: Cache, file: FileId, b: BcbId, at: nat, bytes: seq<Byte>)
    requires Inv(c) && BookOk(k) && Anchored(k, c, file) && b in k.bcb && at + |bytes| <= k.bcb[b].length
    requires c.h.writers[k.bcb[b].vacb] < c.h.holds[k.bcb[b].vacb]
    ensures var v, o := k.bcb[b].vacb, k.bcb[b].offset % GRANULARITY + at;
            Accounted(c, v) && v in c.data && ClientMay(c, CopyIn(v, o, bytes))
    ensures var v, o := k.bcb[b].vacb, k.bcb[b].offset % GRANULARITY + at;
            var w := WriteView(c, v, o, bytes);
            v in w.h.linked && Accounted(w, v)
    ensures var v, o := k.bcb[b].vacb, k.bcb[b].offset % GRANULARITY + at;
            var w := WriteView(c, v, o, bytes);
            var d := WriterDone(if v in w.dirty then w else MarkDirty(w, v), v);
            && Wrote(c, d, [Write(file, k.bcb[b].offset + at, bytes)]) && v in d.dirty
            && Anchored(k, d, file) && d.lists == c.lists && d.h.lost == c.h.lost && Abandoning(c, d, {})
  {
    hide CleanOk, Coherent, Owned, Splice, MarkDirty, WriterDone, Counted;
    LinkedFacts(c, k.bcb[b].vacb);
    var d := SetDirtyFacts(WriteView(c, k.bcb[b].vacb, k.bcb[b].offset % GRANULARITY + at, bytes), k.bcb[b].vacb);
    assert c.h.writers + multiset{k.bcb[b].vacb} - multiset{k.bcb[b].vacb} == c.h.writers;
  }

  /** The count of a view goes down without anyone giving a reference back. */
  function Slip(c: Cache, v: VacbId): (d: Cache)
    requires v in c.refs
  {
    Unhold(c, v).(h := c.h)
  }

  /** A view that nobody uses is freed while it is on its file's list, and the count of any other is
      one too low. */
  lemma SecondReleaseBreaks(c: Cache, v: VacbId)
    requires Inv(c) && v in c.h.linked
    ensures Accounted(c, v) && !Structure(Slip(c, v))
    ensures v !in Slip(c, v).refs <==> v !in c.dirty && c.h.holds[v] == 0
    ensures v in Slip(c, v).refs ==> Slip(c, v).refs[v] == One(v in c.h.linked) + One(v in c.dirty) + c.h.holds[v] - 1
  {
    hide CleanOk, Coherent;
    LinkedFacts(c, v);
    assert PartOk(Refs, c);
    if v in Slip(c, v).refs {
      assert !PartOk(Refs, Slip(c, v));
    } else {
      assert !PartOk(Alloc, Slip(c, v));
    }
  }

  lemma UnreservedRelease(c: Cache, v: VacbId)
    requires Inv(c) && Releasable(c, v, false)
    ensures Accounted(c, v) && v in Release(c, v, false).refs
    ensures var d := Release(c, v, false);
            d.h == c.h.(holds := c.h.holds - multiset{v}) && d.lists == c.lists && Inv(d)
  {
    hide Inv;
    ReleaseFacts(c, v);
  }

  lemma AddIs(k: Book, offset: nat, n: nat, v: VacbId, t: Token)
    ensures Add(k, offset, n, v, t) == Book(k.list + [k.next], k.bcb[k.next := Bump(Bcb(offset, n, v, 0, 0), t, 1)], k.next + 1,
                                            k.tokens + multiset{(k.next, t)}, k.spare)
  {
  }

  /** A flush leaves the BCBs' views alone. */
  lemma FlushAnchored(k: Book, c: Cache, d: Cache, file: FileId)
    requires BookOk(k) && Anchored(k, c, file) && SameWrites(c, d)
    ensures Anchored(k, d, file) && d.lists.Keys == c.lists.Keys && d.h.writes == c.h.writes
  {
    hide Counted, Owned;
  }

  lemma FlushAbandons(c: Cache, d: Cache)
    requires SameWrites(c, d)
    ensures Abandoning(c, d, {})
  {
  }

  lemma SameStore(c0: Cache, c: Cache, d: Cache, file: FileId, start: nat, end: nat)
    requires SameFile(c, d) && d.store == c.store
    ensures d.h.writes == c.h.writes && (DurableTo(c0, c, file, start, end) ==> DurableTo(c0, d, file, start, end))
    ensures (SameFile(c0, c) ==> SameFile(c0, d) && Abandoning(c0, d, {})) && (Abandoning(c0, c, {}) ==> Abandoning(c0, d, {}))
  {
    hide FlatByte, Quiet, Stored;
    if DurableTo(c0, c, file, start, end) {
      forall o: nat | start <= o < end && Quiet(c0, Chunk(file, RoundDown(o)))
        ensures Durable(d, file, o)
      {
        assert Durable(c, file, o);
      }
    }
  }

  ghost predicate NoneCovers(k: Book, offset: nat, n: nat, t: Token) {
    forall x :: x in k.bcb ==> !(Covers(k.bcb[x], offset, n) && (t.Pinned? <==> k.bcb[x].pinCount > 0))
  }

  lemma TakeSpares(k: Book, b: BcbId, t: Token, x: BcbId)
    requires b in k.bcb && x in k.bcb && x != b
    ensures var k' := Take(k, b, t); x in k'.bcb && k'.bcb[x] == k.bcb[x] && k'.tokens == k.tokens - multiset{(b, t)}
  {
  }

  /** Giving the token back restores the book. */
  ghost predicate Undone(k: Book, k': Book, b: BcbId, t: Token) {
    b in k'.bcb && Take(k', b, t) == k.(next := k'.next)
  }

  lemma GiveObtains(k: Book, b: BcbId, t: Token, offset: nat, n: nat)
    requires BookOk(k) && b in k.bcb && Covers(k.bcb[b], offset, n)
    ensures Obtained(k, Give(k, b, t), b, t, offset, n) && Undone(k, Give(k, b, t), b, t)
  {
    assert Counted(k, b);
    assert k.tokens + multiset{(b, t)} - multiset{(b, t)} == k.tokens;
    assert Bump(Bump(k.bcb[b], t, 1), t, -1) == k.bcb[b];
    assert Give(k, b, t).bcb[b := k.bcb[b]] == k.bcb;
  }

  lemma AddObtains(k: Book, t: Token, offset: nat, n: nat, v: VacbId)
    requires BookOk(k) && NoneCovers(k, offset, n, t)
    ensures Obtained(k, Add(k, offset, n, v, t), k.next, t, offset, n) && Undone(k, Add(k, offset, n, v, t), k.next, t)
  {
    var k' := Add(k, offset, n, v, t);
    assert k.next !in k.bcb && k.next !in k.list;
    WithoutLast(k.list, k.next);
    assert k.tokens + multiset{(k.next, t)} - multiset{(k.next, t)} == k.tokens;
    assert k'.bcb - {k.next} == k.bcb;
  }

  lemma {:induction false} WithoutLast(list: seq<BcbId>, b: BcbId)
    requires b !in list
    ensures Without(list + [b], b) == list
  {
    if list == [] {
      assert list + [b] == [b] && [b][1..] == [];
    } else {
      WithoutLast(list[1..], b);
      assert (list + [b])[1..] == list[1..] + [b];
    }
  }

  lemma AnchoredInside(k: Book, c: Cache, file: FileId, b: BcbId)
    requires (forall x :: x in k.list ==> x in k.bcb) && Anchored(k, c, file) && b in k.bcb
    ensures Inside(k.bcb[b], c, file)
  {
  }

  /** What is left of a length up to the end of the offset's chunk. */
  function Cut(offset: nat, length: nat): (n: nat)
    ensures offset % GRANULARITY + n <= GRANULARITY && n <= length && (n == 0 <==> length == 0)
  {
    if offset % GRANULARITY + length > GRANULARITY then GRANULARITY - offset % GRANULARITY else length
  }

  /** One more token for a BCB that covers the range, which is new if none of its kind did. */
  ghost predicate Obtained(k: Book, k': Book, b: BcbId, t: Token, offset: nat, n: nat) {
    && b in k'.bcb && Covers(k'.bcb[b], offset, n) && k'.tokens == k.tokens + multiset{(b, t)}
    && (forall x :: x in k.bcb && x != b ==> x in k'.bcb && k'.bcb[x] == k.bcb[x])
    && (b !in k.bcb ==> k'.bcb[b].offset == offset && k'.bcb[b].length == n
                        && NoneCovers(k, offset, n, t))
  }

  lemma SameLists(c: Cache, d: Cache)
    requires SameFile(c, d)
    ensures d.lists.Keys == c.lists.Keys
  {
  }

  lemma ReleaseSameFile(c: Cache, v: VacbId)
    requires Accounted(c, v)
    ensures SameFile(c, Release(c, v, false))
  {
  }

  lemma WritersBelowHolds(c: Cache)
    requires Inv(c)
    ensures c.h.writers <= c.h.holds
  {
    assert PartOk(Writers, c);
  }
}
