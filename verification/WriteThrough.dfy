/** CcCopyWrite as a whole: a write through a file object that asks for write-through is flushed
    before the call returns. */
module WriteThrough {
  import opened Collections
  import opened CacheState
  import opened CacheManager
  import opened CacheCopy
  import opened FlushRange

  /** The byte the store has at an offset. */
  function OnDisk(store: map<Chunk, View>, file: FileId, o: nat): (b: Byte) {
    Stored(store, Chunk(file, RoundDown(o)))[o - RoundDown(o)]
  }

  /** The last write is what the flat file shows of its range. */
  lemma LastWriteShows(c: Cache, before: seq<Write>, file: FileId, offset: nat, bytes: seq<Byte>, o: nat)
    requires SameFlat(c.h.initial, c.h.writes, before + [Write(file, offset, bytes)]) && offset <= o < offset + |bytes|
    ensures FlatByte(c.h.initial, c.h.writes, file, o) == bytes[o - offset]
  {
    FlatAppend(c.h.initial, before, Write(file, offset, bytes), file, o);
  }

  lemma FlushedThrough(c0: Cache, c: Cache, d: Cache, file: FileId, offset: nat, bytes: seq<Byte>)
    requires SameFlat(c0.h.initial, c.h.writes, c0.h.writes + [Write(file, offset, bytes)])
    requires c.h.initial == c0.h.initial && KeepsQuiet(c0, c) && SameWrites(c, d)
    requires DurableTo(c, d, file, offset, offset + |bytes|)
    ensures forall o: nat :: offset <= o < offset + |bytes| && Quiet(c0, Chunk(file, RoundDown(o))) ==>
              OnDisk(d.store, file, o) == bytes[o - offset]
  {
    hide FlatByte, Quiet, Stored;
    forall o: nat | offset <= o < offset + |bytes| && Quiet(c0, Chunk(file, RoundDown(o)))
      ensures OnDisk(d.store, file, o) == bytes[o - offset]
    {
      LastWriteShows(d, c0.h.writes, file, offset, bytes, o);
      assert Durable(d, file, o);
    }
  }

  /** CcCopyWrite. What the caller is told depends on the copying alone: `replies`, with which Mm
      answers the flush, have no say in it. The bytes are flushed exactly if Mm could write every
      chunk; then they are on disk, except where somebody else was in the middle of a write to the
      same chunk. */
  method WriteFile(m: Manager, file: FileId, offset: nat, bytes: seq<Byte>, writeThrough: bool,
                   script: seq<Answer>, replies: seq<Reply>, validData: nat)
    returns (status: Status, copied: nat, valid: nat, ghost flushed: bool)
    requires Inv(m.Snapshot()) && offset <= MAXLONGLONG && |bytes| <= 0xFFFF_FFFF
    modifies m
    ensures Inv(m.Snapshot()) && m.Snapshot().h.holds == old(m.Snapshot().h.holds)
    ensures m.Snapshot().h.initial == old(m.Snapshot().h.initial) && copied <= |bytes|
    ensures SameFlat(old(m.Snapshot().h.initial), m.Snapshot().h.writes,
                     old(m.Snapshot().h.writes) + [Write(file, offset, bytes[..copied])])
    ensures status == NotCached <==> file !in old(m.lists)
    ensures status == Done ==> copied == |bytes| && offset + |bytes| <= MAXLONGLONG
    ensures Abandoning(old(m.Snapshot()), m.Snapshot(), LastCopied(status, file, offset, copied))
    ensures file in old(m.lists) && offset + |bytes| > MAXLONGLONG ==> status == Raised
    ensures file in old(m.lists) && offset + |bytes| <= MAXLONGLONG ==>
              var all := Chunks(offset, offset + |bytes|);
              && (status == Done ==> AllFine(script, all))
              && (Roomy(script, 0, all, |UnusedOf(old(m.Snapshot()))|) ==> (status == Done <==> AllFine(script, all)))
    ensures flushed <==> writeThrough && status == Done
                         && forall i: nat :: i < Chunks(offset, offset + |bytes|) ==> ReplyAt(replies, i).ok
    ensures flushed ==> forall o: nat :: offset <= o < offset + |bytes| && Quiet(old(m.Snapshot()), Chunk(file, RoundDown(o))) ==>
              OnDisk(m.store, file, o) == bytes[o - offset]
    ensures flushed && bytes != [] ==> valid >= offset + |bytes|
  {
    hide Inv, SameFlat, Quiet, SameWrites, DurableTo, Information, Chunks, Roomy, UnusedOf, CleanIn, Routed, ReplyAt, Tiles, Abandoned;
    ghost var c0 := m.Snapshot();
    ghost var rounds;
    status, copied, rounds := CopyWrite(m, file, offset, bytes, script);
    valid, flushed := validData, false;
    if status == Done && writeThrough {
      ghost var c := m.Snapshot();
      assert bytes[..copied] == bytes;
      var verdict, pieces, information;
      ghost var upto;
      verdict, pieces, information, valid, upto := FlushCache(m, file, Some((offset, |bytes|)), 0, replies, validData);
      flushed := verdict == Success;
      Same(c, m.Snapshot());
      if flushed {
        FlushedThrough(c0, c, m.Snapshot(), file, offset, bytes);
      }
    }
  }

  /** A write-through write of one byte that is reported to have succeeded, while Mm could not write
      it: an answer of Mm that fails is enough. */
  method SucceedsUnflushed(torn: View) returns (status: Status, ghost flushed: bool)
    ensures status == Done && !flushed
  {
    var m := new Manager(map[], {0});
    var copied, valid;
    NeverRefusedIsRoomy([], 0, Chunks(0, 1), 0);
    assert Chunks(0, 1) == 1;
    var replies := [Reply(false, torn, 0)];
    assert !ReplyAt(replies, 0).ok;
    NothingUnused();
    status, copied, valid, flushed := WriteFile(m, 0, 0, [1], true, [], replies, 0);
  }

  lemma NothingUnused()
    ensures UnusedOf(Initial(map[], {0})) == {}
  {
  }

  lemma Same(c: Cache, d: Cache)
    requires SameWrites(c, d)
    ensures d.h.holds == c.h.holds && d.h.initial == c.h.initial && d.h.writes == c.h.writes
    ensures d.h.lost == c.h.lost && Abandoned(d) <= Abandoned(c)
  {
  }
}
