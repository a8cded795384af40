/** CcFlushCache: flushing a range of a file makes it durable. */
module FlushRange {
  import opened Collections
  import opened CacheState
  import opened CacheLists
  import opened CacheSteps
  import opened CacheFlush
  import opened CacheDrop
  import opened CacheEvents
  import opened CacheManager
  import opened CacheCopy

  /** How Mm answers one flush: whether it wrote everything, what it left on disk if not, and the
      number of bytes it reports. */
  datatype Reply = Reply(ok: bool, torn: View, info: nat)

  datatype Verdict = Success | Failure | Overflow | NoMap

  function ReplyAt(script: seq<Reply>, i: nat): (r: Reply) {
    if i < |script| then script[i] else Reply(true, ZeroView(), 0)
  }

  /** The byte on disk is the byte of the flat file. */
  ghost predicate Durable(c: Cache, file: FileId, o: nat) {
    Stored(c.store, Chunk(file, RoundDown(o)))[o - RoundDown(o)] == FlatByte(c.h.initial, c.h.writes, file, o)
  }

  /** What flushing leaves alone. */
  ghost predicate SameWrites(c: Cache, d: Cache) {
    && d.h.initial == c.h.initial && d.h.writes == c.h.writes && d.h.lost == c.h.lost
    && d.h.holds == c.h.holds && d.h.writers == c.h.writers && d.h.unsaved <= c.h.unsaved && d.lists.Keys == c.lists.Keys
    && d.h.linked == c.h.linked && d.chunk == c.chunk
  }

  /** Every byte of the range that was quiet at the outset is on disk. */
  ghost predicate DurableTo(c0: Cache, c: Cache, file: FileId, start: nat, end: nat) {
    forall o: nat :: start <= o < end && Quiet(c0, Chunk(file, RoundDown(o))) ==> Durable(c, file, o)
  }

  lemma StaysQuiet(c: Cache, d: Cache, k: Chunk)
    requires SameWrites(c, d) && Quiet(c, k)
    ensures Quiet(d, k)
  {
  }

  lemma ViewDurable(c: Cache, v: VacbId, file: FileId, o: nat)
    requires CleanOk(c) && Coherent(c) && v in c.h.linked && v in c.chunk && v in c.data && v !in c.dirty
    requires c.chunk[v] == Chunk(file, RoundDown(o)) && Quiet(c, c.chunk[v])
    ensures Durable(c, file, o)
  {
  }

  lemma StoreDurable(c: Cache, file: FileId, o: nat)
    requires Coherent(c) && Quiet(c, Chunk(file, RoundDown(o))) && Uncovered(c, Chunk(file, RoundDown(o)))
    ensures Durable(c, file, o)
  {
  }

  /** With no dirty view of it, a quiet chunk is on disk. */
  lemma CleanIsDurable(c: Cache, file: FileId, o: nat)
    requires Inv(c) && Quiet(c, Chunk(file, RoundDown(o)))
    requires forall v :: v in c.dirty && v in c.chunk ==> c.chunk[v] != Chunk(file, RoundDown(o))
    ensures Durable(c, file, o)
  {
    hide Durable, CleanOk, Coherent, Quiet;
    assert PartOk(Alloc, c);
    if v :| v in c.h.linked && v in c.chunk && c.chunk[v] == Chunk(file, RoundDown(o)) {
      ViewDurable(c, v, file, o);
    } else {
      StoreDurable(c, file, o);
    }
  }

  // ------------------------------------------------------------- flushing one view

  ghost function Flushed(c: Cache, v: VacbId, r: Reply): (d: Cache)
    requires Accounted(c, v) && v in c.data
  {
    EndFlush(BeginFlush(c, v), v, r.ok, r.torn)
  }

  /** The view is dirty, and one of its references does not yet answer for bytes. */
  ghost predicate Flushable(c: Cache, v: VacbId) {
    v in c.dirty && c.h.writers[v] < c.h.holds[v]
  }

  lemma FlushAllowed(c: Cache, v: VacbId, r: Reply)
    requires Inv(c) && Flushable(c, v) && Accounted(c, v)
    ensures v in c.data && v in BeginFlush(c, v).h.writers && v !in BeginFlush(c, v).dirty
  {
    assert PartOk(Alloc, c);
  }

  /** CcRosFlushVacb, undisturbed. */
  method FlushView(m: Manager, v: VacbId, r: Reply)
    requires Inv(m.Snapshot()) && Flushable(m.Snapshot(), v)
    modifies m
    ensures old(Accounted(m.Snapshot(), v) && v in m.data)
    ensures m.Snapshot() == Flushed(old(m.Snapshot()), v, r) && Inv(m.Snapshot())
  {
    hide Inv;
    ghost var c := m.Snapshot();
    BeginFlushKeeps(c, v);
    FlushAllowed(c, v, r);
    m.Unmark(v);
    m.h := m.h.(writers := m.h.writers + multiset{v});
    assert m.Snapshot() == BeginFlush(c, v);
    EndFlushKeeps(m.Snapshot(), v, r.ok, r.torn);
    m.store := m.store[m.chunk[v] := if r.ok then m.data[v] else r.torn];
    if !r.ok {
      m.Mark(v);
    }
    m.h := m.h.(writers := m.h.writers - multiset{v});
  }

  lemma FlushedKeeps(c: Cache, v: VacbId, r: Reply)
    requires Inv(c) && Flushable(c, v)
    ensures Accounted(c, v) && v in c.data && Inv(Flushed(c, v, r))
  {
    hide Inv;
    BeginFlushKeeps(c, v);
    FlushAllowed(c, v, r);
    EndFlushKeeps(BeginFlush(c, v), v, r.ok, r.torn);
  }

  /** Only the chunk of the view changes on disk, and only the view can become clean. */
  lemma FlushedFacts(c: Cache, v: VacbId, r: Reply)
    requires Accounted(c, v) && v in c.data && v in c.dirty && c.h.writers[v] < c.h.holds[v] && v in c.h.linked
    ensures var d := Flushed(c, v, r);
            && SameWrites(c, d) && v in d.refs
            && (forall k :: k != c.chunk[v] ==> Stored(d.store, k) == Stored(c.store, k))
            && d.dirty == (if r.ok then c.dirty - {v} else c.dirty)
  {
    hide Without, BeginFlush, EndFlush;
    var b := BeginFacts(c, v);
    EndFacts(b, v, r);
    assert c.h.writers + multiset{v} - multiset{v} == c.h.writers;
  }

  lemma BeginFacts(c: Cache, v: VacbId) returns (b: Cache)
    requires Accounted(c, v)
    ensures b == BeginFlush(c, v) && b.dirty == c.dirty - {v} && Accounted(b, v)
    ensures b.chunk == c.chunk && b.lists == c.lists && b.store == c.store && b.data == c.data
    ensures b.h == c.h.(writers := c.h.writers + multiset{v})
  {
    hide Without;
    b := BeginFlush(c, v);
  }

  lemma EndFacts(b: Cache, v: VacbId, r: Reply)
    requires Accounted(b, v) && v in b.data
    ensures var d := EndFlush(b, v, r.ok, r.torn);
            && d.dirty == (if r.ok then b.dirty else b.dirty + {v}) && v in d.refs && d.chunk == b.chunk && d.lists == b.lists
            && (forall k :: k != b.chunk[v] ==> Stored(d.store, k) == Stored(b.store, k))
            && d.h.initial == b.h.initial && d.h.writes == b.h.writes && d.h.lost == b.h.lost && d.h.linked == b.h.linked
            && d.h.holds == b.h.holds && d.h.writers == b.h.writers - multiset{v} && d.h.unsaved <= b.h.unsaved
  {
    hide Without;
  }

  /** The chunk has a dirty view. */
  ghost predicate DirtyAt(c: Cache, k: Chunk) {
    exists v :: v in c.dirty && v in c.chunk && c.chunk[v] == k
  }

  ghost predicate SameDirtyBut(c: Cache, d: Cache, k: Chunk) {
    forall q: Chunk :: q != k ==> (DirtyAt(d, q) <==> DirtyAt(c, q))
  }

  lemma OnlyOneCleaned(c: Cache, d: Cache, v: VacbId, k: Chunk)
    requires v in c.chunk && c.chunk[v] == k && d.chunk == c.chunk && c.dirty - {v} <= d.dirty <= c.dirty
    ensures SameDirtyBut(c, d, k)
  {
    forall q: Chunk | q != k
      ensures DirtyAt(d, q) <==> DirtyAt(c, q)
    {
      if u :| u in c.dirty && u in c.chunk && c.chunk[u] == q {
        assert u in d.dirty;
      }
    }
  }

  /** After a piece: nothing else on disk has changed, no other chunk became clean or dirty, and on
      success the chunk is clean. */
  ghost predicate PieceDone(c: Cache, d: Cache, k: Chunk, ok: bool) {
    && Inv(d) && SameWrites(c, d) && SameDirtyBut(c, d, k)
    && (forall q :: q != k ==> Stored(d.store, q) == Stored(c.store, q))
    && (ok ==> forall v :: v in d.dirty && v in d.chunk ==> d.chunk[v] != k)
  }

  /** `v` is the one view of `k`, and one of its references is not answering for bytes. */
  ghost predicate Found(d: Cache, v: VacbId, k: Chunk) {
    && v in d.h.linked && v in d.chunk && d.chunk[v] == k && v in d.refs && d.h.writers[v] < d.h.holds[v]
    && forall u :: u in d.dirty && u in d.chunk && d.chunk[u] == k ==> u == v
  }

  lemma HeldView(c: Cache, file: FileId, offset: nat) returns (found: Option<VacbId>)
    requires Inv(c) && file in c.lists
    ensures found == Covering(c.lists[file], c.chunk, offset) && c.chunk.Keys == c.refs.Keys
    ensures found.None? ==> AfterLookup(c, file, offset) == c && PieceDone(c, c, Chunk(file, RoundDown(offset)), true)
    ensures found.Some? ==> found.value in c.refs && AfterLookup(c, file, offset) == Hold(c, found.value)
    ensures found.Some? ==> Found(Hold(c, found.value), found.value, Chunk(file, RoundDown(offset)))
    ensures DirtyAt(c, Chunk(file, RoundDown(offset))) <==> found.Some? && found.value in c.dirty
  {
    hide CleanOk, Coherent, Covering;
    assert PartOk(Alloc, c) && PartOk(Index, c) && PartOk(Dirties, c);
    found := Covering(c.lists[file], c.chunk, offset);
    CoveringExact(c, file, offset);
    if found.Some? {
      WritersHeld(c, found.value);
      forall v | v in c.dirty && v in c.chunk && c.chunk[v] == Chunk(file, RoundDown(offset))
        ensures v == found.value
      {
        UniqueChunk(c, v, found.value);
      }
    }
  }

  lemma PieceReleased(c: Cache, d: Cache, v: VacbId, k: Chunk, ok: bool)
    requires Inv(d) && Found(d, v, k) && v in c.refs && SameWrites(Hold(c, v), d)
    requires forall q :: q != k ==> Stored(d.store, q) == Stored(c.store, q)
    requires c.dirty - {v} <= d.dirty <= c.dirty
    requires ok ==> v !in d.dirty
    ensures Accounted(d, v) && Releasable(d, v, false) && PieceDone(c, Release(d, v, false), k, ok)
  {
    hide Inv, SameDirtyBut;
    ReleaseKeeps(d, v, false);
    OnlyOneCleaned(c, Release(d, v, false), v, k);
  }

  lemma PieceFlushed(c: Cache, v: VacbId, k: Chunk, r: Reply)
    requires v in c.refs && Found(Hold(c, v), v, k) && v in c.dirty && Accounted(Hold(c, v), v) && v in c.data
    ensures var d := Flushed(Hold(c, v), v, r);
            && Found(d, v, k) && SameWrites(Hold(c, v), d) && (r.ok ==> v !in d.dirty) && c.dirty - {v} <= d.dirty <= c.dirty
            && (forall q :: q != k ==> Stored(d.store, q) == Stored(c.store, q))
  {
    hide Flushed;
    FlushedFacts(Hold(c, v), v, r);
  }

  /** One round of CcFlushCache: the dirty view of the chunk, if there is one; otherwise Mm is asked
      to flush the part of the range in the chunk. */
  method FlushPiece(m: Manager, file: FileId, offset: nat, r: Reply) returns (viaView: bool)
    requires Inv(m.Snapshot()) && file in m.lists
    modifies m
    ensures PieceDone(old(m.Snapshot()), m.Snapshot(), Chunk(file, RoundDown(offset)), r.ok)
    ensures viaView <==> DirtyAt(old(m.Snapshot()), Chunk(file, RoundDown(offset)))
  {
    hide Inv, SameWrites, SameDirtyBut, Release, Flushed, AfterLookup, DirtyAt;
    ghost var c, k := m.Snapshot(), Chunk(file, RoundDown(offset));
    ghost var found := HeldView(c, file, offset);
    var got := m.Lookup(file, offset);
    viaView := false;
    if got.Some? {
      var v := got.value;
      if v in m.dirty {
        viaView := true;
        FlushView(m, v, r);
        PieceFlushed(c, v, k, r);
        PieceReleased(c, m.Snapshot(), v, k, r.ok);
      } else {
        NothingFlushed(Hold(c, v));
        PieceReleased(c, m.Snapshot(), v, k, true);
      }
      m.Release(v, false);
    }
  }

  lemma NothingFlushed(c: Cache)
    ensures SameWrites(c, c)
  {
  }

  // ------------------------------------------------------------- flushing a range

  lemma {:induction false} PieceIsDurable(c0: Cache, c: Cache, d: Cache, file: FileId, start: nat, current: nat, next: nat)
    requires PieceDone(c, d, Chunk(file, RoundDown(current)), true) && SameWrites(c0, d)
    requires DurableTo(c0, c, file, start, current) && next <= RoundDown(current) + GRANULARITY
    ensures DurableTo(c0, d, file, start, next)
  {
    hide Inv, FlatByte, Quiet;
    forall o: nat | start <= o < next && Quiet(c0, Chunk(file, RoundDown(o)))
      ensures Durable(d, file, o)
    {
      if RoundDown(o) == RoundDown(current) {
        StaysQuiet(c0, d, Chunk(file, RoundDown(o)));
        CleanIsDurable(d, file, o);
      } else {
        assert Durable(c, file, o);
      }
    }
  }

  /** A round's part of the range, and whether a view was written rather than Mm asked. */
  datatype Piece = Piece(offset: nat, length: nat, viaView: bool)

  /** The pieces cover [start, end) without gap or overlap, one for each chunk. */
  ghost predicate Tiles(pieces: seq<Piece>, start: nat, end: nat) {
    if pieces == [] then start == end
    else
      var p := pieces[|pieces| - 1];
      && p.offset + p.length == end && 0 < p.length && RoundDown(p.offset) == RoundDown(p.offset + p.length - 1)
      && (p.offset == start || Aligned(p.offset))
      && Tiles(pieces[..|pieces| - 1], start, p.offset)
  }

  lemma TilesGrow(pieces: seq<Piece>, start: nat, p: Piece)
    requires Tiles(pieces, start, p.offset) && 0 < p.length && p.offset + p.length <= RoundDown(p.offset) + GRANULARITY
    requires p.offset == start || Aligned(p.offset)
    ensures Tiles(pieces + [p], start, p.offset + p.length)
  {
  }

  /** A failing round leaves the chunks before its own as they are. */
  lemma FailureStaysDurable(c0: Cache, c: Cache, d: Cache, file: FileId, start: nat, current: nat)
    requires PieceDone(c, d, Chunk(file, RoundDown(current)), false)
    requires DurableTo(c0, c, file, start, current) && (current == start || current % GRANULARITY == 0)
    ensures DurableTo(c0, d, file, start, current)
  {
    hide Inv, FlatByte, Quiet;
    forall o: nat | start <= o < current && Quiet(c0, Chunk(file, RoundDown(o)))
      ensures Durable(d, file, o)
    {
      assert Durable(c, file, o);
    }
  }

  // ------------------------------------------------------------- the length of valid data

  function Max(a: nat, b: nat): (m: nat) {
    if a < b then b else a
  }

  /** ValidDataLength after the pieces: a view that was written raises it to its own end, a piece
      that Mm was asked for to the end of the whole range. */
  function Valid(length: nat, pieces: seq<Piece>, end: nat): (n: nat) {
    if pieces == [] then length
    else
      var p := pieces[|pieces| - 1];
      Max(Valid(length, pieces[..|pieces| - 1], end), if p.viaView then RoundDown(p.offset) + GRANULARITY else end)
  }

  lemma ValidGrows(length: nat, pieces: seq<Piece>, end: nat, p: Piece)
    ensures Valid(length, pieces + [p], end)
         == Max(Valid(length, pieces, end), if p.viaView then RoundDown(p.offset) + GRANULARITY else end)
  {
    assert (pieces + [p])[..|pieces|] == pieces;
  }

  /** It covers what was flushed. */
  lemma ValidCovers(length: nat, pieces: seq<Piece>, start: nat, upto: nat, end: nat)
    requires Tiles(pieces, start, upto) && upto <= end && pieces != []
    ensures Valid(length, pieces, end) >= upto
  {
  }

  /** Pieces are written through their view exactly if it was dirty in `c`. */
  ghost predicate Routed(c: Cache, file: FileId, pieces: seq<Piece>) {
    forall p :: p in pieces ==> (p.viaView <==> DirtyAt(c, Chunk(file, RoundDown(p.offset))))
  }

  /** A chunk of the range has no dirty view. */
  ghost predicate CleanIn(c: Cache, file: FileId, start: nat, end: nat) {
    exists o: nat :: start <= o < end && !DirtyAt(c, Chunk(file, RoundDown(o)))
  }

  /** One piece more: one chunk more. */
  lemma CleanGrows(c: Cache, file: FileId, start: nat, p: Piece)
    requires start <= p.offset && 0 < p.length && p.offset + p.length <= RoundDown(p.offset) + GRANULARITY
    ensures CleanIn(c, file, start, p.offset + p.length)
       <==> CleanIn(c, file, start, p.offset) || !DirtyAt(c, Chunk(file, RoundDown(p.offset)))
  {
    hide DirtyAt;
    if o: nat :| start <= o < p.offset + p.length && !DirtyAt(c, Chunk(file, RoundDown(o))) {
      if o >= p.offset {
        SameChunk(RoundDown(p.offset), o - RoundDown(p.offset));
      }
    }
    if !DirtyAt(c, Chunk(file, RoundDown(p.offset))) {
      assert start <= p.offset < p.offset + p.length;
    }
  }

  /** What a flush makes of ValidDataLength that breaks off at `upto`, before `end`: the whole range
      is said to be valid exactly if one of the chunks flushed had no dirty view at the call. */
  lemma {:induction false} ValidWhenBroken(c: Cache, file: FileId, length: nat, pieces: seq<Piece>, start: nat, upto: nat, end: nat)
    requires Tiles(pieces, start, upto) && Routed(c, file, pieces) && upto <= end && (upto == start || Aligned(upto))
    ensures start <= upto
    ensures Valid(length, pieces, end)
         == Max(length, if CleanIn(c, file, start, upto) then end else if upto > start then upto else 0)
  {
    hide DirtyAt, CleanIn;
    if pieces == [] {
      NoneClean(c, file, start);
    } else {
      var rest, p := pieces[..|pieces| - 1], pieces[|pieces| - 1];
      assert pieces == rest + [p] && p in pieces;
      assert Routed(c, file, rest);
      ValidWhenBroken(c, file, length, rest, start, p.offset, end);
      PieceEnds(p);
      CleanGrows(c, file, start, p);
    }
  }

  lemma NoneClean(c: Cache, file: FileId, start: nat)
    ensures !CleanIn(c, file, start, start)
  {
  }

  /** A piece that ends on a chunk's border ends its chunk. */
  lemma PieceEnds(p: Piece)
    requires 0 < p.length && RoundDown(p.offset) == RoundDown(p.offset + p.length - 1)
    ensures p.offset + p.length <= RoundDown(p.offset) + GRANULARITY
    ensures Aligned(p.offset + p.length) ==> p.offset + p.length == RoundDown(p.offset) + GRANULARITY
  {
  }

  /** So it runs ahead of what was flushed, and of what it was, exactly in that case. */
  lemma ValidRunsAhead(c: Cache, file: FileId, length: nat, pieces: seq<Piece>, start: nat, upto: nat, end: nat)
    requires Tiles(pieces, start, upto) && Routed(c, file, pieces) && upto < end && (upto == start || Aligned(upto))
    ensures Valid(length, pieces, end) > Max(length, upto) <==> CleanIn(c, file, start, upto) && length < end
  {
    ValidWhenBroken(c, file, length, pieces, start, upto, end);
    if upto == start {
      NoneClean(c, file, start);
    }
  }

  lemma {:induction false} TilesCount(pieces: seq<Piece>, start: nat, upto: nat)
    requires Tiles(pieces, start, upto)
    ensures start <= upto && |pieces| == Chunks(start, upto)
  {
    hide Chunks;
    if pieces == [] {
      NoChunks(start);
    } else {
      var p := pieces[|pieces| - 1];
      TilesCount(pieces[..|pieces| - 1], start, p.offset);
      PieceEnds(p);
      ChunksStep(start, p.offset, upto);
    }
  }

  lemma NoChunks(start: nat)
    ensures Chunks(start, start) == 0
  {
  }

  /** The bytes Mm reported in the first `n` rounds. */
  function Information(script: seq<Reply>, n: nat): (sum: nat) {
    if n == 0 then 0 else Information(script, n - 1) + ReplyAt(script, n - 1).info
  }

  /** The length CcFlushCache asks Mm for ends at the end of the range or of the chunk. */
  function MmLength(current: nat, end: nat): (n: nat)
    requires current < end
    ensures n == Min(end, RoundDown(current) + GRANULARITY) - current && n > 0
  {
    if end - end % GRANULARITY <= current then end - current else GRANULARITY - current % GRANULARITY
  }

  /** The next round starts at the next chunk; there is no room for one only behind the last chunk
      that a LONGLONG can address, which the range does not reach beyond. */
  lemma NextRound(current: nat, end: nat)
    requires current < end <= MAXLONGLONG
    ensures current + GRANULARITY > MAXLONGLONG ==> current + MmLength(current, end) == end
    ensures Aligned(RoundDown(current + GRANULARITY)) && current + MmLength(current, end) <= RoundDown(current) + GRANULARITY
    ensures current < RoundDown(current + GRANULARITY) && Min(RoundDown(current + GRANULARITY), end) == current + MmLength(current, end)
  {
  }

  /** The range a call means: what it asks for, or the whole file. */
  function From(range: Option<(nat, nat)>): (start: nat) {
    if range.Some? then range.value.0 else 0
  }

  function To(range: Option<(nat, nat)>, fileSize: nat): (end: nat) {
    if range.Some? then range.value.0 + range.value.1 else fileSize
  }

  /** No chunk that ends behind `upto` has become clean or dirty. */
  ghost predicate SameDirtyFrom(c0: Cache, c: Cache, upto: nat) {
    forall q: Chunk :: q.base + GRANULARITY > upto ==> (DirtyAt(c, q) <==> DirtyAt(c0, q))
  }

  lemma SameDirtyGoesOn(c0: Cache, c: Cache, d: Cache, k: Chunk, current: nat, next: nat)
    requires SameDirtyFrom(c0, c, current) && SameDirtyBut(c, d, k) && k.base + GRANULARITY <= next && current <= next
    ensures SameDirtyFrom(c0, d, next)
  {
    hide DirtyAt;
  }

  /** What the rounds so far have done; `upto` is where they got. */
  ghost predicate Progress(c0: Cache, c: Cache, file: FileId, start: nat, upto: nat, pieces: seq<Piece>) {
    && Inv(c) && SameWrites(c0, c) && Tiles(pieces, start, upto) && DurableTo(c0, c, file, start, upto)
    && Routed(c0, file, pieces)
  }

  /** What the caller is told of them. */
  ghost predicate Told(script: seq<Reply>, pieces: seq<Piece>, information: nat, validData: nat, valid: nat, end: nat) {
    && (forall i :: 0 <= i < |pieces| ==> ReplyAt(script, i).ok)
    && information == Information(script, |pieces|) && valid == Valid(validData, pieces, end)
  }

  lemma ToldMore(script: seq<Reply>, pieces: seq<Piece>, information: nat, validData: nat, valid: nat, end: nat, p: Piece)
    requires Told(script, pieces, information, validData, valid, end) && ReplyAt(script, |pieces|).ok
    ensures Told(script, pieces + [p], information + ReplyAt(script, |pieces|).info, validData,
                 Max(valid, if p.viaView then RoundDown(p.offset) + GRANULARITY else end), end)
  {
    ValidGrows(validData, pieces, end, p);
  }

  lemma ToldStarts(script: seq<Reply>, validData: nat, end: nat)
    ensures Told(script, [], 0, validData, validData, end)
  {
  }

  lemma ToldIs(script: seq<Reply>, pieces: seq<Piece>, information: nat, validData: nat, valid: nat, end: nat)
    requires Told(script, pieces, information, validData, valid, end)
    ensures forall i :: 0 <= i < |pieces| ==> ReplyAt(script, i).ok
    ensures information == Information(script, |pieces|) && valid == Valid(validData, pieces, end)
  {
  }

  lemma ProgressFails(c0: Cache, c: Cache, d: Cache, file: FileId, start: nat, current: nat, pieces: seq<Piece>)
    requires Progress(c0, c, file, start, current, pieces) && PieceDone(c, d, Chunk(file, RoundDown(current)), false)
    requires current == start || Aligned(current)
    ensures Progress(c0, d, file, start, current, pieces)
  {
    hide Inv, DurableTo, Tiles, SameDirtyBut, Routed;
    FailureStaysDurable(c0, c, d, file, start, current);
  }

  lemma ProgressGoesOn(c0: Cache, c: Cache, d: Cache, file: FileId, start: nat, pieces: seq<Piece>, p: Piece)
    requires Progress(c0, c, file, start, p.offset, pieces) && PieceDone(c, d, Chunk(file, RoundDown(p.offset)), true)
    requires 0 < p.length && p.offset + p.length <= RoundDown(p.offset) + GRANULARITY && (p.offset == start || Aligned(p.offset))
    requires p.viaView <==> DirtyAt(c0, Chunk(file, RoundDown(p.offset)))
    ensures Progress(c0, d, file, start, p.offset + p.length, pieces + [p]) && d.lists.Keys == c.lists.Keys
  {
    hide Inv, DurableTo, Tiles, SameDirtyBut, DirtyAt;
    PieceIsDurable(c0, c, d, file, start, p.offset, p.offset + p.length);
    TilesGrow(pieces, start, p);
  }

  lemma NothingCleaned(c: Cache, start: nat)
    ensures SameDirtyFrom(c, c, start)
  {
  }

  lemma StillDirty(c0: Cache, c: Cache, file: FileId, current: nat)
    requires SameDirtyFrom(c0, c, current)
    ensures DirtyAt(c, Chunk(file, RoundDown(current))) <==> DirtyAt(c0, Chunk(file, RoundDown(current)))
  {
    hide DirtyAt;
  }

  lemma DirtyRound(c0: Cache, c: Cache, d: Cache, file: FileId, current: nat)
    requires SameDirtyFrom(c0, c, current) && PieceDone(c, d, Chunk(file, RoundDown(current)), true)
    ensures SameDirtyFrom(c0, d, RoundDown(current + GRANULARITY))
  {
    hide DirtyAt, SameDirtyFrom, SameDirtyBut, Inv;
    assert RoundDown(current + GRANULARITY) == RoundDown(current) + GRANULARITY;
    SameDirtyGoesOn(c0, c, d, Chunk(file, RoundDown(current)), current, RoundDown(current + GRANULARITY));
  }

  lemma ProgressStarts(c: Cache, file: FileId, start: nat)
    requires Inv(c)
    ensures Progress(c, c, file, start, start, [])
  {
  }

  lemma ProgressIs(c0: Cache, c: Cache, file: FileId, start: nat, upto: nat, pieces: seq<Piece>)
    requires Progress(c0, c, file, start, upto, pieces)
    ensures Inv(c) && SameWrites(c0, c) && Tiles(pieces, start, upto) && DurableTo(c0, c, file, start, upto)
    ensures Routed(c0, file, pieces)
  {
  }

  /** Before a round at `current`. */
  ghost predicate Round(c0: Cache, c: Cache, file: FileId, start: nat, current: nat, end: nat, pieces: seq<Piece>) {
    && start <= end && start <= current && (current == start || Aligned(current))
    && SameDirtyFrom(c0, c, current) && Progress(c0, c, file, start, if current < end then current else end, pieces)
  }

  lemma RoundStarts(c: Cache, file: FileId, start: nat, end: nat)
    requires Inv(c) && start <= end
    ensures Round(c, c, file, start, start, end, [])
  {
    ProgressStarts(c, file, start);
    NothingCleaned(c, start);
  }

  lemma RoundIs(c0: Cache, c: Cache, file: FileId, start: nat, current: nat, end: nat, pieces: seq<Piece>)
    requires Round(c0, c, file, start, current, end, pieces)
    ensures Inv(c) && start <= current && (current == start || Aligned(current))
    ensures Progress(c0, c, file, start, if current < end then current else end, pieces)
  {
  }

  lemma RoundFails(c0: Cache, c: Cache, d: Cache, file: FileId, start: nat, current: nat, end: nat, pieces: seq<Piece>)
    requires Round(c0, c, file, start, current, end, pieces) && current < end
    requires PieceDone(c, d, Chunk(file, RoundDown(current)), false)
    ensures Progress(c0, d, file, start, current, pieces)
  {
    hide Progress, PieceDone;
    ProgressFails(c0, c, d, file, start, current, pieces);
  }

  lemma RoundGoesOn(c0: Cache, c: Cache, d: Cache, file: FileId, start: nat, current: nat, end: nat, pieces: seq<Piece>, viaView: bool)
    requires Round(c0, c, file, start, current, end, pieces) && current < end <= MAXLONGLONG
    requires PieceDone(c, d, Chunk(file, RoundDown(current)), true) && (viaView <==> DirtyAt(c, Chunk(file, RoundDown(current))))
    ensures var p := Piece(current, MmLength(current, end), viaView);
            && Round(c0, d, file, start, RoundDown(current + GRANULARITY), end, pieces + [p]) && d.lists.Keys == c.lists.Keys
            && Progress(c0, d, file, start, current + p.length, pieces + [p])
  {
    hide Progress, PieceDone, MmLength, Aligned, DirtyAt, SameDirtyFrom, RoundDown;
    var p := Piece(current, MmLength(current, end), viaView);
    NextRound(current, end);
    StillDirty(c0, c, file, current);
    DirtyRound(c0, c, d, file, current);
    ProgressGoesOn(c0, c, d, file, start, pieces, p);
  }

  /** The rounds of CcFlushCache. */
  method FlushRounds(m: Manager, file: FileId, start: nat, end: nat, script: seq<Reply>, validData: nat)
    returns (ok: bool, pieces: seq<Piece>, information: nat, valid: nat, ghost upto: nat)
    requires Inv(m.Snapshot()) && file in m.lists && start <= end <= MAXLONGLONG
    modifies m
    ensures start <= upto <= end && Progress(old(m.Snapshot()), m.Snapshot(), file, start, upto, pieces)
    ensures Told(script, pieces, information, validData, valid, end)
    ensures ok ==> upto == end && (start < end ==> pieces != [])
    ensures !ok ==> !ReplyAt(script, |pieces|).ok && upto < end && (upto == start || Aligned(upto))
  {
    hide Inv, PieceDone, RoundDown, MmLength, Progress, Told, Aligned, ReplyAt, DirtyAt, Round;
    ghost var c0 := m.Snapshot();
    pieces, information, valid, upto := [], 0, validData, start;
    RoundStarts(c0, file, start, end);
    ToldStarts(script, validData, end);
    var current := start;
    while current < end
      invariant Round(c0, m.Snapshot(), file, start, current, end, pieces) && file in m.lists && start <= upto == Min(current, end)
      invariant Told(script, pieces, information, validData, valid, end) && (pieces == [] ==> current == start)
      decreases end - current
    {
      ghost var c := m.Snapshot();
      var r, n := ReplyAt(script, |pieces|), MmLength(current, end);
      NextRound(current, end);
      RoundIs(c0, c, file, start, current, end, pieces);
      var viaView := FlushPiece(m, file, current, r);
      if !r.ok {
        RoundFails(c0, c, m.Snapshot(), file, start, current, end, pieces);
        return false, pieces, information, valid, upto;
      }
      var p := Piece(current, n, viaView);
      RoundGoesOn(c0, c, m.Snapshot(), file, start, current, end, pieces, viaView);
      ToldMore(script, pieces, information, validData, valid, end, p);
      valid := Max(valid, if viaView then RoundDown(current) + GRANULARITY else end);
      pieces, upto, information := pieces + [p], current + n, information + r.info;
      if current + GRANULARITY > MAXLONGLONG {
        return true, pieces, information, valid, upto;
      }
      current := RoundDown(current + GRANULARITY);
    }
    RoundIs(c0, m.Snapshot(), file, start, current, end, pieces);
    ok := true;
  }

  /** CcFlushCache. It works through the range chunk by chunk, also where the next chunk would lie
      beyond the largest LONGLONG. As far as it gets, and after a successful call that is the whole
      range, every byte is on disk, unless somebody was in the middle of a write to its chunk. */
  method FlushCache(m: Manager, file: FileId, range: Option<(nat, nat)>, fileSize: nat, script: seq<Reply>, validData: nat)
    returns (verdict: Verdict, pieces: seq<Piece>, information: nat, valid: nat, ghost upto: nat)
    requires Inv(m.Snapshot()) && fileSize <= MAXLONGLONG
    requires range.Some? ==> range.value.0 <= MAXLONGLONG && range.value.1 <= 0xFFFF_FFFF
    modifies m
    ensures Inv(m.Snapshot()) && SameWrites(old(m.Snapshot()), m.Snapshot())
    ensures verdict == NoMap <==> file !in old(m.lists)
    ensures verdict == Overflow <==> file in old(m.lists) && range.Some? && range.value.0 + range.value.1 > MAXLONGLONG
    ensures From(range) <= upto <= To(range, fileSize) && (verdict == Success ==> upto == To(range, fileSize))
    ensures Tiles(pieces, From(range), upto) && DurableTo(old(m.Snapshot()), m.Snapshot(), file, From(range), upto)
    ensures forall i :: 0 <= i < |pieces| ==> ReplyAt(script, i).ok
    ensures verdict == Failure ==> !ReplyAt(script, |pieces|).ok && upto < To(range, fileSize) && (upto == From(range) || Aligned(upto))
    ensures |pieces| == Chunks(From(range), upto) && Routed(old(m.Snapshot()), file, pieces)
    ensures verdict == Success <==>
              && file in old(m.lists) && (range.Some? ==> range.value.0 + range.value.1 <= MAXLONGLONG)
              && forall i: nat :: i < Chunks(From(range), To(range, fileSize)) ==> ReplyAt(script, i).ok
    ensures information == Information(script, |pieces|)
    ensures verdict == Success && From(range) < To(range, fileSize) ==> valid >= To(range, fileSize)
    ensures verdict != Success ==>
              valid == Max(validData, if CleanIn(old(m.Snapshot()), file, From(range), upto) then To(range, fileSize)
                                      else if upto > From(range) then upto else 0)
  {
    hide Inv, SameWrites, DurableTo, Tiles, Valid, ReplyAt, Progress, Told, Information, Chunks, CleanIn, Routed, Aligned;
    ghost var c0 := m.Snapshot();
    var start, end := From(range), To(range, fileSize);
    pieces, information, valid, upto := [], 0, validData, start;
    ProgressStarts(c0, file, start);
    ToldStarts(script, validData, end);
    if file !in m.lists {
      verdict := NoMap;
    } else if range.Some? && range.value.0 + range.value.1 > MAXLONGLONG {
      verdict := Overflow;
    } else {
      var ok;
      ok, pieces, information, valid, upto := FlushRounds(m, file, start, end, script, validData);
      verdict := if ok then Success else Failure;
    }
    ProgressIs(c0, m.Snapshot(), file, start, upto, pieces);
    ToldIs(script, pieces, information, validData, valid, end);
    TilesCount(pieces, start, upto);
    if verdict != Success {
      ValidWhenBroken(c0, file, validData, pieces, start, upto, end);
    } else if start < end {
      ValidCovers(validData, pieces, start, end, end);
    }
    if verdict == Failure {
      ChunksStep(start, upto, end);
    }
  }

  /** A flush of two chunks without views, of which Mm can write the first: ValidDataLength then
      covers both. */
  method ValidBeyondFlushed(torn: View) returns (verdict: Verdict, valid: nat, ghost upto: nat)
    ensures verdict == Failure && upto == GRANULARITY && valid == 2 * GRANULARITY
  {
    var m := new Manager(map[], {0});
    var script := [Reply(true, torn, 0), Reply(false, torn, 0)];
    var pieces, information;
    assert Chunks(0, 2 * GRANULARITY) == 2 && !ReplyAt(script, 1).ok;
    NoneDirty(m.Snapshot(), Chunk(0, 0));
    verdict, pieces, information, valid, upto := FlushCache(m, 0, Some((0, 2 * GRANULARITY)), 0, script, 0);
    OneChunk(upto);
    assert CleanIn(Initial(map[], {0}), 0, 0, upto);
  }

  lemma NoneDirty(c: Cache, k: Chunk)
    requires c.dirty == {}
    ensures !DirtyAt(c, k)
  {
  }

  lemma OneChunk(upto: nat)
    requires Chunks(0, upto) == 1 && (upto == 0 || Aligned(upto))
    ensures upto == GRANULARITY && RoundDown(0) == 0
  {
  }
}
