/** CcCopyRead and CcCopyWrite: a transfer of any length, done view by view. */
module CacheCopy {
  import opened CacheState
  import opened CacheSteps
  import opened CacheDrop
  import opened CacheEvents
  import opened CacheManager

  const MAXLONGLONG: int := 0x7FFF_FFFF_FFFF_FFFF

  /** Addition of a LONGLONG and a ULONG without overflow check. */
  function Wrap(n: nat): (r: int)
    requires n <= MAXLONGLONG + 0xFFFF_FFFF
    ensures r == n <==> n <= MAXLONGLONG
    ensures n > MAXLONGLONG ==> r < 0
  {
    if n > MAXLONGLONG then n - 2 * (MAXLONGLONG + 1) else n
  }

  /** How Mm behaves for one view: it refuses to map it `failures` times; then its pages are there
      and, for a write, accepted; or they are not there and the caller will not wait; or it raises. */
  datatype Answer = Answer(failures: nat, outcome: Outcome)
  datatype Outcome = Fine | NotResident | Refused

  datatype Status = Done | WouldBlock | Raised | NotCached

  function AnswerAt(script: seq<Answer>, i: nat): (a: Answer) {
    if i < |script| then script[i] else Answer(0, Fine)
  }

  function Min(a: int, b: int): (m: int) {
    if a < b then a else b
  }

  // ------------------------------------------------------------- rounds

  predicate Aligned(o: nat) {
    o % GRANULARITY == 0
  }

  /** The number of chunks the range [start, end) touches. */
  function Chunks(start: nat, end: nat): (n: nat) {
    if start >= end then 0 else (RoundDown(end - 1) - RoundDown(start)) / GRANULARITY + 1
  }

  /** One round is one chunk. */
  lemma ChunksStep(start: nat, current: nat, end: nat)
    requires start <= current < end && (current == start || Aligned(current))
    ensures var next := Min(end, RoundDown(current) + GRANULARITY);
            && current < next && (next == end || Aligned(next)) && Chunks(start, next) == Chunks(start, current) + 1
    ensures Chunks(start, current) < Chunks(start, end)
    ensures Min(end - current, GRANULARITY - current % GRANULARITY) == Min(end, RoundDown(current) + GRANULARITY) - current
  {
    hide Chunks;
    var next := Min(end, RoundDown(current) + GRANULARITY);
    ChunksIs(start, current);
    ChunksIs(start, next);
    ChunksIs(start, end);
    assert (next - 1) / GRANULARITY == current / GRANULARITY;
  }

  lemma ChunksIs(start: nat, end: nat)
    ensures Chunks(start, end) == if start >= end then 0 else (end - 1) / GRANULARITY - start / GRANULARITY + 1
  {
  }

  ghost predicate AllFine(script: seq<Answer>, n: nat) {
    forall i: nat :: i < n ==> AnswerAt(script, i).outcome == Fine
  }

  /** From round `i` on, so many unused views are enough for all times Mm refuses to map one. */
  predicate Roomy(script: seq<Answer>, i: nat, n: nat, unused: int)
    decreases n - i
  {
    i < n ==>
      var f := AnswerAt(script, i).failures;
      (f == 0 || f <= unused) && Roomy(script, i + 1, n, unused - f - 1)
  }

  /** They are if Mm never refuses. */
  lemma {:induction false} NeverRefusedIsRoomy(script: seq<Answer>, i: nat, n: nat, unused: int)
    requires forall a :: a in script ==> a.failures == 0
    ensures Roomy(script, i, n, unused)
    decreases n - i
  {
    if i < n {
      NeverRefusedIsRoomy(script, i + 1, n, unused - 1);
    }
  }

  /** What becomes of a round. */
  function StatusOf(mapped: bool, o: Outcome): (s: Status) {
    if !mapped then Raised else if o == Fine then Done else if o == NotResident then WouldBlock else Raised
  }

  /** A transfer after `round` rounds; there are at least `room` unused views, if there were enough. */
  ghost predicate OnSchedule(script: seq<Answer>, start: nat, current: nat, end: nat, round: nat, unused0: nat, room: int) {
    && start <= current <= end && (current == start || Aligned(current) || current == end)
    && round == Chunks(start, current) && AllFine(script, round)
    && (Roomy(script, 0, Chunks(start, end), unused0) ==> Roomy(script, round, Chunks(start, end), room))
  }

  lemma ScheduleStarts(script: seq<Answer>, start: nat, end: nat, unused0: nat)
    requires start <= end
    ensures OnSchedule(script, start, start, end, 0, unused0, unused0)
  {
  }

  lemma ScheduleHolds(script: seq<Answer>, start: nat, current: nat, end: nat, round: nat, unused0: nat, room: int)
    requires OnSchedule(script, start, current, end, round, unused0, room) && current < end
    ensures round < Chunks(start, end)
    ensures var f := AnswerAt(script, round).failures; Roomy(script, 0, Chunks(start, end), unused0) ==> f == 0 || f <= room
  {
    ChunksStep(start, current, end);
  }

  lemma ScheduleNext(script: seq<Answer>, start: nat, current: nat, end: nat, round: nat, unused0: nat, room: int, n: nat)
    requires OnSchedule(script, start, current, end, round, unused0, room) && current < end
    requires AnswerAt(script, round).outcome == Fine && n == Min(end - current, GRANULARITY - current % GRANULARITY)
    ensures OnSchedule(script, start, current + n, end, round + 1, unused0, room - AnswerAt(script, round).failures - 1)
  {
    hide Chunks, RoundDown;
    ChunksStep(start, current, end);
  }

  /** The bytes of the flat file, as far as nothing of their chunk was lost. */
  ghost predicate ReadsFlat(c: Cache, file: FileId, offset: nat, bytes: seq<Byte>) {
    forall i :: 0 <= i < |bytes| && Chunk(file, RoundDown(offset + i)) !in c.h.lost ==>
                  bytes[i] == FlatByte(c.h.initial, c.h.writes, file, offset + i)
  }

  lemma ReadsFlatLater(c: Cache, d: Cache, file: FileId, offset: nat, bytes: seq<Byte>)
    requires ReadsFlat(c, file, offset, bytes) && SameFile(c, d)
    ensures ReadsFlat(d, file, offset, bytes)
  {
  }

  /** A linked view shows the flat file. */
  lemma ViewReadsFlat(c: Cache, v: VacbId, file: FileId, offset: nat, n: nat)
    requires Inv(c) && v in c.h.linked && v in c.chunk && v in c.data && c.chunk[v] == Chunk(file, RoundDown(offset))
    requires offset % GRANULARITY + n <= GRANULARITY
    ensures var at := offset % GRANULARITY; ReadsFlat(c, file, offset, c.data[v][at..at + n])
  {
  }

  lemma SameChunk(offset: nat, i: nat)
    requires offset % GRANULARITY + i < GRANULARITY
    ensures RoundDown(offset + i) == RoundDown(offset)
  {
  }

  // ------------------------------------------------------------- reading

  /** After a plain release the acquired reference is gone and nothing else has changed. */
  lemma ReleasedUnused(c0: Cache, c: Cache, file: FileId, offset: nat, v: VacbId)
    requires Inv(c) && SameFile(c0, c) && Acquired(c0, c, file, offset, v)
    ensures Accounted(c, v) && v in c.data && Releasable(c, v, false)
    ensures SameFile(c0, Release(c, v, false)) && SameFile(c, Release(c, v, false))
    ensures Release(c, v, false).h.holds == c0.h.holds && KeepsQuiet(c, Release(c, v, false))
    ensures |UnusedOf(Release(c, v, false))| >= |UnusedOf(c)|
  {
    hide CleanOk, Coherent, KeepsQuiet, UnusedOf;
    HeldIsUsed(c, v);
    UnusedKept(c, Unhold(c, v));
    LinkedFacts(c, v);
    QuietFrame(c, Unhold(c, v));
    assert SameFile(c, Unhold(c, v));
  }

  lemma HeldIsUsed(c: Cache, v: VacbId)
    requires Structure(c) && v in c.h.linked && c.h.holds[v] > 0
    ensures v in c.refs && c.refs[v] >= 2
  {
    assert PartOk(Alloc, c) && PartOk(Refs, c);
  }

  /** One round of CcCopyRead: the part of the transfer that lies in one view. */
  method ReadPiece(m: Manager, file: FileId, offset: nat, n: nat, a: Answer) returns (status: Status, bytes: seq<Byte>)
    requires Inv(m.Snapshot()) && file in m.lists && offset % GRANULARITY + n <= GRANULARITY
    modifies m
    ensures Inv(m.Snapshot()) && SameFile(old(m.Snapshot()), m.Snapshot())
    ensures m.Snapshot().h.holds == old(m.Snapshot().h.holds)
    ensures status == StatusOf(Obtainable(old(m.Snapshot()), file, offset, a.failures), a.outcome)
    ensures |bytes| == if status == Done then n else 0
    ensures ReadsFlat(m.Snapshot(), file, offset, bytes)
    ensures status == Done ==> |UnusedOf(m.Snapshot())| + a.failures + 1 >= |UnusedOf(old(m.Snapshot()))|
  {
    hide Inv, SameFile, Release, FlatByte, UnusedOf, Obtainable;
    bytes := [];
    var got := m.Get(file, offset, a.failures);
    if got.None? {
      return Raised, bytes;
    }
    var v := got.value;
    ghost var c := m.Snapshot();
    ReleasedUnused(old(m.Snapshot()), c, file, offset, v);
    if a.outcome == Fine {
      var at := offset % GRANULARITY;
      bytes := m.data[v][at..at + n];
      ViewReadsFlat(c, v, file, offset, n);
      status := Done;
    } else {
      status := if a.outcome == NotResident then WouldBlock else Raised;
    }
    m.Release(v, false);
    ReadsFlatLater(c, m.Snapshot(), file, offset, bytes);
  }

  /** CcCopyRead: the bytes read are those of the flat file. */
  method CopyRead(m: Manager, file: FileId, offset: nat, length: nat, script: seq<Answer>)
    returns (status: Status, buffer: seq<Byte>, ghost rounds: nat)
    requires Inv(m.Snapshot()) && offset <= MAXLONGLONG && length <= 0xFFFF_FFFF
    modifies m
    ensures Inv(m.Snapshot()) && SameFile(old(m.Snapshot()), m.Snapshot())
    ensures m.Snapshot().h.holds == old(m.Snapshot().h.holds)
    ensures status == NotCached <==> file !in old(m.lists)
    ensures status == Done ==> |buffer| == if offset + length <= MAXLONGLONG then length else 0
    ensures ReadsFlat(m.Snapshot(), file, offset, buffer)
    ensures file in old(m.lists) && offset + length > MAXLONGLONG ==> status == Done && buffer == []
    ensures rounds == Chunks(offset, offset + |buffer|) && AllFine(script, rounds)
    ensures file in old(m.lists) && offset + length <= MAXLONGLONG ==>
              var all := Chunks(offset, offset + length);
              && (status == Done ==> rounds == all) && (status != Done ==> rounds < all)
              && (Roomy(script, 0, all, |UnusedOf(old(m.Snapshot()))|) ==>
                    && (status == Done <==> AllFine(script, all))
                    && (status != Done ==> status == StatusOf(true, AnswerAt(script, rounds).outcome)))
  {
    hide Inv, SameFile, ReadsFlat, UnusedOf, OnSchedule, Roomy, Chunks, AnswerAt;
    buffer, rounds := [], 0;
    ghost var c0 := m.Snapshot();
    NothingRead(c0, file, offset);
    if file !in m.lists {
      NoRounds(script, offset);
      return NotCached, buffer, rounds;
    }
    var end := Wrap(offset + length);
    var current, round := offset, 0;
    status := Done;
    ghost var room: int := |UnusedOf(c0)|;
    ghost var stop := offset + length;
    ScheduleStarts(script, offset, stop, |UnusedOf(c0)|);
    while current < end
      invariant Inv(m.Snapshot()) && SameFile(c0, m.Snapshot()) && m.Snapshot().h.holds == c0.h.holds && file in m.lists
      invariant current == offset + |buffer| && (current <= end || (buffer == [] && end < offset)) && round == rounds
      invariant ReadsFlat(m.Snapshot(), file, offset, buffer) && status == Done
      invariant OnSchedule(script, offset, current, stop, rounds, |UnusedOf(c0)|, room) && room <= |UnusedOf(m.Snapshot())|
    {
      ScheduleHolds(script, offset, current, stop, rounds, |UnusedOf(c0)|, room);
      var at := current % GRANULARITY;
      var n := Min(offset + length - current, GRANULARITY - at);
      ghost var c := m.Snapshot();
      var piece;
      status, piece := ReadPiece(m, file, current, n, AnswerAt(script, round));
      ReadGoesOn(c0, c, m.Snapshot(), file, offset, buffer, piece);
      if status != Done {
        ScheduleIs(script, offset, current, stop, rounds, |UnusedOf(c0)|, room);
        return;
      }
      ScheduleNext(script, offset, current, stop, rounds, |UnusedOf(c0)|, room, n);
      room := room - AnswerAt(script, rounds).failures - 1;
      buffer, current, round, rounds := buffer + piece, current + n, round + 1, rounds + 1;
    }
    ScheduleIs(script, offset, current, stop, rounds, |UnusedOf(c0)|, room);
  }

  lemma NoRounds(script: seq<Answer>, offset: nat)
    ensures Chunks(offset, offset) == 0 && AllFine(script, 0)
  {
  }

  lemma ScheduleIs(script: seq<Answer>, start: nat, current: nat, end: nat, round: nat, unused0: nat, room: int)
    requires OnSchedule(script, start, current, end, round, unused0, room)
    ensures round == Chunks(start, current) && AllFine(script, round)
  {
  }

  lemma NothingRead(c: Cache, file: FileId, offset: nat)
    ensures SameFile(c, c) && ReadsFlat(c, file, offset, [])
  {
  }

  lemma ReadGoesOn(c0: Cache, c: Cache, d: Cache, file: FileId, offset: nat, buffer: seq<Byte>, piece: seq<Byte>)
    requires SameFile(c0, c) && SameFile(c, d)
    requires ReadsFlat(c, file, offset, buffer) && ReadsFlat(d, file, offset + |buffer|, piece)
    ensures SameFile(c0, d) && d.lists.Keys == c.lists.Keys
    ensures ReadsFlat(d, file, offset, buffer) && ReadsFlat(d, file, offset, buffer + piece)
  {
  }

  // ------------------------------------------------------------- writing

  /** Two histories with the same flat file. */
  ghost predicate SameFlat(initial: map<Chunk, View>, a: seq<Write>, b: seq<Write>) {
    forall f: FileId, o: nat :: FlatByte(initial, a, f, o) == FlatByte(initial, b, f, o)
  }

  lemma FlatAppend(initial: map<Chunk, View>, ws: seq<Write>, w: Write, f: FileId, o: nat)
    ensures FlatByte(initial, ws + [w], f, o)
         == if w.file == f && w.offset <= o < w.offset + |w.bytes| then w.bytes[o - w.offset] else FlatByte(initial, ws, f, o)
  {
  }

  /** A write done in two parts is the write. */
  lemma WriteInParts(initial: map<Chunk, View>, before: seq<Write>, ws: seq<Write>, file: FileId, offset: nat,
                     bytes: seq<Byte>, a: nat, b: nat)
    requires a <= b <= |bytes| && SameFlat(initial, ws, before + [Write(file, offset, bytes[..a])])
    ensures SameFlat(initial, ws + [Write(file, offset + a, bytes[a..b])], before + [Write(file, offset, bytes[..b])])
  {
    hide FlatByte;
    forall f: FileId, o: nat
      ensures FlatByte(initial, ws + [Write(file, offset + a, bytes[a..b])], f, o)
           == FlatByte(initial, before + [Write(file, offset, bytes[..b])], f, o)
    {
      FlatAppend(initial, ws, Write(file, offset + a, bytes[a..b]), f, o);
      FlatAppend(initial, before, Write(file, offset, bytes[..b]), f, o);
      FlatAppend(initial, before, Write(file, offset, bytes[..a]), f, o);
    }
  }

  /** What a write leaves alone; `ws` are the pieces it adds. */
  ghost predicate Wrote(c: Cache, d: Cache, ws: seq<Write>) {
    && d.h.initial == c.h.initial && d.h.writes == c.h.writes + ws
    && d.h.holds == c.h.holds && d.h.writers == c.h.writers && d.lists.Keys == c.lists.Keys
  }

  /** Bytes are lost only of views abandoned before, and views are abandoned only of these chunks. */
  ghost predicate Abandoning(c: Cache, d: Cache, ks: set<Chunk>) {
    LosesAbandoned(c, d) && Abandoned(d) <= Abandoned(c) + ks
  }

  lemma NothingAbandoned(c: Cache)
    ensures Abandoning(c, c, {})
  {
  }

  lemma AbandoningTrans(c: Cache, d: Cache, e: Cache, ks: set<Chunk>, ls: set<Chunk>)
    requires Abandoning(c, d, {}) && Abandoning(d, e, ks) && ks <= ls
    ensures Abandoning(c, e, ls)
  {
  }

  /** The file's view of the chunk is on the dirty list. */
  ghost predicate Dirtied(c: Cache, file: FileId, offset: nat) {
    exists v :: v in c.dirty && v in c.chunk && c.chunk[v] == Chunk(file, RoundDown(offset))
  }

  /** Between the copy into the view and its release. */
  ghost predicate Copied(c0: Cache, d: Cache, file: FileId, offset: nat, v: VacbId, bytes: seq<Byte>) {
    && Accounted(d, v) && Releasable(d, v, true) && ClientMay(d, AbandonIt(v))
    && d.chunk[v] == Chunk(file, RoundDown(offset)) && Abandoning(c0, d, {})
    && Wrote(c0.(h := c0.h.(holds := c0.h.holds + multiset{v}, writers := c0.h.writers + multiset{v})), d, [Write(file, offset, bytes)])
  }

  lemma CopyIsCopied(c0: Cache, c: Cache, file: FileId, offset: nat, v: VacbId, bytes: seq<Byte>)
    requires Inv(c) && SameFile(c0, c) && Acquired(c0, c, file, offset, v) && offset % GRANULARITY + |bytes| <= GRANULARITY
    ensures v in c.chunk && v in c.data && ClientMay(c, CopyIn(v, offset % GRANULARITY, bytes))
    ensures Copied(c0, WriteView(c, v, offset % GRANULARITY, bytes), file, offset, v, bytes)
  {
    hide CleanOk, Coherent;
    LinkedFacts(c, v);
  }

  lemma MarkedThenReleased(d: Cache, v: VacbId)
    requires Accounted(d, v) && v in d.dirty && v in d.h.linked
    ensures var r := Unhold(WriterDone(d, v), v);
            && r.h == d.h.(holds := d.h.holds - multiset{v}, writers := d.h.writers - multiset{v})
            && (forall u :: u in r.chunk ==> u in d.chunk && r.chunk[u] == d.chunk[u])
            && r.lists == d.lists && r.dirty == d.dirty && (v in r.refs ==> v in r.chunk && r.chunk[v] == d.chunk[v])
  {
  }

  lemma ReleasedDirty(d: Cache, v: VacbId) returns (r: Cache)
    requires Accounted(d, v) && v in d.h.linked
    ensures r == Release(d, v, true) && r.lists == d.lists && v in r.dirty
    ensures r.h.holds == d.h.holds - multiset{v} && r.h.writers == d.h.writers - multiset{v}
    ensures r.h.initial == d.h.initial && r.h.writes == d.h.writes && r.h.lost == d.h.lost
    ensures r.h.linked == d.h.linked && r.h.unsaved <= d.h.unsaved && (forall u :: u in r.chunk ==> u in d.chunk && r.chunk[u] == d.chunk[u])
    ensures v in r.refs ==> v in r.chunk && r.chunk[v] == d.chunk[v]
  {
    hide Unhold, WriterDone, Without;
    r := Release(d, v, true);
    if v in d.dirty {
      MarkedThenReleased(d, v);
    } else {
      MarkedThenReleased(MarkDirty(d, v), v);
    }
  }

  /** The write is covered by the dirty mark, so nobody is left to answer for it. */
  lemma ReleasedQuiet(c: Cache, v: VacbId, at: nat, bytes: seq<Byte>)
    requires Inv(c) && v in c.h.linked && v in c.chunk && v in c.data && at + |bytes| <= GRANULARITY
    requires Accounted(WriteView(c, v, at, bytes), v)
    ensures KeepsQuiet(c, Release(WriteView(c, v, at, bytes), v, true))
  {
    hide Inv, KeepsQuiet, Release;
    var d := WriteView(c, v, at, bytes);
    var r := ReleasedDirty(d, v);
    assert c.h.writers + multiset{v} - multiset{v} == c.h.writers;
    QuietFrame(c, r);
  }

  lemma ReleasedUsed(c: Cache, v: VacbId, at: nat, bytes: seq<Byte>)
    requires Inv(c) && v in c.h.linked && c.h.holds[v] > 0 && v in c.chunk && v in c.data && at + |bytes| <= GRANULARITY
    requires Accounted(WriteView(c, v, at, bytes), v)
    ensures |UnusedOf(Release(WriteView(c, v, at, bytes), v, true))| >= |UnusedOf(c)|
  {
    hide CleanOk, Coherent, UnusedOf, Without, Splice;
    HeldIsUsed(c, v);
    UnusedKept(c, Release(WriteView(c, v, at, bytes), v, true));
  }

  lemma ReleaseIsWritten(c0: Cache, d: Cache, file: FileId, offset: nat, v: VacbId, bytes: seq<Byte>)
    requires Inv(d) && Copied(c0, d, file, offset, v, bytes)
    ensures var r := Release(d, v, true);
            Wrote(c0, r, [Write(file, offset, bytes)]) && Dirtied(r, file, offset) && Abandoning(c0, r, {})
  {
    hide Inv, Release;
    ReleaseKeeps(d, v, true);
    var r := ReleasedDirty(d, v);
    assert v in r.dirty && v in r.chunk && r.chunk[v] == Chunk(file, RoundDown(offset));
  }

  lemma AbandonIsWritten(c0: Cache, d: Cache, file: FileId, offset: nat, v: VacbId, bytes: seq<Byte>)
    requires Copied(c0, d, file, offset, v, bytes)
    ensures Wrote(c0, Abandon(d, v), [Write(file, offset, bytes)])
    ensures Abandoning(c0, Abandon(d, v), {Chunk(file, RoundDown(offset))})
  {
    hide Abandon;
    var r := AbandonFacts(d, v);
  }

  lemma AbandonFacts(d: Cache, v: VacbId) returns (r: Cache)
    requires Accounted(d, v) && v in d.h.linked
    ensures r == Abandon(d, v) && r.lists == d.lists && Abandoned(r) <= Abandoned(d) + {d.chunk[v]}
    ensures r.h.holds == d.h.holds - multiset{v} && r.h.writers == d.h.writers - multiset{v}
    ensures r.h.initial == d.h.initial && r.h.writes == d.h.writes && r.h.lost == d.h.lost
  {
    r := Abandon(d, v);
  }

  lemma NothingWritten(c0: Cache, c: Cache)
    requires SameFile(c0, c) && c.h.holds == c0.h.holds
    ensures Wrote(c0, c, []) && Abandoning(c0, c, {})
  {
  }

  /** One round of CcCopyWrite. If Mm refuses the write after the copy, the bytes are in the view
      all the same, and the view is abandoned. Bytes are lost only of views abandoned before. */
  method WritePiece(m: Manager, file: FileId, offset: nat, bytes: seq<Byte>, a: Answer) returns (status: Status, copied: bool)
    requires Inv(m.Snapshot()) && file in m.lists && offset % GRANULARITY + |bytes| <= GRANULARITY
    modifies m
    ensures Inv(m.Snapshot())
    ensures Wrote(old(m.Snapshot()), m.Snapshot(), if copied then [Write(file, offset, bytes)] else [])
    ensures Abandoning(old(m.Snapshot()), m.Snapshot(), if copied && status != Done then {Chunk(file, RoundDown(offset))} else {})
    ensures status == StatusOf(Obtainable(old(m.Snapshot()), file, offset, a.failures), a.outcome)
    ensures copied <==> Obtainable(old(m.Snapshot()), file, offset, a.failures) && a.outcome != NotResident
    ensures status == Done ==> Dirtied(m.Snapshot(), file, offset) && KeepsQuiet(old(m.Snapshot()), m.Snapshot())
    ensures status == Done ==> |UnusedOf(m.Snapshot())| + a.failures + 1 >= |UnusedOf(old(m.Snapshot()))|
  {
    hide Inv, SameFile, Wrote, Dirtied, Release, Abandon, WriteView, KeepsQuiet, UnusedOf, Obtainable, Abandoning;
    ghost var c0 := m.Snapshot();
    var got := m.Get(file, offset, a.failures);
    ghost var c := m.Snapshot();
    if got.None? {
      NothingWritten(c0, c);
      return Raised, false;
    }
    var v := got.value;
    if a.outcome == NotResident {
      ReleasedUnused(c0, c, file, offset, v);
      m.Release(v, false);
      NothingWritten(c0, m.Snapshot());
      return WouldBlock, false;
    }
    CopyIsCopied(c0, c, file, offset, v, bytes);
    m.CopyInto(v, offset % GRANULARITY, bytes);
    if a.outcome == Refused {
      AbandonIsWritten(c0, m.Snapshot(), file, offset, v, bytes);
      m.AbandonWrite(v);
      return Raised, true;
    }
    ReleaseIsWritten(c0, m.Snapshot(), file, offset, v, bytes);
    ReleasedQuiet(c, v, offset % GRANULARITY, bytes);
    ReleasedUsed(c, v, offset % GRANULARITY, bytes);
    m.Release(v, true);
    QuietTrans(c0, c, m.Snapshot());
    return Done, true;
  }

  /** CcCopyWrite: whether or not it gets to the end, it has the effect of one write of as many
      bytes as were copied; none are copied when the end of the range is not a LONGLONG. Bytes are
      lost only of views abandoned before, and only the last chunk copied to may be abandoned. */
  method CopyWrite(m: Manager, file: FileId, offset: nat, bytes: seq<Byte>, script: seq<Answer>)
    returns (status: Status, copied: nat, ghost rounds: nat)
    requires Inv(m.Snapshot()) && offset <= MAXLONGLONG && |bytes| <= 0xFFFF_FFFF
    modifies m
    ensures Inv(m.Snapshot()) && m.Snapshot().h.holds == old(m.Snapshot().h.holds)
    ensures m.Snapshot().h.initial == old(m.Snapshot().h.initial) && copied <= |bytes|
    ensures SameFlat(old(m.Snapshot().h.initial), m.Snapshot().h.writes,
                     old(m.Snapshot().h.writes) + [Write(file, offset, bytes[..copied])])
    ensures status == NotCached <==> file !in old(m.lists)
    ensures status == Done ==> copied == |bytes| && offset + |bytes| <= MAXLONGLONG
    ensures status == Done ==> KeepsQuiet(old(m.Snapshot()), m.Snapshot()) && file in m.lists
    ensures copied > 0 ==> offset + |bytes| <= MAXLONGLONG
    ensures file in old(m.lists) && offset + |bytes| > MAXLONGLONG ==> status == Raised
    ensures Abandoning(old(m.Snapshot()), m.Snapshot(), LastCopied(status, file, offset, copied))
    ensures AllFine(script, rounds)
    ensures file in old(m.lists) && offset + |bytes| <= MAXLONGLONG ==>
              var all := Chunks(offset, offset + |bytes|);
              && (status == Done ==> rounds == all) && (status != Done ==> rounds < all)
              && (Roomy(script, 0, all, |UnusedOf(old(m.Snapshot()))|) ==>
                    && (status == Done <==> AllFine(script, all))
                    && (status != Done ==> status == StatusOf(true, AnswerAt(script, rounds).outcome)))
  {
    hide Inv, SameFlat, Quiet, UnusedOf, OnSchedule, Roomy, Chunks, AnswerAt, Abandoning;
    ghost var c0 := m.Snapshot();
    NothingAbandoned(c0);
    copied, rounds := 0, 0;
    NoRounds(script, offset);
    EmptyWrite(c0.h.initial, c0.h.writes, file, offset, bytes);
    if file !in m.lists {
      return NotCached, copied, rounds;
    }
    if offset + |bytes| > MAXLONGLONG {
      return Raised, copied, rounds;
    }
    var end, current, round := offset + |bytes|, offset, 0;
    status := Done;
    ghost var room: int := |UnusedOf(c0)|;
    ScheduleStarts(script, offset, end, |UnusedOf(c0)|);
    while current < end
      invariant Inv(m.Snapshot()) && file in m.lists && current == offset + copied <= end && status == Done && round == rounds
      invariant OnSchedule(script, offset, current, end, rounds, |UnusedOf(c0)|, room) && room <= |UnusedOf(m.Snapshot())|
      invariant m.Snapshot().h.holds == c0.h.holds && m.Snapshot().h.initial == c0.h.initial && KeepsQuiet(c0, m.Snapshot())
      invariant Abandoning(c0, m.Snapshot(), {})
      invariant SameFlat(c0.h.initial, m.Snapshot().h.writes, c0.h.writes + [Write(file, offset, bytes[..copied])])
    {
      var n := Min(end - current, GRANULARITY - current % GRANULARITY);
      WriteInParts(c0.h.initial, c0.h.writes, m.Snapshot().h.writes, file, offset, bytes, copied, copied + n);
      ScheduleHolds(script, offset, current, end, rounds, |UnusedOf(c0)|, room);
      ScheduleIs(script, offset, current, end, rounds, |UnusedOf(c0)|, room);
      ghost var ws, before := m.Snapshot().h.writes, m.Snapshot();
      var done;
      status, done := WritePiece(m, file, current, bytes[copied..copied + n], AnswerAt(script, round));
      if done {
        SameChunk(current, n - 1);
        copied := copied + n;
      } else {
        assert m.Snapshot().h.writes == ws;
      }
      AbandoningTrans(c0, before, m.Snapshot(), if done && status != Done then {Chunk(file, RoundDown(current))} else {},
                      LastCopied(status, file, offset, copied));
      if status != Done {
        return;
      }
      ScheduleNext(script, offset, current, end, rounds, |UnusedOf(c0)|, room, n);
      room := room - AnswerAt(script, rounds).failures - 1;
      current, round, rounds := current + n, round + 1, rounds + 1;
    }
    ScheduleIs(script, offset, current, end, rounds, |UnusedOf(c0)|, room);
  }

  /** The chunk that a write which breaks off may leave abandoned. */
  function LastCopied(status: Status, file: FileId, offset: nat, copied: nat): (ks: set<Chunk>) {
    if status == Done || copied == 0 then {} else {Chunk(file, RoundDown(offset + copied - 1))}
  }

  lemma EmptyWrite(initial: map<Chunk, View>, ws: seq<Write>, file: FileId, offset: nat, bytes: seq<Byte>)
    ensures SameFlat(initial, ws, ws + [Write(file, offset, bytes[..0])])
  {
  }

  /** Round trip: what a finished CcCopyRead returns of the range just written is what was
      written, unless bytes of its chunks were dropped in between. */
  lemma ReadBack(c: Cache, before: seq<Write>, file: FileId, offset: nat, bytes: seq<Byte>, buffer: seq<Byte>)
    requires SameFlat(c.h.initial, c.h.writes, before + [Write(file, offset, bytes)])
    requires ReadsFlat(c, file, offset, buffer) && |buffer| == |bytes| && c.h.lost == {}
    ensures buffer == bytes
  {
  }
}
