/** The cache manager's state: views (VACBs) of 256 KB on a per-file list sorted by offset, on a
    global LRU list and, when dirty, on a global dirty list, over a backing store.

    A VACB is named by an id that is never reused; its fields are kept one map per field. */
module CacheState {
  import opened Collections

  const GRANULARITY: nat := 0x40000
  const PAGES_PER_VIEW: nat := 64

  type Byte = n: nat | n < 256
  type FileId = nat
  type VacbId = nat

  /** The bytes of one view. */
  type View = s: seq<Byte> | |s| == GRANULARITY witness seq(GRANULARITY, i => 0)

  /** What a VACB maps: 256 KB of a file, from an aligned offset on. */
  datatype Chunk = Chunk(file: FileId, base: nat)

  datatype Write = Write(file: FileId, offset: nat, bytes: seq<Byte>)

  /** What the code does not keep but its correctness talks about.
      - holds: references owned by clients (copies in flight, BCBs), one per acquisition
      - writers: those of them whose owner answers for bytes the store may not have: it has
        written and not yet marked the view dirty, or it has unmarked the view to flush it and
        Mm has not yet answered; an owner is in there once
      - marking: holders that found the view clean and are about to mark it
      - linked: the VACBs on their file's list
      - unsaved: linked VACBs whose writer gave up without marking them dirty
      - lost: chunks for which bytes were dropped without reaching the store
      - touched: time of the last move to the LRU tail
      - initial, writes: the store before the first write, and every write since */
  datatype History = History(
    nextId: VacbId,
    holds: multiset<VacbId>,
    writers: multiset<VacbId>,
    marking: multiset<VacbId>,
    linked: set<VacbId>,
    unsaved: set<VacbId>,
    lost: set<Chunk>,
    touched: map<VacbId, nat>,
    clock: nat,
    initial: map<Chunk, View>,
    writes: seq<Write>)

  datatype Cache = Cache(
    chunk: map<VacbId, Chunk>,           // FileOffset and SharedCacheMap of each allocated VACB
    refs: map<VacbId, int>,              // ReferenceCount
    dirty: set<VacbId>,                  // Dirty
    data: map<VacbId, View>,             // the mapped bytes
    lists: map<FileId, seq<VacbId>>,     // CacheMapVacbListHead of each cached file
    lru: seq<VacbId>,                    // VacbLruListHead
    dirtyList: seq<VacbId>,              // DirtyVacbListHead
    totalDirty: int,                     // CcTotalDirtyPages
    dirtyPages: map<FileId, int>,        // DirtyPages of each cached file
    store: map<Chunk, View>,             // the file on disk; a chunk that is not there is zeroes
    h: History)

  function ZeroView(): (v: View) {
    seq(GRANULARITY, i => 0)
  }

  function Stored(store: map<Chunk, View>, c: Chunk): (v: View) {
    if c in store then store[c] else ZeroView()
  }

  function RoundDown(offset: nat): (b: nat)
    ensures b <= offset < b + GRANULARITY && b % GRANULARITY == 0
  {
    offset - offset % GRANULARITY
  }

  /** The byte a flat file holds after the writes: the last write that covers it wins. */
  function FlatByte(initial: map<Chunk, View>, writes: seq<Write>, file: FileId, offset: nat): (b: Byte) {
    if writes == [] then Stored(initial, Chunk(file, RoundDown(offset)))[offset - RoundDown(offset)]
    else
      var w := writes[|writes| - 1];
      if w.file == file && w.offset <= offset < w.offset + |w.bytes| then w.bytes[offset - w.offset]
      else FlatByte(initial, writes[..|writes| - 1], file, offset)
  }

  // ------------------------------------------------------------- lists

  function Without(s: seq<VacbId>, v: VacbId): (r: seq<VacbId>)
    ensures forall x :: x in r <==> x in s && x != v
    ensures |r| <= |s|
  {
    if s == [] then [] else if s[0] == v then Without(s[1..], v) else [s[0]] + Without(s[1..], v)
  }

  /** The first VACB of the list whose view covers the offset. */
  function Covering(list: seq<VacbId>, chunk: map<VacbId, Chunk>, offset: nat): (r: Option<VacbId>)
    ensures r.Some? ==> r.value in list && r.value in chunk
                        && chunk[r.value].base <= offset < chunk[r.value].base + GRANULARITY
    ensures r.None? ==> forall v :: v in list && v in chunk ==>
                          !(chunk[v].base <= offset < chunk[v].base + GRANULARITY)
  {
    if list == [] then None
    else if list[0] in chunk && chunk[list[0]].base <= offset < chunk[list[0]].base + GRANULARITY then Some(list[0])
    else Covering(list[1..], chunk, offset)
  }

  /** Links `v` in front of the first VACB with a larger offset. */
  function InsertSorted(list: seq<VacbId>, chunk: map<VacbId, Chunk>, v: VacbId): (r: seq<VacbId>)
    requires v in chunk
    ensures forall x :: x in r <==> x in list || x == v
    ensures |r| == |list| + 1
  {
    if list == [] then [v]
    else if list[0] in chunk && chunk[list[0]].base > chunk[v].base then [v] + list
    else [list[0]] + InsertSorted(list[1..], chunk, v)
  }

  // ------------------------------------------------------------- the primitives

  function One(b: bool): (n: nat) {
    if b then 1 else 0
  }

  /** CcRosVacbIncRefCount for a client. */
  function Hold(c: Cache, v: VacbId): (c': Cache)
    requires v in c.refs
  {
    c.(refs := c.refs[v := c.refs[v] + 1], h := c.h.(holds := c.h.holds + multiset{v}))
  }

  /** CcRosVacbDecRefCount for a client; at zero the VACB is freed. */
  function Unhold(c: Cache, v: VacbId): (c': Cache)
    requires v in c.refs
  {
    var h := c.h.(holds := c.h.holds - multiset{v});
    if c.refs[v] == 1 then c.(chunk := c.chunk - {v}, refs := c.refs - {v}, data := c.data - {v}, h := h)
    else c.(refs := c.refs[v := c.refs[v] - 1], h := h)
  }

  /** A VACB as CcRosCreateVacb sets it up, referenced by its creator. */
  function New(c: Cache, file: FileId, offset: nat): (c': Cache) {
    var v := c.h.nextId;
    c.(chunk := c.chunk[v := Chunk(file, RoundDown(offset))], refs := c.refs[v := 1], data := c.data[v := ZeroView()],
       h := c.h.(nextId := v + 1, holds := c.h.holds + multiset{v}))
  }

  /** Links a new VACB: into its file's list, at the LRU tail, with the list's own reference.
      From here on its bytes are those of the file. */
  function Link(c: Cache, v: VacbId): (c': Cache)
    requires v in c.chunk && v in c.refs && c.chunk[v].file in c.lists
  {
    var file := c.chunk[v].file;
    c.(lists := c.lists[file := InsertSorted(c.lists[file], c.chunk, v)],
       lru := c.lru + [v],
       refs := c.refs[v := c.refs[v] + 1],
       data := c.data[v := Stored(c.store, c.chunk[v])],
       h := c.h.(linked := c.h.linked + {v}, touched := c.h.touched[v := c.h.clock], clock := c.h.clock + 1))
  }

  /** Moves a VACB to the LRU tail. */
  function Touch(c: Cache, v: VacbId): (c': Cache) {
    c.(lru := Without(c.lru, v) + [v], h := c.h.(touched := c.h.touched[v := c.h.clock], clock := c.h.clock + 1))
  }

  /** CcRosMarkDirtyVacb. */
  function MarkDirty(c: Cache, v: VacbId): (c': Cache)
    requires v in c.chunk && v in c.refs && c.chunk[v].file in c.dirtyPages
  {
    var file := c.chunk[v].file;
    c.(dirty := c.dirty + {v},
       dirtyList := c.dirtyList + [v],
       totalDirty := c.totalDirty + PAGES_PER_VIEW,
       dirtyPages := c.dirtyPages[file := c.dirtyPages[file] + PAGES_PER_VIEW],
       refs := c.refs[v := c.refs[v] + 1],
       lru := Without(c.lru, v) + [v],
       h := c.h.(touched := c.h.touched[v := c.h.clock], clock := c.h.clock + 1, unsaved := c.h.unsaved - {v}))
  }

  /** CcRosUnmarkDirtyVacb. */
  function UnmarkDirty(c: Cache, v: VacbId): (c': Cache)
    requires v in c.chunk && v in c.refs && c.chunk[v].file in c.dirtyPages
  {
    var file := c.chunk[v].file;
    c.(dirty := c.dirty - {v},
       dirtyList := Without(c.dirtyList, v),
       totalDirty := c.totalDirty - PAGES_PER_VIEW,
       dirtyPages := c.dirtyPages[file := c.dirtyPages[file] - PAGES_PER_VIEW],
       refs := c.refs[v := c.refs[v] - 1])
  }

  function Splice(view: View, at: nat, bytes: seq<Byte>): (r: View)
    requires at + |bytes| <= GRANULARITY
  {
    view[..at] + bytes + view[at + |bytes|..]
  }

  /** A client copies bytes into a view it holds. */
  function WriteView(c: Cache, v: VacbId, at: nat, bytes: seq<Byte>): (c': Cache)
    requires v in c.chunk && v in c.data && at + |bytes| <= GRANULARITY
  {
    c.(data := c.data[v := Splice(c.data[v], at, bytes)],
       h := c.h.(writers := c.h.writers + multiset{v},
                 writes := c.h.writes + [Write(c.chunk[v].file, c.chunk[v].base + at, bytes)]))
  }

  /** A client that has written and not yet marked the view writes once more. */
  function WriteMore(c: Cache, v: VacbId, at: nat, bytes: seq<Byte>): (c': Cache)
    requires v in c.chunk && v in c.data && at + |bytes| <= GRANULARITY
  {
    var d := WriteView(c, v, at, bytes);
    d.(h := d.h.(writers := c.h.writers))
  }

  /** Mm writes the chunk of a view to the store; a failed write may leave anything there. */
  function Save(c: Cache, v: VacbId, bytes: View): (c': Cache)
    requires v in c.chunk
  {
    c.(store := c.store[c.chunk[v] := bytes])
  }

  /** The dirty half of dropping a VACB. */
  function Unmarked(c: Cache, v: VacbId): (d: Cache)
    requires v in c.chunk && v in c.refs && c.chunk[v].file in c.dirtyPages
  {
    if v in c.dirty then UnmarkDirty(c, v) else c
  }

  /** Takes a VACB off all lists. The reference of its file's list passes to whoever does this, as
      the private FreeList of the source has it. What only the view held is lost. */
  function Detach(c: Cache, v: VacbId): (c': Cache)
    requires v in c.chunk && v in c.refs && c.chunk[v].file in c.lists && c.chunk[v].file in c.dirtyPages
  {
    var file, u := c.chunk[v].file, Unmarked(c, v);
    u.(lists := u.lists[file := Without(u.lists[file], v)],
       lru := Without(u.lru, v),
       h := u.h.(linked := u.h.linked - {v}, unsaved := u.h.unsaved - {v}, holds := u.h.holds + multiset{v},
                 lost := if v in c.dirty || v in c.h.unsaved then u.h.lost + {c.chunk[v]} else u.h.lost))
  }

  /** Detaches a VACB and gives the list's reference back; whether that frees it, the count tells. */
  function Drop(c: Cache, v: VacbId): (c': Cache)
    requires v in c.chunk && v in c.refs && c.chunk[v].file in c.lists && c.chunk[v].file in c.dirtyPages
  {
    Unhold(Detach(c, v), v)
  }

  // ------------------------------------------------------------- compound steps

  /** A client is done writing: its write is now covered by the dirty mark. */
  function WriterDone(c: Cache, v: VacbId): (c': Cache) {
    c.(h := c.h.(writers := c.h.writers - multiset{v}))
  }

  /** CcRosReleaseVacb. */
  function Release(c: Cache, v: VacbId, dirty: bool): (c': Cache)
    requires v in c.chunk && v in c.refs && c.chunk[v].file in c.dirtyPages
  {
    if !dirty then Unhold(c, v)
    else Unhold(WriterDone(if v in c.dirty then c else MarkDirty(c, v), v), v)
  }

  /** The release on the exception path of a write: the bytes are in the view, but the view is
      not marked. */
  function Abandon(c: Cache, v: VacbId): (c': Cache)
    requires v in c.refs
  {
    Unhold(WriterDone(c.(h := c.h.(unsaved := if v in c.dirty then c.h.unsaved else c.h.unsaved + {v})), v), v)
  }

  /** CcRosFlushVacb up to the call of Mm: the view is unmarked first, so that whoever writes to
      it from now on marks it again. */
  function BeginFlush(c: Cache, v: VacbId): (c': Cache)
    requires v in c.chunk && v in c.refs && c.chunk[v].file in c.dirtyPages
  {
    var u := UnmarkDirty(c, v);
    u.(h := u.h.(writers := u.h.writers + multiset{v}))
  }

  /** CcRosFlushVacb from the answer of Mm on: a view that could not be written is marked again. */
  function EndFlush(c: Cache, v: VacbId, ok: bool, torn: View): (c': Cache)
    requires v in c.chunk && v in c.refs && v in c.data && c.chunk[v].file in c.dirtyPages
  {
    var s := Save(c, v, if ok then c.data[v] else torn);
    WriterDone(if ok then s else MarkDirty(s, v), v)
  }

  /** CcRosDeleteFileCache for one view: a dirty one is written, and detached also if that fails. */
  function CloseView(c: Cache, v: VacbId, ok: bool, torn: View): (c': Cache)
    requires v in c.chunk && v in c.refs && v in c.data && c.chunk[v].file in c.lists && c.chunk[v].file in c.dirtyPages
  {
    if v !in c.dirty then Detach(c, v)
    else
      var s := Save(c, v, if ok then c.data[v] else torn);
      Detach(if ok then UnmarkDirty(s, v) else s, v)
  }

  // ------------------------------------------------------------- the invariant

  /** Fields exist for the same VACBs, ids are old, offsets are aligned, and what is linked or
      held is allocated. */
  ghost predicate AllocOk(chunk: map<VacbId, Chunk>, refs: map<VacbId, int>, data: map<VacbId, View>, h: History) {
    && chunk.Keys == refs.Keys == data.Keys
    && (forall v :: v in chunk ==> v < h.nextId && chunk[v].base % GRANULARITY == 0)
    && (forall v :: v in h.linked ==> v in chunk)
    && (forall v :: v in h.holds ==> v in chunk)
  }

  /** A file's list: its linked VACBs, strictly increasing in offset. */
  ghost predicate ListOk(list: seq<VacbId>, chunk: map<VacbId, Chunk>, file: FileId, linked: set<VacbId>) {
    && (forall i :: 0 <= i < |list| ==> list[i] in linked && list[i] in chunk && chunk[list[i]].file == file)
    && (forall i, j :: 0 <= i < j < |list| ==> chunk[list[i]].base < chunk[list[j]].base)
  }

  ghost predicate IndexOk(lists: map<FileId, seq<VacbId>>, chunk: map<VacbId, Chunk>, linked: set<VacbId>) {
    && (forall f :: f in lists ==> ListOk(lists[f], chunk, f, linked))
    && (forall v :: v in linked ==> v in chunk && chunk[v].file in lists && v in lists[chunk[v].file])
  }

  /** The LRU list holds the linked VACBs, least recently touched first. */
  ghost predicate LruOk(lru: seq<VacbId>, linked: set<VacbId>, touched: map<VacbId, nat>, clock: nat) {
    && (forall v :: v in lru <==> v in linked)
    && (forall i :: 0 <= i < |lru| ==> lru[i] in touched && touched[lru[i]] < clock)
    && (forall i, j :: 0 <= i < j < |lru| ==> touched[lru[i]] < touched[lru[j]])
  }

  ghost predicate DirtyOk(dirtyList: seq<VacbId>, dirty: set<VacbId>, linked: set<VacbId>) {
    && Distinct(dirtyList)
    && (forall v :: v in dirtyList <==> v in dirty)
    && dirty <= linked
  }

  /** ReferenceCount = on its file's list + on the dirty list + held by clients, and not zero. */
  ghost predicate RefsOk(refs: map<VacbId, int>, linked: set<VacbId>, dirty: set<VacbId>, holds: multiset<VacbId>) {
    forall v :: v in refs ==> refs[v] == One(v in linked) + One(v in dirty) + holds[v] && refs[v] > 0
  }

  function CountIn(s: seq<VacbId>, chunk: map<VacbId, Chunk>, file: FileId): (n: nat) {
    if s == [] then 0 else One(s[0] in chunk && chunk[s[0]].file == file) + CountIn(s[1..], chunk, file)
  }

  ghost predicate AccountOk(total: int, dirtyList: seq<VacbId>, dirtyPages: map<FileId, int>, files: set<FileId>,
                            chunk: map<VacbId, Chunk>) {
    && total == PAGES_PER_VIEW * |dirtyList|
    && dirtyPages.Keys == files
    && (forall f :: f in dirtyPages ==> dirtyPages[f] == PAGES_PER_VIEW * CountIn(dirtyList, chunk, f))
  }

  ghost predicate WritersOk(writers: multiset<VacbId>, holds: multiset<VacbId>, linked: set<VacbId>,
                            unsaved: set<VacbId>, dirty: set<VacbId>) {
    && (forall v :: writers[v] <= holds[v])
    && (forall v :: v in writers ==> v in linked)
    && (forall v :: v in unsaved ==> v in linked && v !in dirty)
  }

  /** A view that is not dirty, not abandoned and not answered for equals its chunk on disk. */
  ghost predicate CleanOk(c: Cache) {
    forall v :: v in c.h.linked && v in c.data && v in c.chunk && v !in c.dirty && v !in c.h.unsaved && c.h.writers[v] == 0 ==>
      c.data[v] == Stored(c.store, c.chunk[v])
  }

  /** `view` holds the bytes of chunk `k` of the flat file. */
  ghost predicate Agrees(h: History, k: Chunk, view: View) {
    forall i :: 0 <= i < GRANULARITY ==> view[i] == FlatByte(h.initial, h.writes, k.file, k.base + i)
  }

  ghost predicate Uncovered(c: Cache, k: Chunk) {
    forall v :: v in c.h.linked && v in c.chunk ==> c.chunk[v] != k
  }

  /** Unless bytes of it were lost, every chunk reads like the flat file: through its view if it
      has one, from the store otherwise. */
  ghost predicate Coherent(c: Cache) {
    && (forall v :: v in c.h.linked && v in c.chunk && v in c.data && c.chunk[v] !in c.h.lost ==>
          Agrees(c.h, c.chunk[v], c.data[v]))
    && (forall k: Chunk :: k.base % GRANULARITY == 0 && k !in c.h.lost && Uncovered(c, k) ==>
          Agrees(c.h, k, Stored(c.store, k)))
  }

  datatype Part = Alloc | Index | Lru | Dirties | Refs | Account | Writers

  ghost predicate PartOk(p: Part, c: Cache) {
    match p
    case Alloc => AllocOk(c.chunk, c.refs, c.data, c.h)
    case Index => IndexOk(c.lists, c.chunk, c.h.linked)
    case Lru => LruOk(c.lru, c.h.linked, c.h.touched, c.h.clock)
    case Dirties => DirtyOk(c.dirtyList, c.dirty, c.h.linked)
    case Refs => RefsOk(c.refs, c.h.linked, c.dirty, c.h.holds)
    case Account => AccountOk(c.totalDirty, c.dirtyList, c.dirtyPages, c.lists.Keys, c.chunk)
    case Writers => WritersOk(c.h.writers, c.h.holds, c.h.linked, c.h.unsaved, c.dirty)
  }

  /** Lists, counts and references, without the bytes. */
  ghost predicate Structure(c: Cache) {
    forall p: Part :: PartOk(p, c)
  }

  ghost predicate Inv(c: Cache) {
    Structure(c) && CleanOk(c) && Coherent(c)
  }

  /** A cache with no views over a given store. */
  function Initial(store: map<Chunk, View>, files: set<FileId>): (c: Cache) {
    Cache(map[], map[], {}, map[], map f | f in files :: [], [], [], 0, map f | f in files :: 0, store,
          History(0, multiset{}, multiset{}, multiset{}, {}, {}, {}, map[], 0, store, []))
  }
}
