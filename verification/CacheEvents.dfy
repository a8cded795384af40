/** The steps of the cache manager, as its clients and its own threads interleave them. A step is a
    locked section, or what a thread does between two of them; its guard is what the code tests or
    its callers guarantee. Who answers for a view is counted, not named: a client says with its
    mark whether it wrote, and a mark by one that did not leaves the others' entries alone. */
module CacheEvents {
  import opened CacheState

  datatype ClientEvent =
    | Lookup(file: FileId, offset: nat)                    // CcRosLookupVacb
    | PickDirty(v: VacbId)                                 // CcRosFlushDirtyPages: a reference from the dirty list
    | Create(file: FileId, offset: nat)                    // CcRosCreateVacb: allocation
    | Insert(v: VacbId, offset: nat)                       // CcRosCreateVacb: locked section
    | LetGo(v: VacbId)                                     // the last use of a VACB that is on no list
    | Use(v: VacbId)                                       // CcRosGetVacb: move to the LRU tail
    | CopyIn(v: VacbId, at: nat, bytes: seq<Byte>)         // a client writes through the view
    | CopyMore(v: VacbId, at: nat, bytes: seq<Byte>)       // and again, before it marks the view
    | FoundDirty(v: VacbId, wrote: bool)                   // the test of Dirty before marking: nothing to do
    | FoundClean(v: VacbId)                                // the same test: the view is to be marked
    | MarkNow(v: VacbId, wrote: bool)                      // CcRosMarkDirtyVacb after that test
    | ReleaseIt(v: VacbId)                                 // CcRosReleaseVacb: the reference
    | AbandonIt(v: VacbId)                                 // release after MmMakeSegmentDirty failed
    | FlushBegins(v: VacbId)                               // CcRosFlushVacb: unmark
    | FlushEnds(v: VacbId, ok: bool, torn: View)           // CcRosFlushVacb: Mm has answered

  datatype ManagerEvent =
    | Evict(v: VacbId)                                     // CcRosFreeOneUnusedVacb, CcRosTrimCache: locked part
    | Purge(v: VacbId)                                     // CcPurgeCacheSection: locked part
    | Close(v: VacbId, ok: bool, torn: View)               // CcRosDeleteFileCache, per view
    | MmWrites(v: VacbId, bytes: View)                     // Mm writes pages of a mapped view by itself
    | OpenFile(file: FileId)
    | CloseFile(file: FileId)

  datatype Event = Client(client: ClientEvent) | Manager(manager: ManagerEvent)

  /** What clients guarantee: they give back only what they hold, and one that has written marks
      the view or abandons it before it releases it. */
  ghost predicate ClientMay(c: Cache, e: ClientEvent) {
    match e
    case Lookup(f, _) => f in c.lists
    case PickDirty(v) => v in c.dirty
    case Create(f, _) => f in c.lists
    case Insert(v, offset) =>
      && v in c.chunk && v !in c.h.linked && c.h.writers[v] < c.h.holds[v] && c.chunk[v].file in c.lists
      && c.chunk[v].base == RoundDown(offset)
    case LetGo(v) => v in c.chunk && v !in c.h.linked && c.h.writers[v] < c.h.holds[v]
    case Use(v) => v in c.h.linked && c.h.holds[v] > 0
    case CopyIn(v, at, bytes) => v in c.h.linked && c.h.writers[v] < c.h.holds[v] && at + |bytes| <= GRANULARITY
    case CopyMore(v, at, bytes) => v in c.h.writers && at + |bytes| <= GRANULARITY
    case FoundDirty(v, _) => v in c.h.linked && c.h.holds[v] > 0 && v in c.dirty
    case FoundClean(v) => v in c.h.linked && c.h.holds[v] > 0 && v !in c.dirty
    case MarkNow(v, _) => v in c.h.linked && c.h.holds[v] > 0 && v in c.h.marking
    case ReleaseIt(v) => v in c.h.linked && c.h.writers[v] < c.h.holds[v]
    case AbandonIt(v) => v in c.h.linked && v in c.h.writers
    case FlushBegins(v) => v in c.h.linked && c.h.writers[v] < c.h.holds[v]
    case FlushEnds(v, _, _) => v in c.h.linked && v in c.h.writers
  }

  /** Views are evicted and purged on the tested reference counts alone; a file is torn down when
      nobody is in the middle of a write or flush of its views. Mm writes a view page by page and
      whenever it likes, so that the store may get a mix of its bytes at several times; these are
      the same unless the view is dirty, abandoned or answered for. */
  ghost predicate ManagerMay(c: Cache, e: ManagerEvent) {
    match e
    case Evict(v) => v in c.h.linked && v in c.refs && c.refs[v] < 2
    case Purge(v) => v in c.h.linked && v in c.refs && c.refs[v] <= 1 + One(v in c.dirty)
    case Close(v, _, _) => v in c.h.linked && c.h.writers[v] == 0
    case MmWrites(v, bytes) => v in c.h.linked && v in c.data
                               && (bytes == c.data[v] || v in c.dirty || v in c.h.unsaved || c.h.writers[v] > 0)
    case OpenFile(f) => f !in c.lists
    case CloseFile(f) => f in c.lists && c.lists[f] == []
  }

  ghost predicate Enabled(c: Cache, e: Event) {
    match e
    case Client(x) => ClientMay(c, x)
    case Manager(y) => ManagerMay(c, y)
  }

  /** The assertions on Dirty in CcRosMarkDirtyVacb and CcRosUnmarkDirtyVacb. */
  predicate Asserted(c: Cache, e: Event) {
    match e
    case Client(FlushBegins(v)) => v in c.dirty
    case Client(FlushEnds(v, ok, _)) => ok || v !in c.dirty
    case Client(MarkNow(v, _)) => v !in c.dirty
    case _ => true
  }

  /** The locked search of CcRosLookupVacb. */
  function AfterLookup(c: Cache, file: FileId, offset: nat): (c': Cache)
    requires file in c.lists && c.chunk.Keys == c.refs.Keys
  {
    var found := Covering(c.lists[file], c.chunk, offset);
    if found.Some? then Hold(c, found.value) else c
  }

  /** The locked section of CcRosCreateVacb: whoever linked a view for the chunk first wins. */
  function AfterInsert(c: Cache, v: VacbId, offset: nat): (c': Cache)
    requires v in c.chunk && c.chunk[v].file in c.lists && c.chunk.Keys == c.refs.Keys
  {
    var found := Covering(c.lists[c.chunk[v].file], c.chunk, offset);
    if found.Some? then Unhold(Hold(c, found.value), v) else Link(c, v)
  }

  function WithMarking(c: Cache, marking: multiset<VacbId>): (c': Cache) {
    c.(h := c.h.(marking := marking))
  }

  /** The dirty mark covers what the client has written, if it has. */
  function Settled(c: Cache, v: VacbId, wrote: bool): (c': Cache) {
    if wrote then WriterDone(c, v) else c
  }

  ghost predicate Ready(c: Cache) {
    && c.chunk.Keys == c.refs.Keys == c.data.Keys && c.h.linked <= c.chunk.Keys && c.dirty <= c.h.linked
    && c.dirtyPages.Keys == c.lists.Keys
    && (forall v :: v in c.h.linked ==> c.chunk[v].file in c.lists)
    && (forall v :: v in c.h.holds ==> v in c.chunk)
    && (forall v :: v in c.h.writers ==> v in c.h.holds)
  }

  ghost function ClientStep(c: Cache, e: ClientEvent): (c': Cache)
    requires Ready(c) && ClientMay(c, e)
  {
    match e
    case Lookup(f, offset) => AfterLookup(c, f, offset)
    case PickDirty(v) => Hold(c, v)
    case Create(f, offset) => New(c, f, offset)
    case Insert(v, offset) => AfterInsert(c, v, offset)
    case LetGo(v) => Unhold(c, v)
    case Use(v) => Touch(c, v)
    case CopyIn(v, at, bytes) => WriteView(c, v, at, bytes)
    case CopyMore(v, at, bytes) => WriteMore(c, v, at, bytes)
    case FoundDirty(v, wrote) => Settled(c, v, wrote)
    case FoundClean(v) => WithMarking(c, c.h.marking + multiset{v})
    case MarkNow(v, wrote) => Settled(MarkDirty(WithMarking(c, c.h.marking - multiset{v}), v), v, wrote)
    case ReleaseIt(v) => Unhold(c, v)
    case AbandonIt(v) => Abandon(c, v)
    case FlushBegins(v) => BeginFlush(c, v)
    case FlushEnds(v, ok, torn) => EndFlush(c, v, ok, torn)
  }

  /** A holder may release: one that has written says that the view is dirty. */
  ghost predicate Releasable(c: Cache, v: VacbId, dirty: bool) {
    v in c.h.linked && c.h.holds[v] > 0 && (!dirty ==> c.h.writers[v] < c.h.holds[v])
  }

  ghost function ManagerStep(c: Cache, e: ManagerEvent): (c': Cache)
    requires Ready(c) && ManagerMay(c, e)
  {
    match e
    case Evict(v) => Detach(c, v)
    case Purge(v) => Detach(c, v)
    case Close(v, ok, torn) => CloseView(c, v, ok, torn)
    case MmWrites(v, bytes) => Save(c, v, bytes)
    case OpenFile(f) => c.(lists := c.lists[f := []], dirtyPages := c.dirtyPages[f := 0])
    case CloseFile(f) => c.(lists := c.lists - {f}, dirtyPages := c.dirtyPages - {f})
  }

  ghost function Step(c: Cache, e: Event): (c': Cache)
    requires Ready(c) && Enabled(c, e)
  {
    match e
    case Client(x) => ClientStep(c, x)
    case Manager(y) => ManagerStep(c, y)
  }

  lemma InvIsReady(c: Cache)
    requires Inv(c)
    ensures Ready(c)
  {
    assert PartOk(Alloc, c) && PartOk(Dirties, c) && PartOk(Account, c) && PartOk(Index, c) && PartOk(Writers, c);
    forall v | v in c.h.writers
      ensures v in c.h.holds
    {
      assert c.h.writers[v] <= c.h.holds[v];
    }
  }
}
