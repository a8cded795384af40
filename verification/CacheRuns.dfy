/** Whole runs of the cache manager: any interleaving, by any number of clients, of lookups,
    creations, copies, marks, releases, flushes (also failing ones), evictions, purges and teardown. */
module CacheRuns {
  import opened Collections
  import opened CacheState
  import opened CacheLists
  import opened CacheSteps
  import opened CacheFlush
  import opened CacheDrop
  import opened CacheEvents

  // ------------------------------------------------------------- what every step keeps

  lemma LookupKeeps(c: Cache, file: FileId, offset: nat)
    requires Inv(c) && Ready(c) && file in c.lists
    ensures Inv(AfterLookup(c, file, offset))
  {
    var found := Covering(c.lists[file], c.chunk, offset);
    if found.Some? {
      HoldKeeps(c, found.value);
    }
  }

  /** Whichever way the creation race goes, the caller ends up with a reference to the one view
      of the chunk: the loser's view is freed and the winner's returned, or its own is linked. */
  lemma InsertKeeps(c: Cache, v: VacbId, offset: nat)
    requires Inv(c) && Ready(c) && ClientMay(c, Insert(v, offset))
    ensures var c', found := AfterInsert(c, v, offset), Covering(c.lists[c.chunk[v].file], c.chunk, offset);
            && Inv(c')
            && (found.None? ==> v in c'.h.linked && c'.h.holds == c.h.holds)
            && (found.Some? ==> found.value in c.h.linked && c.chunk[found.value] == c.chunk[v]
                                && c'.h.holds == c.h.holds + multiset{found.value} - multiset{v})
  {
    hide CleanOk, Coherent, Covering;
    assert PartOk(Alloc, c) && PartOk(Index, c);
    var found := Covering(c.lists[c.chunk[v].file], c.chunk, offset);
    CoveringExact(c, c.chunk[v].file, offset);
    if found.Some? {
      HoldKeeps(c, found.value);
      UnholdKeeps(Hold(c, found.value), v);
    } else {
      LinkKeeps(c, v);
    }
  }

  /** The reference count alone tells that nobody uses the view. */
  lemma UnusedByCount(c: Cache, v: VacbId)
    requires Structure(c) && v in c.h.linked && v in c.refs && c.refs[v] <= 1 + One(v in c.dirty)
    ensures c.h.holds[v] == 0
    ensures c.refs[v] < 2 ==> v !in c.dirty && c.refs[v] == 1
  {
    assert PartOk(Refs, c);
  }

  /** An empty list for one more file, or one fewer. */
  ghost predicate FileChange(c: Cache, d: Cache, f: FileId) {
    || (f !in c.lists && d == c.(lists := c.lists[f := []], dirtyPages := c.dirtyPages[f := 0]))
    || (f in c.lists && c.lists[f] == [] && d == c.(lists := c.lists - {f}, dirtyPages := c.dirtyPages - {f}))
  }

  lemma FileIndex(c: Cache, d: Cache, f: FileId)
    requires IndexOk(c.lists, c.chunk, c.h.linked) && FileChange(c, d, f)
    ensures IndexOk(d.lists, d.chunk, d.h.linked)
  {
    forall g | g in d.lists
      ensures ListOk(d.lists[g], d.chunk, g, d.h.linked)
    {
      assert g in c.lists ==> ListOk(c.lists[g], c.chunk, g, c.h.linked);
    }
  }

  lemma FileAccount(c: Cache, d: Cache, f: FileId)
    requires AccountOk(c.totalDirty, c.dirtyList, c.dirtyPages, c.lists.Keys, c.chunk) && FileChange(c, d, f)
    requires forall v :: v in c.dirtyList && v in c.chunk ==> c.chunk[v].file != f
    ensures AccountOk(d.totalDirty, d.dirtyList, d.dirtyPages, d.lists.Keys, d.chunk)
  {
    CountNone(c.dirtyList, c.chunk, f);
    assert d.dirtyPages.Keys == d.lists.Keys;
  }

  lemma FilePart(c: Cache, d: Cache, f: FileId, p: Part)
    requires Structure(c) && FileChange(c, d, f)
    ensures PartOk(p, d)
  {
    assert PartOk(p, c);
    match p
    case Index => FileIndex(c, d, f);
    case Account =>
      assert PartOk(Dirties, c) && PartOk(Index, c);
      FileAccount(c, d, f);
    case _ =>
  }

  lemma FilesKeep(c: Cache, d: Cache, f: FileId)
    requires Inv(c) && FileChange(c, d, f)
    ensures Inv(d)
  {
    forall p: Part
      ensures PartOk(p, d)
    {
      FilePart(c, d, f, p);
    }
    BytesFrame(c, d);
    CleanFrame(c, d);
  }

  lemma {:induction false} CountNone(s: seq<VacbId>, chunk: map<VacbId, Chunk>, file: FileId)
    requires forall v :: v in s && v in chunk ==> chunk[v].file != file
    ensures CountIn(s, chunk, file) == 0
  {
    if s == [] {
    } else {
      CountNone(s[1..], chunk, file);
    }
  }

  lemma MarkingKeeps(c: Cache, marking: multiset<VacbId>)
    requires Inv(c)
    ensures Inv(WithMarking(c, marking))
  {
    var d := WithMarking(c, marking);
    forall p: Part
      ensures PartOk(p, d)
    {
      assert PartOk(p, c);
      if p.Alloc? {
        AllocSame(c, d);
      }
    }
    BytesFrame(c, d);
    CleanFrame(c, d);
  }

  lemma MarkNowExactly(c: Cache, v: VacbId, wrote: bool)
    requires Inv(c) && v in c.h.linked
    ensures Accounted(c, v)
    ensures Inv(Settled(MarkDirty(WithMarking(c, c.h.marking - multiset{v}), v), v, wrote)) <==> v !in c.dirty
  {
    hide CleanOk, Coherent;
    LinkedFacts(c, v);
    var m := WithMarking(c, c.h.marking - multiset{v});
    MarkingKeeps(c, c.h.marking - multiset{v});
    if v in c.dirty {
      MarkTwice(m, v);
      assert !PartOk(Dirties, Settled(MarkDirty(m, v), v, wrote));
    } else {
      MarkDirtyKeeps(m, v);
      WriterDoneKeeps(MarkDirty(m, v), v);
    }
  }

  lemma AcquireKeeps(c: Cache, e: ClientEvent)
    requires Inv(c) && Ready(c) && ClientMay(c, e)
    requires e.Lookup? || e.PickDirty? || e.Create? || e.Insert? || e.LetGo? || e.Use?
    ensures Inv(ClientStep(c, e))
  {
    hide Inv, AfterLookup, AfterInsert, Hold, Unhold, New, Touch;
    match e
    case Lookup(f, offset) => LookupKeeps(c, f, offset);
    case PickDirty(v) => HoldKeeps(c, v);
    case Create(f, offset) => NewKeeps(c, f, offset);
    case Insert(v, offset) => InsertKeeps(c, v, offset);
    case LetGo(v) => UnholdKeeps(c, v);
    case Use(v) => TouchKeeps(c, v);
  }

  lemma WorkKeeps(c: Cache, e: ClientEvent)
    requires Inv(c) && Ready(c) && ClientMay(c, e)
    requires e.CopyIn? || e.CopyMore? || e.FoundDirty? || e.FoundClean? || e.ReleaseIt? || e.AbandonIt?
    ensures Inv(ClientStep(c, e))
  {
    hide Inv, Unhold, WriteView, WriteMore, WriterDone, WithMarking, Abandon;
    match e
    case CopyIn(v, at, bytes) => WriteKeeps(c, v, at, bytes);
    case CopyMore(v, at, bytes) => WriteMoreKeeps(c, v, at, bytes);
    case FoundDirty(v, _) => WriterDoneKeeps(c, v);
    case FoundClean(v) => MarkingKeeps(c, c.h.marking + multiset{v});
    case ReleaseIt(v) => UnholdKeeps(c, v);
    case AbandonIt(v) => AbandonKeeps(c, v);
  }

  lemma ClientStepExactly(c: Cache, e: ClientEvent)
    requires Inv(c) && Ready(c) && ClientMay(c, e)
    ensures Inv(ClientStep(c, e)) <==> Asserted(c, Client(e))
  {
    hide Inv;
    if e.Lookup? || e.PickDirty? || e.Create? || e.Insert? || e.LetGo? || e.Use? {
      hide ClientStep;
      AcquireKeeps(c, e);
    } else if e.CopyIn? || e.CopyMore? || e.FoundDirty? || e.FoundClean? || e.ReleaseIt? || e.AbandonIt? {
      hide ClientStep;
      WorkKeeps(c, e);
    } else {
      hide Settled, MarkDirty, WithMarking, BeginFlush, EndFlush;
      match e
      case MarkNow(v, wrote) => MarkNowExactly(c, v, wrote);
      case FlushBegins(v) => BeginFlushExactly(c, v);
      case FlushEnds(v, ok, torn) => EndFlushExactly(c, v, ok, torn);
    }
  }

  lemma NotAnswered(c: Cache, v: VacbId)
    requires Structure(c) && c.h.holds[v] == 0
    ensures c.h.writers[v] == 0
  {
    assert PartOk(Writers, c) && c.h.writers[v] <= c.h.holds[v];
  }

  lemma ManagerStepKeeps(c: Cache, e: ManagerEvent)
    requires Inv(c) && Ready(c) && ManagerMay(c, e)
    ensures Inv(ManagerStep(c, e))
  {
    match e
    case Evict(v) => UnusedByCount(c, v); NotAnswered(c, v); DetachKeeps(c, v);
    case Purge(v) => UnusedByCount(c, v); NotAnswered(c, v); DetachKeeps(c, v);
    case Close(v, ok, torn) => CloseViewKeeps(c, v, ok, torn);
    case MmWrites(v, bytes) => SaveKeeps(c, v, bytes);
    case OpenFile(f) => FilesKeep(c, ManagerStep(c, e), f);
    case CloseFile(f) => FilesKeep(c, ManagerStep(c, e), f);
  }

  /** A step keeps the invariant exactly if it trips none of the two assertions on Dirty. */
  lemma StepExactly(c: Cache, e: Event)
    requires Inv(c) && Ready(c) && Enabled(c, e)
    ensures Inv(Step(c, e)) <==> Asserted(c, e)
  {
    match e
    case Client(x) => ClientStepExactly(c, x);
    case Manager(y) => ManagerStepKeeps(c, y);
  }

  // ------------------------------------------------------------- every run

  ghost predicate IsRun(states: seq<Cache>, events: seq<Event>, store: map<Chunk, View>, files: set<FileId>) {
    && |states| == |events| + 1 && states[0] == Initial(store, files)
    && forall i :: 0 <= i < |events| ==>
         Ready(states[i]) && Enabled(states[i], events[i]) && states[i + 1] == Step(states[i], events[i])
  }

  /** None of the first `n` events trips an assertion. */
  ghost predicate Clear(states: seq<Cache>, events: seq<Event>, n: nat)
    requires n <= |events| <= |states|
  {
    forall i :: 0 <= i < n ==> Asserted(states[i], events[i])
  }

  lemma InitialInv(store: map<Chunk, View>, files: set<FileId>)
    ensures Inv(Initial(store, files))
  {
  }

  /** The invariant holds as long as no assertion has been tripped. */
  lemma {:induction false} RunInv(states: seq<Cache>, events: seq<Event>, store: map<Chunk, View>, files: set<FileId>, n: nat)
    requires IsRun(states, events, store, files) && n < |states| && Clear(states, events, n)
    ensures Inv(states[n])
  {
    hide Step, Enabled, Asserted, Initial, Ready, Inv;
    if n == 0 {
      InitialInv(store, files);
    } else {
      RunInv(states, events, store, files, n - 1);
      StepExactly(states[n - 1], events[n - 1]);
    }
  }

  /** The first event that trips one breaks it. */
  lemma FirstTripBreaks(states: seq<Cache>, events: seq<Event>, store: map<Chunk, View>, files: set<FileId>, n: nat)
    requires IsRun(states, events, store, files) && n < |events| && Clear(states, events, n)
    ensures Inv(states[n + 1]) <==> Asserted(states[n], events[n])
  {
    hide Step, Enabled, Asserted, Initial, Ready, Inv;
    RunInv(states, events, store, files, n);
    StepExactly(states[n], events[n]);
  }

  /** Until then a run goes on with any event its last state allows. */
  lemma RunExtends(states: seq<Cache>, events: seq<Event>, store: map<Chunk, View>, files: set<FileId>, e: Event)
    requires IsRun(states, events, store, files) && Clear(states, events, |events|) && Enabled(states[|events|], e)
    ensures Ready(states[|events|])
    ensures IsRun(states + [Step(states[|events|], e)], events + [e], store, files)
  {
    hide Step, Enabled, Asserted, Inv, Initial, Ready;
    RunInv(states, events, store, files, |events|);
    InvIsReady(states[|events|]);
  }

  /** Reference counts are exact in every state reached without tripping an assertion; a VACB whose count would be zero does
      not exist, and an unlinked one is on no list. */
  lemma RefsAreExact(states: seq<Cache>, events: seq<Event>, store: map<Chunk, View>, files: set<FileId>, n: nat, v: VacbId)
    requires IsRun(states, events, store, files) && n < |states| && Clear(states, events, n) && v in states[n].refs
    ensures var c := states[n];
            && c.refs[v] == One(v in c.h.linked) + One(v in c.dirtyList) + c.h.holds[v] && c.refs[v] > 0
            && (v in c.h.linked <==> v in c.lru)
            && (v in c.h.linked <==> v in c.chunk && c.chunk[v].file in c.lists && v in c.lists[c.chunk[v].file])
  {
    hide Step, Enabled, CleanOk, Coherent;
    RunInv(states, events, store, files, n);
    var c := states[n];
    assert PartOk(Refs, c) && PartOk(Dirties, c) && PartOk(Lru, c) && PartOk(Index, c) && PartOk(Alloc, c);
    if v in c.chunk && c.chunk[v].file in c.lists && v in c.lists[c.chunk[v].file] {
      assert ListOk(c.lists[c.chunk[v].file], c.chunk, c.chunk[v].file, c.h.linked);
    }
  }

  /** The LRU list is ordered by the time of the last touch. */
  lemma LruIsOrdered(states: seq<Cache>, events: seq<Event>, store: map<Chunk, View>, files: set<FileId>, n: nat, i: nat, j: nat)
    requires IsRun(states, events, store, files) && n < |states| && Clear(states, events, n) && i < j < |states[n].lru|
    ensures var c := states[n];
            && c.lru[i] != c.lru[j] && c.lru[i] in c.h.touched && c.lru[j] in c.h.touched
            && c.h.touched[c.lru[i]] < c.h.touched[c.lru[j]] < c.h.clock
  {
    hide Step, Enabled, CleanOk, Coherent;
    RunInv(states, events, store, files, n);
    assert PartOk(Lru, states[n]);
  }

  /** The index is a faithful map: at most one view per chunk, lists strictly increasing in
      aligned offsets, and a lookup finds the covering view exactly when there is one. */
  lemma IndexIsFaithful(states: seq<Cache>, events: seq<Event>, store: map<Chunk, View>, files: set<FileId>, n: nat,
                        file: FileId, offset: nat)
    requires IsRun(states, events, store, files) && n < |states| && Clear(states, events, n) && file in states[n].lists
    ensures var c := states[n];
            var found := Covering(c.lists[file], c.chunk, offset);
            && ListOk(c.lists[file], c.chunk, file, c.h.linked)
            && (found.Some? ==> found.value in c.h.linked && c.chunk[found.value] == Chunk(file, RoundDown(offset)))
            && (found.None? <==> Uncovered(c, Chunk(file, RoundDown(offset))))
            && (forall u, w :: u in c.h.linked && w in c.h.linked ==>
                  u in c.chunk && w in c.chunk && (c.chunk[u] == c.chunk[w] ==> u == w))
  {
    hide Step, Enabled, CleanOk, Coherent;
    RunInv(states, events, store, files, n);
    var c := states[n];
    assert PartOk(Alloc, c) && PartOk(Index, c);
    CoveringExact(c, file, offset);
    forall u, w | u in c.h.linked && w in c.h.linked && c.chunk[u] == c.chunk[w]
      ensures u == w
    {
      UniqueChunk(c, u, w);
    }
  }

  /** What a read of one byte sees: the view of its chunk, or the store if there is none. */
  function ReadByte(c: Cache, file: FileId, offset: nat): (b: Byte)
    requires c.chunk.Keys == c.data.Keys
  {
    var found := if file in c.lists then Covering(c.lists[file], c.chunk, offset) else None;
    if found.Some? then c.data[found.value][offset - c.chunk[found.value].base]
    else Stored(c.store, Chunk(file, RoundDown(offset)))[offset - RoundDown(offset)]
  }

  lemma ReadIsFlat(c: Cache, file: FileId, offset: nat)
    requires Inv(c) && Chunk(file, RoundDown(offset)) !in c.h.lost
    ensures c.chunk.Keys == c.data.Keys && ReadByte(c, file, offset) == FlatByte(c.h.initial, c.h.writes, file, offset)
  {
    hide FlatByte, Covering, ListOk, Stored;
    assert PartOk(Alloc, c) && PartOk(Index, c);
    var k, i := Chunk(file, RoundDown(offset)), offset - RoundDown(offset);
    if file in c.lists {
      CoveringExact(c, file, offset);
      var found := Covering(c.lists[file], c.chunk, offset);
      if found.Some? {
        assert Agrees(c.h, k, c.data[found.value]);
      } else {
        assert Agrees(c.h, k, Stored(c.store, k));
      }
    } else {
      assert Uncovered(c, k);
      assert Agrees(c.h, k, Stored(c.store, k));
    }
  }

  /** Steps that leave bytes without anyone to answer for them: purging a dirty view, closing a
      dirty view that cannot be written, and giving up a write to a view that is not dirty. */
  predicate Loses(c: Cache, e: Event) {
    match e
    case Client(x) => x.AbandonIt? && x.v !in c.dirty
    case Manager(y) => (y.Purge? && y.v in c.dirty) || (y.Close? && !y.ok && y.v in c.dirty)
  }

  /** Nothing is lost, and nothing new is left unprotected. */
  ghost predicate Steady(c: Cache, d: Cache) {
    d.h.lost == c.h.lost && d.h.unsaved <= c.h.unsaved
  }

  lemma HoldSteady(c: Cache, v: VacbId)
    requires v in c.refs
    ensures Steady(c, Hold(c, v)) && Steady(c, Unhold(c, v))
  {
  }

  lemma LookupSteady(c: Cache, file: FileId, offset: nat)
    requires file in c.lists && c.chunk.Keys == c.refs.Keys
    ensures Steady(c, AfterLookup(c, file, offset))
  {
  }

  lemma NewSteady(c: Cache, file: FileId, offset: nat)
    ensures Steady(c, New(c, file, offset))
  {
  }

  lemma MarkSteady(c: Cache, v: VacbId)
    requires Accounted(c, v)
    ensures Steady(c, MarkDirty(c, v))
  {
  }

  lemma InsertSteady(c: Cache, v: VacbId, offset: nat)
    requires v in c.chunk && c.chunk[v].file in c.lists && c.chunk.Keys == c.refs.Keys
    ensures Steady(c, AfterInsert(c, v, offset))
  {
  }

  lemma AbandonSteady(c: Cache, v: VacbId)
    requires v in c.refs && v in c.dirty
    ensures Steady(c, Abandon(c, v))
  {
  }

  lemma FlushSteady(c: Cache, v: VacbId, ok: bool, torn: View)
    requires Accounted(c, v) && v in c.data
    ensures Steady(c, BeginFlush(c, v)) && Steady(c, EndFlush(c, v, ok, torn))
  {
  }

  lemma WriteSteady(c: Cache, v: VacbId, at: nat, bytes: seq<Byte>)
    requires v in c.chunk && v in c.data && at + |bytes| <= GRANULARITY
    ensures Steady(c, WriteView(c, v, at, bytes)) && Steady(c, WriteMore(c, v, at, bytes))
  {
  }

  lemma ClientSteady(c: Cache, e: ClientEvent)
    requires Ready(c) && ClientMay(c, e) && !Loses(c, Client(e))
    ensures Steady(c, ClientStep(c, e))
  {
    hide AfterInsert, Abandon, BeginFlush, EndFlush, Hold, Unhold, AfterLookup, New, MarkDirty, Without, WriteView, WriteMore;
    match e
    case CopyIn(v, at, bytes) => WriteSteady(c, v, at, bytes);
    case CopyMore(v, at, bytes) => WriteSteady(c, v, at, bytes);
    case Lookup(f, offset) => LookupSteady(c, f, offset);
    case PickDirty(v) => HoldSteady(c, v);
    case LetGo(v) => HoldSteady(c, v);
    case ReleaseIt(v) => HoldSteady(c, v);
    case Create(f, offset) => NewSteady(c, f, offset);
    case MarkNow(v, _) => MarkSteady(WithMarking(c, c.h.marking - multiset{v}), v);
    case Insert(v, offset) => InsertSteady(c, v, offset);
    case AbandonIt(v) => AbandonSteady(c, v);
    case FlushBegins(v) => FlushSteady(c, v, true, c.data[v]);
    case FlushEnds(v, ok, torn) => FlushSteady(c, v, ok, torn);
    case _ =>
  }

  lemma DetachSteady(c: Cache, v: VacbId)
    requires Accounted(c, v) && c.chunk[v].file in c.lists && v !in c.dirty && v !in c.h.unsaved
    ensures Steady(c, Detach(c, v))
  {
  }

  lemma CloseSteady(c: Cache, v: VacbId, ok: bool, torn: View)
    requires Accounted(c, v) && v in c.data && c.chunk[v].file in c.lists && (ok || v !in c.dirty) && v !in c.h.unsaved
    ensures Steady(c, CloseView(c, v, ok, torn))
  {
  }

  lemma ManagerSteady(c: Cache, e: ManagerEvent)
    requires Structure(c) && Ready(c) && ManagerMay(c, e) && !Loses(c, Manager(e)) && c.h.unsaved == {}
    ensures Steady(c, ManagerStep(c, e))
  {
    match e
    case Evict(v) => UnusedByCount(c, v); DetachSteady(c, v);
    case Purge(v) => DetachSteady(c, v);
    case Close(v, ok, torn) => CloseSteady(c, v, ok, torn);
    case _ =>
  }

  lemma StepSteady(c: Cache, e: Event)
    requires Structure(c) && Ready(c) && Enabled(c, e) && !Loses(c, e) && c.h.unsaved == {}
    ensures Steady(c, Step(c, e))
  {
    match e
    case Client(x) => ClientSteady(c, x);
    case Manager(y) => ManagerSteady(c, y);
  }

  lemma {:induction false} NothingLost(states: seq<Cache>, events: seq<Event>, store: map<Chunk, View>, files: set<FileId>, n: nat)
    requires IsRun(states, events, store, files) && n < |states| && Clear(states, events, n)
    requires forall i :: 0 <= i < n ==> !Loses(states[i], events[i])
    ensures states[n].h.lost == {} && states[n].h.unsaved == {}
  {
    hide Step, Enabled, Asserted, Structure, Ready, Loses;
    if n == 0 {
    } else {
      NothingLost(states, events, store, files, n - 1);
      RunInv(states, events, store, files, n - 1);
      StepSteady(states[n - 1], events[n - 1]);
    }
  }

  /** Coherence: over every interleaving of writes, marks, releases, flushes that may fail,
      evictions, purges and teardowns in which nothing unsaved is dropped and no assertion is
      tripped, every byte reads as in a flat file given the same writes. */
  lemma CacheIsCoherent(states: seq<Cache>, events: seq<Event>, store: map<Chunk, View>, files: set<FileId>, n: nat,
                        file: FileId, offset: nat)
    requires IsRun(states, events, store, files) && n < |states| && Clear(states, events, n)
    requires forall i :: 0 <= i < n ==> !Loses(states[i], events[i])
    ensures states[n].chunk.Keys == states[n].data.Keys
    ensures ReadByte(states[n], file, offset) == FlatByte(states[n].h.initial, states[n].h.writes, file, offset)
  {
    hide Step, Enabled, Asserted, Inv;
    RunInv(states, events, store, files, n);
    NothingLost(states, events, store, files, n);
    ReadIsFlat(states[n], file, offset);
  }
}
