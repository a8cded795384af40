/** When a VACB is freed: exactly once, with its last reference, on no list and held by nobody. */
module CacheFreed {
  import opened CacheState
  import opened CacheLists
  import opened CacheSteps
  import opened CacheEvents
  import opened CacheRuns

  /** References to `v` that an event gives back; that of the dirty list goes with the mark. */
  function GivesBack(c: Cache, e: Event, v: VacbId): (n: nat) {
    match e
    case Client(LetGo(u)) => One(u == v)
    case Client(ReleaseIt(u)) => One(u == v)
    case Client(AbandonIt(u)) => One(u == v)
    case Client(FlushBegins(u)) => One(u == v)
    case Client(Insert(u, offset)) =>
      One(u == v && u in c.chunk && c.chunk[u].file in c.lists && Covering(c.lists[c.chunk[u].file], c.chunk, offset).Some?)
    case Manager(Evict(u)) => One(u == v && u in c.dirty)
    case Manager(Purge(u)) => One(u == v && u in c.dirty)
    case Manager(Close(u, _, _)) => One(u == v && u in c.dirty)
    case _ => 0
  }

  lemma UnholdFrees(c: Cache, u: VacbId, v: VacbId)
    requires u in c.refs && v in c.refs
    ensures v !in Unhold(c, u).refs <==> u == v && c.refs[v] == 1
  {
  }

  /** A linked VACB somebody holds has a reference to spare. */
  lemma LinkedAndHeld(c: Cache, v: VacbId)
    requires Structure(c) && v in c.h.linked && c.h.holds[v] > 0
    ensures v in c.refs && c.refs[v] >= 2
  {
    assert PartOk(Alloc, c) && PartOk(Refs, c);
  }

  lemma InsertFrees(c: Cache, u: VacbId, offset: nat, v: VacbId)
    requires Structure(c) && Ready(c) && ClientMay(c, Insert(u, offset)) && v in c.refs
    ensures v !in AfterInsert(c, u, offset).refs <==> GivesBack(c, Client(Insert(u, offset)), v) == c.refs[v]
  {
    hide Covering, InsertSorted;
    assert PartOk(Alloc, c) && PartOk(Index, c) && PartOk(Refs, c);
    CoveringExact(c, c.chunk[u].file, offset);
    var found := Covering(c.lists[c.chunk[u].file], c.chunk, offset);
    if found.Some? {
      UnholdFrees(Hold(c, found.value), u, v);
    }
  }

  lemma AbandonKeepsVacbs(c: Cache, u: VacbId)
    requires u in c.refs && c.refs[u] >= 2
    ensures Abandon(c, u).refs.Keys == c.refs.Keys
  {
  }

  lemma FlushKeepsVacbs(c: Cache, u: VacbId, ok: bool, torn: View)
    requires Accounted(c, u) && u in c.data
    ensures BeginFlush(c, u).refs.Keys == c.refs.Keys && EndFlush(c, u, ok, torn).refs.Keys == c.refs.Keys
  {
  }

  lemma PlainKeepsVacbs(c: Cache, e: ClientEvent)
    requires Ready(c) && ClientMay(c, e)
    requires e.Lookup? || e.PickDirty? || e.Create? || e.Use? || e.CopyIn? || e.CopyMore? || e.FoundDirty? || e.FoundClean? || e.MarkNow?
    ensures c.refs.Keys <= ClientStep(c, e).refs.Keys
  {
    hide Covering, Without, Splice;
  }

  lemma ReleaseFrees(c: Cache, e: ClientEvent, v: VacbId)
    requires Structure(c) && Ready(c) && ClientMay(c, e) && v in c.refs && (e.LetGo? || e.ReleaseIt? || e.AbandonIt?)
    ensures v !in ClientStep(c, e).refs <==> GivesBack(c, Client(e), v) == c.refs[v]
  {
    hide Unhold, Abandon, Structure;
    Positive(c, v);
    match e
    case LetGo(u) => UnholdFrees(c, u, v);
    case ReleaseIt(u) => UnholdFrees(c, u, v);
    case AbandonIt(u) => LinkedAndHeld(c, u); AbandonKeepsVacbs(c, u);
  }

  lemma FlushFrees(c: Cache, e: ClientEvent, v: VacbId)
    requires Structure(c) && Ready(c) && ClientMay(c, e) && v in c.refs && (e.FlushBegins? || e.FlushEnds?)
    ensures v !in ClientStep(c, e).refs <==> GivesBack(c, Client(e), v) == c.refs[v]
  {
    hide BeginFlush, EndFlush, Structure;
    Positive(c, v);
    match e
    case FlushBegins(u) => LinkedAndHeld(c, u); FlushKeepsVacbs(c, u, true, c.data[u]);
    case FlushEnds(u, ok, torn) => FlushKeepsVacbs(c, u, ok, torn);
  }

  lemma ClientFrees(c: Cache, e: ClientEvent, v: VacbId)
    requires Structure(c) && Ready(c) && ClientMay(c, e) && v in c.refs
    ensures v !in ClientStep(c, e).refs <==> GivesBack(c, Client(e), v) == c.refs[v]
  {
    hide Structure, Ready, AfterInsert;
    Positive(c, v);
    if e.Insert? {
      InsertFrees(c, e.v, e.offset, v);
    } else {
      hide ClientStep, ClientMay;
      if e.LetGo? || e.ReleaseIt? || e.AbandonIt? {
        ReleaseFrees(c, e, v);
      } else if e.FlushBegins? || e.FlushEnds? {
        FlushFrees(c, e, v);
      } else {
        PlainKeepsVacbs(c, e);
      }
    }
  }

  lemma Positive(c: Cache, v: VacbId)
    requires Structure(c) && v in c.refs
    ensures c.refs[v] > 0
  {
    assert PartOk(Refs, c);
  }

  lemma ManagerFrees(c: Cache, e: ManagerEvent)
    requires Ready(c) && ManagerMay(c, e)
    ensures ManagerStep(c, e).refs.Keys == c.refs.Keys
  {
    hide Without;
  }

  lemma StepFrees(c: Cache, e: Event, v: VacbId)
    requires Structure(c) && Ready(c) && Enabled(c, e) && v in c.refs
    ensures v !in Step(c, e).refs <==> GivesBack(c, e, v) == c.refs[v]
  {
    hide Structure;
    Positive(c, v);
    match e
    case Client(x) => ClientFrees(c, x, v);
    case Manager(y) =>
      ManagerFrees(c, y);
      if v in c.dirty {
        DirtyHasTwo(c, v);
      }
  }

  /** The dirty list's reference is never the only one. */
  lemma DirtyHasTwo(c: Cache, v: VacbId)
    requires Structure(c) && v in c.dirty && v in c.refs
    ensures c.refs[v] >= 2
  {
    assert PartOk(Dirties, c) && PartOk(Refs, c);
  }

  /** Neither listed nor held. */
  ghost predicate Forgotten(c: Cache, v: VacbId) {
    && v !in c.h.linked && v !in c.h.holds && v !in c.lru && v !in c.dirtyList && v !in c.dirty
    && (forall f :: f in c.lists ==> v !in c.lists[f])
  }

  lemma UnallocatedIsForgotten(c: Cache, v: VacbId)
    requires Structure(c) && v !in c.refs
    ensures Forgotten(c, v)
  {
    assert PartOk(Alloc, c) && PartOk(Lru, c) && PartOk(Dirties, c) && PartOk(Index, c);
    forall f | f in c.lists
      ensures v !in c.lists[f]
    {
      assert ListOk(c.lists[f], c.chunk, f, c.h.linked);
    }
  }

  /** An event frees a VACB exactly when it gives back all the references the count shows. Then the
      count is one, the VACB is already on no list (file, LRU, dirty), and afterwards nobody holds
      it: what CcRosInternalFreeVacb asserts. */
  lemma FreedExactly(states: seq<Cache>, events: seq<Event>, store: map<Chunk, View>, files: set<FileId>, n: nat, v: VacbId)
    requires IsRun(states, events, store, files) && n < |events| && Clear(states, events, n + 1) && v in states[n].refs
    ensures v !in states[n + 1].refs <==> GivesBack(states[n], events[n], v) == states[n].refs[v]
    ensures v !in states[n + 1].refs ==>
              && states[n].refs[v] == 1 && v !in states[n].h.linked && v !in states[n].lru && v !in states[n].dirtyList
              && (forall f :: f in states[n].lists ==> v !in states[n].lists[f]) && states[n].h.holds[v] == 1
              && Forgotten(states[n + 1], v)
  {
    hide Step, Enabled, Asserted, Ready, CleanOk, Coherent, GivesBack, Forgotten;
    RunInv(states, events, store, files, n);
    RunInv(states, events, store, files, n + 1);
    StepFrees(states[n], events[n], v);
    if v !in states[n + 1].refs {
      UnallocatedIsForgotten(states[n + 1], v);
      LastReferenceIsHeld(states[n], events[n], v);
    }
  }

  lemma LastReferenceIsHeld(c: Cache, e: Event, v: VacbId)
    requires Structure(c) && Ready(c) && Enabled(c, e) && v in c.refs && GivesBack(c, e, v) == c.refs[v]
    ensures c.refs[v] == 1 && v !in c.h.linked && v !in c.lru && v !in c.dirtyList && c.h.holds[v] == 1
    ensures forall f :: f in c.lists ==> v !in c.lists[f]
  {
    hide Covering;
    assert PartOk(Alloc, c) && PartOk(Refs, c) && PartOk(Lru, c) && PartOk(Dirties, c) && PartOk(Index, c);
    forall f | f in c.lists
      ensures v !in c.lists[f]
    {
      assert ListOk(c.lists[f], c.chunk, f, c.h.linked);
    }
  }

  /** No id comes back. */
  ghost predicate NewIdsOnly(c: Cache, d: Cache) {
    c.h.nextId <= d.h.nextId && forall v :: v in d.refs ==> v in c.refs || v >= c.h.nextId
  }

  lemma UnholdIds(c: Cache, v: VacbId)
    requires v in c.refs
    ensures NewIdsOnly(c, Unhold(c, v)) && NewIdsOnly(c, Abandon(c, v))
  {
  }

  lemma InsertIds(c: Cache, v: VacbId, offset: nat)
    requires v in c.chunk && c.chunk[v].file in c.lists && c.chunk.Keys == c.refs.Keys
    ensures NewIdsOnly(c, AfterInsert(c, v, offset))
  {
    hide Covering, InsertSorted;
  }

  lemma FlushIds(c: Cache, v: VacbId, ok: bool, torn: View)
    requires Accounted(c, v) && v in c.data
    ensures NewIdsOnly(c, BeginFlush(c, v)) && NewIdsOnly(c, EndFlush(c, v, ok, torn))
  {
    hide Without;
  }

  lemma PlainIds(c: Cache, e: ClientEvent)
    requires Ready(c) && ClientMay(c, e)
    requires e.Lookup? || e.PickDirty? || e.Create? || e.Use? || e.CopyIn? || e.CopyMore? || e.FoundDirty? || e.FoundClean? || e.MarkNow?
    ensures NewIdsOnly(c, ClientStep(c, e))
  {
    hide Covering, Without, Splice;
  }

  lemma ClientIds(c: Cache, e: ClientEvent)
    requires Ready(c) && ClientMay(c, e)
    ensures NewIdsOnly(c, ClientStep(c, e))
  {
    hide NewIdsOnly;
    if e.Lookup? || e.PickDirty? || e.Create? || e.Use? || e.CopyIn? || e.CopyMore? || e.FoundDirty? || e.FoundClean? || e.MarkNow? {
      hide ClientStep;
      PlainIds(c, e);
    } else {
      hide Unhold, Abandon, AfterInsert, BeginFlush, EndFlush;
      match e
      case LetGo(v) => UnholdIds(c, v);
      case ReleaseIt(v) => UnholdIds(c, v);
      case AbandonIt(v) => UnholdIds(c, v);
      case Insert(v, offset) => InsertIds(c, v, offset);
      case FlushBegins(v) => FlushIds(c, v, true, c.data[v]);
      case FlushEnds(v, ok, torn) => FlushIds(c, v, ok, torn);
    }
  }

  lemma ManagerIds(c: Cache, e: ManagerEvent)
    requires Ready(c) && ManagerMay(c, e)
    ensures NewIdsOnly(c, ManagerStep(c, e))
  {
    hide Without;
  }

  lemma StepIds(c: Cache, e: Event)
    requires Ready(c) && Enabled(c, e)
    ensures NewIdsOnly(c, Step(c, e))
  {
    match e
    case Client(x) => ClientIds(c, x);
    case Manager(y) => ManagerIds(c, y);
  }

  /** A VACB is freed once: from then on it is not allocated, on no list and held by nobody. */
  lemma {:induction false} FreedOnce(states: seq<Cache>, events: seq<Event>, store: map<Chunk, View>, files: set<FileId>,
                                     n: nat, m: nat, v: VacbId)
    requires IsRun(states, events, store, files) && n <= m < |states| && Clear(states, events, m)
    requires v < states[n].h.nextId && v !in states[n].refs
    ensures v < states[m].h.nextId && v !in states[m].refs && Forgotten(states[m], v)
    decreases m - n
  {
    hide Step, Enabled, Asserted, Initial, Ready, CleanOk, Coherent, Forgotten, Structure;
    if n < m {
      FreedOnce(states, events, store, files, n, m - 1, v);
      StepIds(states[m - 1], events[m - 1]);
    }
    RunInv(states, events, store, files, m);
    UnallocatedIsForgotten(states[m], v);
  }
}
