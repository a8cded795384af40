/** The test of Dirty and the marking that follows, picking a view to flush and unmarking it, and
    unmarking a view and marking it again when the flush failed are each two locked sections. What
    may happen in between, and when the assertions on Dirty are tripped. */
module MarkRaces {
  import opened CacheState
  import opened CacheSteps
  import opened CacheDrop
  import opened CacheEvents
  import opened CacheRuns

  predicate Marks(e: Event, v: VacbId) {
    match e
    case Client(MarkNow(u, _)) => u == v
    case Client(FlushEnds(u, ok, _)) => u == v && !ok
    case _ => false
  }

  /** Flushes that begin, and drops, take the view off the dirty list. */
  predicate Unmarks(e: Event, v: VacbId) {
    match e
    case Client(FlushBegins(u)) => u == v
    case Manager(Evict(u)) => u == v
    case Manager(Purge(u)) => u == v
    case Manager(Close(u, _, _)) => u == v
    case _ => false
  }

  // ------------------------------------------------------------- what a step does to the dirty set

  lemma InsertMarksNothing(c: Cache, v: VacbId, offset: nat)
    requires v in c.chunk && c.chunk[v].file in c.lists && c.chunk.Keys == c.refs.Keys
    ensures AfterInsert(c, v, offset).dirty == c.dirty
  {
  }

  lemma UnholdMarksNothing(c: Cache, v: VacbId)
    requires v in c.refs
    ensures Unhold(c, v).dirty == c.dirty && Abandon(c, v).dirty == c.dirty
  {
  }

  lemma MarkMarks(c: Cache, v: VacbId, wrote: bool)
    requires Accounted(c, v)
    ensures Settled(MarkDirty(WithMarking(c, c.h.marking - multiset{v}), v), v, wrote).dirty == c.dirty + {v}
  {
    hide Without;
  }

  lemma FlushMarks(c: Cache, v: VacbId, ok: bool, torn: View)
    requires Accounted(c, v) && v in c.data
    ensures BeginFlush(c, v).dirty == c.dirty - {v}
    ensures EndFlush(c, v, ok, torn).dirty == if ok then c.dirty else c.dirty + {v}
  {
    hide Without;
  }

  lemma PlainMarksNothing(c: Cache, e: ClientEvent)
    requires Ready(c) && ClientMay(c, e)
    requires e.Lookup? || e.PickDirty? || e.Create? || e.Use? || e.CopyIn? || e.CopyMore? || e.FoundDirty? || e.FoundClean?
    ensures ClientStep(c, e).dirty == c.dirty
  {
    hide Without, Covering, Splice;
  }

  lemma ReadyFacts(c: Cache, e: ClientEvent)
    requires Ready(c) && ClientMay(c, e)
    ensures c.chunk.Keys == c.refs.Keys == c.data.Keys
    ensures e.MarkNow? || e.FlushBegins? || e.FlushEnds? ==> Accounted(c, e.v)
    ensures e.LetGo? || e.ReleaseIt? || e.AbandonIt? ==> e.v in c.refs
  {
  }

  lemma ClientDirty(c: Cache, e: ClientEvent, v: VacbId)
    requires Ready(c) && ClientMay(c, e)
    ensures v in ClientStep(c, e).dirty <==> Marks(Client(e), v) || (v in c.dirty && !Unmarks(Client(e), v))
  {
    hide Hold, AfterLookup, New, Touch, WriteView, WriteMore, MarkDirty, Settled, WithMarking, Ready;
    hide AfterInsert, Abandon, Unhold, BeginFlush, EndFlush;
    ReadyFacts(c, e);
    match e
    case Insert(u, offset) => InsertMarksNothing(c, u, offset);
    case LetGo(u) => UnholdMarksNothing(c, u);
    case ReleaseIt(u) => UnholdMarksNothing(c, u);
    case AbandonIt(u) => UnholdMarksNothing(c, u);
    case MarkNow(u, wrote) => MarkMarks(c, u, wrote);
    case FlushBegins(u) => FlushMarks(c, u, true, c.data[u]);
    case FlushEnds(u, ok, torn) => FlushMarks(c, u, ok, torn);
    case _ => hide ClientStep; PlainMarksNothing(c, e);
  }

  lemma ManagerDirty(c: Cache, e: ManagerEvent, v: VacbId)
    requires Ready(c) && ManagerMay(c, e)
    ensures v in ManagerStep(c, e).dirty <==> v in c.dirty && !Unmarks(Manager(e), v)
  {
    hide Without;
  }

  lemma StepDirty(c: Cache, e: Event, v: VacbId)
    requires Ready(c) && Enabled(c, e)
    ensures v in Step(c, e).dirty <==> Marks(e, v) || (v in c.dirty && !Unmarks(e, v))
  {
    match e
    case Client(x) => ClientDirty(c, x, v);
    case Manager(y) => ManagerDirty(c, y, v);
  }

  // ------------------------------------------------------------- when an assertion is tripped

  /** The last event from the n-th on that marks or unmarks the view. */
  predicate LastMarked(events: seq<Event>, v: VacbId, n: nat, m: nat, before: bool)
    requires n <= m <= |events|
    decreases m
  {
    if n == m then before
    else Marks(events[m - 1], v) || (!Unmarks(events[m - 1], v) && LastMarked(events, v, n, m - 1, before))
  }

  lemma {:induction false} DirtyIsLastMark(states: seq<Cache>, events: seq<Event>, store: map<Chunk, View>, files: set<FileId>,
                                           n: nat, m: nat, v: VacbId)
    requires IsRun(states, events, store, files) && n <= m < |states|
    ensures v in states[m].dirty <==> LastMarked(events, v, n, m, v in states[n].dirty)
    decreases m - n
  {
    hide Ready, Enabled, Step, Initial;
    if n == m {
    } else {
      DirtyIsLastMark(states, events, store, files, n, m - 1, v);
      StepDirty(states[m - 1], events[m - 1], v);
    }
  }

  /** A flush that began at n and fails at m trips the assertion exactly if the last to mark or
      unmark the view in between marked it. */
  lemma RemarkTrips(states: seq<Cache>, events: seq<Event>, store: map<Chunk, View>, files: set<FileId>, n: nat, m: nat, v: VacbId)
    requires IsRun(states, events, store, files) && n < m < |events| && events[n] == Client(FlushBegins(v))
    requires events[m].Client? && events[m].client.FlushEnds? && events[m].client.v == v && !events[m].client.ok
    ensures Asserted(states[m], events[m]) <==> !LastMarked(events, v, n + 1, m, false)
  {
    hide Ready, Enabled, Step, Initial;
    StepDirty(states[n], events[n], v);
    DirtyIsLastMark(states, events, store, files, n + 1, m, v);
  }

  /** A view picked as dirty at n and unmarked at m trips it exactly if the last to mark or unmark
      the view in between unmarked it. */
  lemma UnmarkTrips(states: seq<Cache>, events: seq<Event>, store: map<Chunk, View>, files: set<FileId>, n: nat, m: nat, v: VacbId)
    requires IsRun(states, events, store, files) && n < m < |events|
    requires events[n] == Client(PickDirty(v)) && events[m] == Client(FlushBegins(v))
    ensures Asserted(states[m], events[m]) <==> LastMarked(events, v, n, m, true)
  {
    hide Ready, Step, Initial;
    DirtyIsLastMark(states, events, store, files, n, m, v);
  }

  /** A view found clean at n and marked at m trips it exactly if the last to mark or unmark the
      view in between marked it. */
  lemma MarkTrips(states: seq<Cache>, events: seq<Event>, store: map<Chunk, View>, files: set<FileId>, n: nat, m: nat, v: VacbId)
    requires IsRun(states, events, store, files) && n < m < |events|
    requires events[n] == Client(FoundClean(v)) && events[m].Client? && events[m].client.MarkNow? && events[m].client.v == v
    ensures Asserted(states[m], events[m]) <==> !LastMarked(events, v, n, m, false)
  {
    hide Ready, Step, Initial;
    DirtyIsLastMark(states, events, store, files, n, m, v);
  }

  // ------------------------------------------------------------- runs that trip them

  /** Goes on with a run by one event. */
  lemma Extend(states: seq<Cache>, events: seq<Event>, store: map<Chunk, View>, files: set<FileId>, c: Cache, e: Event)
    returns (states': seq<Cache>, events': seq<Event>, d: Cache)
    requires IsRun(states, events, store, files) && Clear(states, events, |events|) && c == states[|events|]
    requires Enabled(c, e) && Asserted(c, e)
    ensures Ready(c) && d == Step(c, e)
    ensures IsRun(states', events', store, files) && Clear(states', events', |events'|) && d == states'[|events'|]
  {
    hide Step, Enabled, Asserted, Ready, Initial;
    RunExtends(states, events, store, files, e);
    d := Step(c, e);
    states', events' := states + [d], events + [e];
  }

  lemma OneCreated() returns (states: seq<Cache>, events: seq<Event>, c: Cache)
    ensures IsRun(states, events, map[], {0}) && Clear(states, events, |events|) && c == states[|events|]
    ensures c == New(Initial(map[], {0}), 0, 0) && RoundDown(0) == 0
  {
    c := Initial(map[], {0});
    states, events := [c], [];
    states, events, c := Extend(states, events, map[], {0}, c, Client(Create(0, 0)));
  }

  /** One view of one file, held by its creator. */
  lemma OneView() returns (states: seq<Cache>, events: seq<Event>, c: Cache)
    ensures IsRun(states, events, map[], {0}) && Clear(states, events, |events|) && c == states[|events|]
    ensures c.h.linked == {0} && c.dirty == {} && c.h.writers[0] == 0 && c.h.holds[0] == 1 && c.h.marking[0] == 0
    ensures c.lists == map[0 := [0]] && c.chunk == map[0 := Chunk(0, 0)] && 0 in c.refs && c.refs[0] == 2
    ensures c.store == map[] && c.h.initial == map[] && c.h.writes == []
  {
    states, events, c := OneCreated();
    assert c.lists[0] == [] && c.chunk[0] == Chunk(0, 0);
    states, events, c := Extend(states, events, map[], {0}, c, Client(Insert(0, 0)));
  }

  /** A run that has come to one view with so many holders, writers and holders about to mark it. */
  ghost predicate Stage(states: seq<Cache>, events: seq<Event>, c: Cache, dirty: bool, holds: nat, writers: nat, marking: nat) {
    && IsRun(states, events, map[], {0}) && Clear(states, events, |events|) && c == states[|events|]
    && 0 in c.h.linked && (0 in c.dirty <==> dirty)
    && c.h.holds[0] == holds && c.h.writers[0] == writers && c.h.marking[0] == marking
  }

  /** Two clients have the view. */
  lemma Shared() returns (states: seq<Cache>, events: seq<Event>, c: Cache)
    ensures Stage(states, events, c, false, 2, 0, 0)
  {
    states, events, c := OneView();
    states, events, c := Extend(states, events, map[], {0}, c, Client(Lookup(0, 0)));
  }

  lemma ThenFoundClean(states: seq<Cache>, events: seq<Event>, c: Cache, holds: nat, writers: nat, marking: nat)
    returns (states': seq<Cache>, events': seq<Event>, d: Cache)
    requires Stage(states, events, c, false, holds, writers, marking) && holds > 0
    ensures Stage(states', events', d, false, holds, writers, marking + 1)
  {
    states', events', d := Extend(states, events, map[], {0}, c, Client(FoundClean(0)));
  }

  lemma ThenMarked(states: seq<Cache>, events: seq<Event>, c: Cache, holds: nat, writers: nat, marking: nat)
    returns (states': seq<Cache>, events': seq<Event>, d: Cache)
    requires Stage(states, events, c, false, holds, writers, marking + 1) && holds > 0
    ensures Stage(states', events', d, true, holds, if writers == 0 then 0 else writers - 1, marking)
  {
    hide Without;
    states', events', d := Extend(states, events, map[], {0}, c, Client(MarkNow(0, true)));
  }

  lemma ThenUnmarked(states: seq<Cache>, events: seq<Event>, c: Cache, holds: nat, writers: nat, marking: nat)
    returns (states': seq<Cache>, events': seq<Event>, d: Cache)
    requires Stage(states, events, c, true, holds, writers, marking) && writers < holds
    ensures Stage(states', events', d, false, holds, writers + 1, marking)
  {
    hide Without;
    states', events', d := Extend(states, events, map[], {0}, c, Client(FlushBegins(0)));
  }

  lemma ThenWritten(states: seq<Cache>, events: seq<Event>, c: Cache, holds: nat, writers: nat, marking: nat)
    returns (states': seq<Cache>, events': seq<Event>, d: Cache)
    requires Stage(states, events, c, false, holds, writers, marking) && writers < holds
    ensures Stage(states', events', d, false, holds, writers + 1, marking)
  {
    hide Splice;
    states', events', d := Extend(states, events, map[], {0}, c, Client(CopyIn(0, 0, [1])));
  }

  lemma ThenPicked(states: seq<Cache>, events: seq<Event>, c: Cache, holds: nat, writers: nat, marking: nat)
    returns (states': seq<Cache>, events': seq<Event>, d: Cache)
    requires Stage(states, events, c, true, holds, writers, marking)
    ensures Stage(states', events', d, true, holds + 1, writers, marking)
  {
    states', events', d := Extend(states, events, map[], {0}, c, Client(PickDirty(0)));
  }

  /** Two clients find the view clean, and one marks it: the other marks it too. */
  lemma MarkCanFindItDirty() returns (states: seq<Cache>, events: seq<Event>, c: Cache)
    ensures Stage(states, events, c, true, 2, 0, 1)
    ensures Enabled(c, Client(MarkNow(0, true))) && !Asserted(c, Client(MarkNow(0, true)))
  {
    hide Stage;
    states, events, c := Shared();
    states, events, c := ThenFoundClean(states, events, c, 2, 0, 0);
    states, events, c := ThenFoundClean(states, events, c, 2, 0, 1);
    states, events, c := ThenMarked(states, events, c, 2, 0, 1);
    Tripping(states, events, c);
  }

  lemma Tripping(states: seq<Cache>, events: seq<Event>, c: Cache)
    requires Stage(states, events, c, true, 2, 0, 1)
    ensures Enabled(c, Client(MarkNow(0, true))) && !Asserted(c, Client(MarkNow(0, true)))
  {
  }

  /** The lazy writer picks a dirty view; before it has unmarked it, CcFlushCache does. */
  lemma UnmarkCanFindItClean() returns (states: seq<Cache>, events: seq<Event>, c: Cache)
    ensures Stage(states, events, c, false, 3, 1, 0)
    ensures Enabled(c, Client(FlushBegins(0))) && !Asserted(c, Client(FlushBegins(0)))
  {
    states, events, c := Shared();
    states, events, c := ThenFoundClean(states, events, c, 2, 0, 0);
    states, events, c := ThenMarked(states, events, c, 2, 0, 0);
    states, events, c := ThenPicked(states, events, c, 2, 0, 0);
    states, events, c := ThenUnmarked(states, events, c, 3, 0, 0);
  }

  /** A client writes to a view that is being flushed and marks it, and then the flush fails. */
  lemma RemarkCanFindItDirty(torn: View) returns (states: seq<Cache>, events: seq<Event>, c: Cache)
    ensures Stage(states, events, c, true, 2, 1, 0)
    ensures Enabled(c, Client(FlushEnds(0, false, torn))) && !Asserted(c, Client(FlushEnds(0, false, torn)))
  {
    states, events, c := Shared();
    states, events, c := ThenFoundClean(states, events, c, 2, 0, 0);
    states, events, c := ThenMarked(states, events, c, 2, 0, 0);
    states, events, c := ThenUnmarked(states, events, c, 2, 0, 0);
    states, events, c := ThenWritten(states, events, c, 2, 1, 0);
    states, events, c := ThenFoundClean(states, events, c, 2, 2, 0);
    states, events, c := ThenMarked(states, events, c, 2, 2, 0);
  }

  // ------------------------------------------------------------- a release, step by step

  /** A piece of a run that trips no assertion. */
  ghost predicate Path(states: seq<Cache>, events: seq<Event>, c: Cache, d: Cache) {
    && |states| == |events| + 1 && states[0] == c && states[|events|] == d
    && forall i :: 0 <= i < |events| ==>
         && Ready(states[i]) && Enabled(states[i], events[i]) && Asserted(states[i], events[i])
         && states[i + 1] == Step(states[i], events[i])
  }

  lemma PathGoesOn(states: seq<Cache>, events: seq<Event>, c: Cache, d: Cache, e: Event)
    requires Path(states, events, c, d) && Ready(d) && Enabled(d, e) && Asserted(d, e)
    ensures Path(states + [Step(d, e)], events + [e], c, Step(d, e))
  {
    hide Ready, Enabled, Asserted, Step;
  }

  lemma MarkedNow(c: Cache, v: VacbId)
    requires Accounted(c, v)
    ensures var m := WithMarking(c, c.h.marking + multiset{v});
            MarkDirty(WithMarking(m, m.h.marking - multiset{v}), v) == MarkDirty(c, v)
  {
    assert c.h.marking + multiset{v} - multiset{v} == c.h.marking;
  }

  /** The test and the mark a release as dirty begins with, when nothing interferes. */
  lemma MarkIsPath(c: Cache, v: VacbId) returns (states: seq<Cache>, events: seq<Event>, d: Cache)
    requires Inv(c) && Releasable(c, v, true)
    ensures Accounted(c, v) && d == WriterDone(if v in c.dirty then c else MarkDirty(c, v), v) && Path(states, events, c, d)
  {
    hide Inv, MarkDirty, WriterDone;
    InvIsReady(c);
    SetDirtyKeeps(c, v);
    if v in c.dirty {
      d := Step(c, Client(FoundDirty(v, true)));
      states, events := [c, d], [Client(FoundDirty(v, true))];
    } else {
      MarkedNow(c, v);
      var m := Step(c, Client(FoundClean(v)));
      MarkingKeeps(c, c.h.marking + multiset{v});
      InvIsReady(m);
      d := Step(m, Client(MarkNow(v, true)));
      states, events := [c, m, d], [Client(FoundClean(v)), Client(MarkNow(v, true))];
    }
  }

  /** CcRosReleaseVacb as one step is what its locked sections do when nothing interferes. */
  lemma ReleaseIsPath(c: Cache, v: VacbId, dirty: bool) returns (states: seq<Cache>, events: seq<Event>)
    requires Inv(c) && Releasable(c, v, dirty)
    ensures Accounted(c, v) && Path(states, events, c, Release(c, v, dirty))
  {
    hide Inv, Path, MarkDirty, Step, Enabled, Asserted, Unhold;
    ReleaseKeeps(c, v, dirty);
    InvIsReady(c);
    states, events := [c], [];
    var d := c;
    EmptyPath(c);
    if dirty {
      SetDirtyKeeps(c, v);
      states, events, d := MarkIsPath(c, v);
      InvIsReady(d);
    }
    LastStep(c, d, v, dirty);
    PathGoesOn(states, events, c, d, Client(ReleaseIt(v)));
    states, events := states + [Step(d, Client(ReleaseIt(v)))], events + [Client(ReleaseIt(v))];
  }

  lemma EmptyPath(c: Cache)
    ensures Path([c], [], c, c)
  {
  }

  lemma LastStep(c: Cache, d: Cache, v: VacbId, dirty: bool)
    requires Inv(c) && Inv(d) && Ready(d) && Releasable(c, v, dirty) && Accounted(c, v)
    requires d == if dirty then WriterDone(if v in c.dirty then c else MarkDirty(c, v), v) else c
    ensures Enabled(d, Client(ReleaseIt(v))) && Asserted(d, Client(ReleaseIt(v)))
    ensures Step(d, Client(ReleaseIt(v))) == Release(c, v, dirty)
  {
    hide CleanOk, Coherent, Without, Unhold, Ready;
    assert PartOk(Writers, c) && c.h.writers[v] <= c.h.holds[v];
  }
}
