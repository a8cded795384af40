/** CcRosFlushDirtyPages, the loop of the lazy writer, and CcRosTrimCache, which calls it. */
module LazyFlush {
  import opened Collections
  import opened CacheState
  import opened CacheLists
  import opened CacheSteps
  import opened CacheDrop
  import opened CacheEvents
  import opened CacheRuns
  import opened CacheManager
  import opened CacheLoss
  import opened CacheCopy
  import opened CacheSweeps
  import opened FlushRange

  /** One attempt at a view: whether the file system lets the file be locked, what Mm answers,
      whether a failure is one that is tolerated, and how many pages Mm reports. */
  datatype Attempt = Attempt(locked: bool, reply: Reply, tolerated: bool, pages: nat)

  function AttemptAt(script: seq<Attempt>, i: nat): (a: Attempt) {
    if i < |script| then script[i] else Attempt(true, Reply(true, ZeroView(), GRANULARITY), false, PAGES_PER_VIEW)
  }

  /** Files a call passes over: those another call is writing and, for the lazy writer, temporary
      files and files that asked for no write-behind. */
  datatype Policy = Policy(busy: set<FileId>, temporary: set<FileId>, noWriteBehind: set<FileId>) {
    predicate Spares(lazy: bool, file: FileId) {
      file in busy || (lazy && (file in temporary || file in noWriteBehind))
    }
  }

  /** Views of spared files stay as they are, no view becomes dirty. */
  ghost predicate Spared(c: Cache, d: Cache, policy: Policy, lazy: bool) {
    && d.chunk == c.chunk && d.h.linked == c.h.linked && d.dirty <= c.dirty
    && (forall v :: v in c.dirty && v in c.chunk && policy.Spares(lazy, c.chunk[v].file) ==> v in d.dirty)
    && (forall k: Chunk :: policy.Spares(lazy, k.file) ==> Stored(d.store, k) == Stored(c.store, k))
  }

  lemma DirtyFound(c: Cache, v: VacbId)
    requires Inv(c) && v in c.dirty
    ensures v in c.refs && v in c.chunk && v in c.data && Found(Hold(c, v), v, c.chunk[v])
    ensures Accounted(Hold(c, v), v) && Inv(Hold(c, v)) && Flushable(Hold(c, v), v)
  {
    hide CleanOk, Coherent;
    assert PartOk(Dirties, c) && PartOk(Index, c);
    LinkedFacts(c, v);
    WritersHeld(c, v);
    HoldKeeps(c, v);
    forall u | u in c.dirty && u in c.chunk && c.chunk[u] == c.chunk[v]
      ensures u == v
    {
      UniqueChunk(c, u, v);
    }
  }

  lemma FlushOneSpares(c: Cache, v: VacbId, r: Reply, policy: Policy, lazy: bool)
    requires Inv(c) && v in c.dirty && v in c.chunk && !policy.Spares(lazy, c.chunk[v].file)
    ensures v in c.refs && v in c.data && Accounted(Hold(c, v), v) && Accounted(Flushed(Hold(c, v), v, r), v)
    ensures var d := Release(Flushed(Hold(c, v), v, r), v, false);
            Spared(c, d, policy, lazy) && d.dirty == (if r.ok then c.dirty - {v} else c.dirty)
  {
    hide Inv, Flushed;
    DirtyFound(c, v);
    FlushedFacts(Hold(c, v), v, r);
    FlushedKeeps(Hold(c, v), v, r);
    ReleaseKeeps(Flushed(Hold(c, v), v, r), v, false);
  }

  /** References, flushes and releases one dirty view. */
  method FlushOne(m: Manager, v: VacbId, r: Reply, ghost policy: Policy, ghost lazy: bool)
    requires Inv(m.Snapshot()) && v in m.dirty && v in m.chunk && !policy.Spares(lazy, m.chunk[v].file)
    modifies m
    ensures Inv(m.Snapshot()) && SameWrites(old(m.Snapshot()), m.Snapshot())
    ensures Spared(old(m.Snapshot()), m.Snapshot(), policy, lazy)
    ensures m.dirty == if r.ok then old(m.dirty) - {v} else old(m.dirty)
  {
    hide Inv, SameWrites, Release, Flushed, Spared;
    ghost var c := m.Snapshot();
    DirtyFound(c, v);
    FlushOneSpares(c, v, r, policy, lazy);
    m.IncRef(v);
    FlushView(m, v, r);
    PieceFlushed(c, v, c.chunk[v], r);
    PieceReleased(c, m.Snapshot(), v, c.chunk[v], r.ok);
    m.Release(v, false);
  }

  /** What holds before every round, `passed` entries after the walk last began. */
  ghost predicate Going(c0: Cache, c: Cache, policy: Policy, lazy: bool, passed: nat) {
    && Inv(c) && SameWrites(c0, c) && Spared(c0, c, policy, lazy) && passed <= |c.dirtyList|
  }

  lemma GoingStarts(c: Cache, policy: Policy, lazy: bool)
    requires Inv(c)
    ensures Going(c, c, policy, lazy, 0)
  {
  }

  lemma GoingNext(c0: Cache, c: Cache, policy: Policy, lazy: bool, passed: nat)
    requires Going(c0, c, policy, lazy, passed) && passed < |c.dirtyList|
    ensures var v := c.dirtyList[passed]; v in c.dirty && v in c.chunk && v in c0.dirty && v in c0.chunk && c.chunk[v] == c0.chunk[v]
    ensures Going(c0, c, policy, lazy, passed + 1) && passed < |c.dirty|
  {
    hide CleanOk, Coherent;
    DirtyLength(c);
    assert PartOk(Dirties, c) && PartOk(Alloc, c);
  }

  lemma GoingOn(c0: Cache, c: Cache, d: Cache, policy: Policy, lazy: bool, passed: nat)
    requires Going(c0, c, policy, lazy, passed) && Inv(d) && SameWrites(c, d) && Spared(c, d, policy, lazy)
    ensures Going(c0, d, policy, lazy, 0)
  {
  }

  lemma SameChunks(c0: Cache, c: Cache, policy: Policy, lazy: bool, passed: nat)
    requires Going(c0, c, policy, lazy, passed)
    ensures c.chunk == c0.chunk
  {
  }

  lemma GoingEnds(c0: Cache, c: Cache, policy: Policy, lazy: bool, passed: nat)
    requires Going(c0, c, policy, lazy, passed)
    ensures Inv(c) && SameWrites(c0, c) && Spared(c0, c, policy, lazy) && (c.dirtyList == [] <==> c.dirty == {})
  {
    hide CleanOk, Coherent;
    assert PartOk(Dirties, c);
    if c.dirtyList != [] {
      assert c.dirtyList[0] in c.dirty;
    }
  }

  // ------------------------------------------------------------- when the loop ends

  /** No dirty view belongs to a file that is passed over. */
  ghost predicate NoneSpared(c: Cache, policy: Policy, lazy: bool) {
    forall v :: v in c.dirty && v in c.chunk ==> !policy.Spares(lazy, c.chunk[v].file)
  }

  /** The call comes to an end. */
  ghost predicate Ends(c: Cache, policy: Policy, lazy: bool, all: bool) {
    all ==> NoneSpared(c, policy, lazy)
  }

  /** Attempts still to be made: those of the script, and one for each dirty view. */
  function Open(script: seq<Attempt>, tries: nat, dirty: set<VacbId>): (n: nat) {
    (if tries < |script| then |script| - tries else 0) + |dirty|
  }

  /** Rounds within which a call that ends has ended. */
  function Bound(script: seq<Attempt>, dirty: set<VacbId>): (n: nat)
    ensures n >= |script| + |dirty|
  {
    Times(|script| + |dirty|, |dirty| + 1);
    (|script| + |dirty|) * (|dirty| + 1) + |dirty|
  }

  lemma Times(a: nat, b: nat)
    requires b > 0
    ensures a * b >= a
  {
  }

  lemma OpenLess(script: seq<Attempt>, tries: nat, dirty: set<VacbId>, dirty': set<VacbId>, v: VacbId)
    requires v in dirty && (dirty' == dirty - {v} || (dirty' == dirty && tries < |script|))
    ensures Open(script, tries + 1, dirty') < Open(script, tries, dirty) && |dirty'| <= |dirty|
  {
  }

  /** Rounds done, when `open` attempts are left and `passed` views were passed over since. */
  ghost predicate InTime(script: seq<Attempt>, dirty0: set<VacbId>, tries: nat, dirty: set<VacbId>, passed: nat, round: nat) {
    && |dirty| <= |dirty0| && passed <= |dirty|
    && Open(script, tries, dirty) * (|dirty0| + 1) + |dirty| - passed + round <= Bound(script, dirty0)
  }

  lemma InTimeStarts(script: seq<Attempt>, dirty: set<VacbId>)
    ensures InTime(script, dirty, 0, dirty, 0, 0)
  {
  }

  lemma InTimePasses(script: seq<Attempt>, dirty0: set<VacbId>, tries: nat, dirty: set<VacbId>, passed: nat, round: nat)
    requires InTime(script, dirty0, tries, dirty, passed, round) && passed < |dirty|
    ensures InTime(script, dirty0, tries, dirty, passed + 1, round + 1)
  {
  }

  lemma InTimeTries(script: seq<Attempt>, dirty0: set<VacbId>, tries: nat, dirty: set<VacbId>, passed: nat, round: nat,
                    dirty': set<VacbId>, passed': nat)
    requires InTime(script, dirty0, tries, dirty, passed, round) && passed' <= |dirty'| <= |dirty|
    requires Open(script, tries + 1, dirty') < Open(script, tries, dirty)
    ensures InTime(script, dirty0, tries + 1, dirty', passed', round + 1)
  {
    Scaled(Open(script, tries + 1, dirty'), Open(script, tries, dirty), |dirty0| + 1);
  }

  lemma Scaled(a: nat, b: nat, n: nat)
    requires a < b
    ensures a * n + n <= b * n
  {
    var d := b - a;
    Times(n, d);
    assert (a + d) * n == a * n + n * d;
  }

  lemma InTimeBounds(script: seq<Attempt>, dirty0: set<VacbId>, tries: nat, dirty: set<VacbId>, passed: nat, round: nat)
    requires InTime(script, dirty0, tries, dirty, passed, round)
    ensures round <= Bound(script, dirty0)
  {
  }

  lemma DirtyLength(c: Cache)
    requires Inv(c)
    ensures |c.dirtyList| == |c.dirty|
  {
    assert PartOk(Dirties, c);
    DistinctLength(c.dirtyList, c.dirty);
  }

  /** Progress of a call: for some of the views within the bound, and for all of them one attempt
      a round if none is spared. */
  ghost predicate Timed(c0: Cache, dirty: set<VacbId>, policy: Policy, lazy: bool, all: bool, script: seq<Attempt>,
                        tries: nat, passed: nat, round: nat) {
    && (!all ==> InTime(script, c0.dirty, tries, dirty, passed, round))
    && (NoneSpared(c0, policy, lazy) ==> Open(script, tries, dirty) + round <= |script| + |c0.dirty|)
  }

  lemma TimedStarts(c0: Cache, policy: Policy, lazy: bool, all: bool, script: seq<Attempt>)
    ensures Timed(c0, c0.dirty, policy, lazy, all, script, 0, 0, 0)
  {
    InTimeStarts(script, c0.dirty);
  }

  lemma TimedPasses(c0: Cache, dirty: set<VacbId>, policy: Policy, lazy: bool, all: bool, script: seq<Attempt>,
                    tries: nat, passed: nat, round: nat)
    requires Timed(c0, dirty, policy, lazy, all, script, tries, passed, round) && !NoneSpared(c0, policy, lazy) && passed < |dirty|
    ensures Timed(c0, dirty, policy, lazy, all, script, tries, passed + 1, round + 1)
  {
    hide InTime;
    if !all {
      InTimePasses(script, c0.dirty, tries, dirty, passed, round);
    }
  }

  lemma TimedTries(c0: Cache, dirty: set<VacbId>, policy: Policy, lazy: bool, all: bool, script: seq<Attempt>,
                   tries: nat, passed: nat, round: nat, dirty': set<VacbId>, passed': nat, v: VacbId)
    requires Timed(c0, dirty, policy, lazy, all, script, tries, passed, round) && v in dirty && passed' <= |dirty'|
    requires dirty' == dirty - {v} || (dirty' == dirty && tries < |script|)
    ensures Timed(c0, dirty', policy, lazy, all, script, tries + 1, passed', round + 1)
  {
    hide InTime;
    OpenLess(script, tries, dirty, dirty', v);
    if !all {
      InTimeTries(script, c0.dirty, tries, dirty, passed, round, dirty', passed');
    }
  }

  /** Back at the head of the list, which only happens when all are asked for. */
  lemma TimedAgain(c0: Cache, dirty: set<VacbId>, policy: Policy, lazy: bool, script: seq<Attempt>, tries: nat, passed: nat, round: nat)
    requires Timed(c0, dirty, policy, lazy, true, script, tries, passed, round)
    ensures Timed(c0, dirty, policy, lazy, true, script, tries, 0, round)
  {
  }

  lemma TimedOut(c0: Cache, dirty: set<VacbId>, policy: Policy, lazy: bool, all: bool, script: seq<Attempt>,
                 tries: nat, passed: nat, round: nat)
    requires Timed(c0, dirty, policy, lazy, all, script, tries, passed, round)
    ensures Ends(c0, policy, lazy, all) ==> round <= Bound(script, c0.dirty)
  {
    if !all {
      InTimeBounds(script, c0.dirty, tries, dirty, passed, round);
    }
  }

  /** A spared view stays dirty. */
  lemma SparedStays(c: Cache, d: Cache, policy: Policy, lazy: bool)
    requires Spared(c, d, policy, lazy) && d.dirty == {}
    ensures NoneSpared(c, policy, lazy)
  {
  }

  // ------------------------------------------------------------- a disk that keeps failing

  /** Something is to be done, can be tried, and every try of the script fails. */
  ghost predicate KeepsFailing(c: Cache, policy: Policy, lazy: bool, script: seq<Attempt>, target: nat, all: bool) {
    && (all || target > 0) && (exists v :: v in c.dirty && v in c.chunk && !policy.Spares(lazy, c.chunk[v].file))
    && (forall a :: a in script ==> a.locked && !a.reply.ok && !a.tolerated)
  }

  /** Nothing was achieved, and only spared views were passed over. */
  ghost predicate Stuck(c0: Cache, c: Cache, policy: Policy, lazy: bool, passed: nat) {
    && c.dirty == c0.dirty && c.chunk == c0.chunk
    && forall j :: 0 <= j < passed && j < |c.dirtyList| ==>
         c.dirtyList[j] in c.chunk && policy.Spares(lazy, c.chunk[c.dirtyList[j]].file)
  }

  lemma StuckGoesOn(c0: Cache, c: Cache, policy: Policy, lazy: bool, passed: nat)
    requires Inv(c) && Stuck(c0, c, policy, lazy, passed)
    requires exists v :: v in c0.dirty && v in c0.chunk && !policy.Spares(lazy, c0.chunk[v].file)
    ensures passed < |c.dirtyList|
  {
    hide CleanOk, Coherent;
    assert PartOk(Dirties, c);
    var v :| v in c0.dirty && v in c0.chunk && !policy.Spares(lazy, c0.chunk[v].file);
    var j :| 0 <= j < |c.dirtyList| && c.dirtyList[j] == v;
  }

  lemma StuckPasses(c0: Cache, c: Cache, policy: Policy, lazy: bool, passed: nat)
    requires Stuck(c0, c, policy, lazy, passed) && passed < |c.dirtyList| && c.dirtyList[passed] in c.chunk
    requires policy.Spares(lazy, c.chunk[c.dirtyList[passed]].file)
    ensures Stuck(c0, c, policy, lazy, passed + 1)
  {
  }

  lemma StuckStays(c0: Cache, c: Cache, d: Cache, policy: Policy, lazy: bool, passed: nat)
    requires Stuck(c0, c, policy, lazy, passed) && Spared(c, d, policy, lazy) && d.dirty == c.dirty
    ensures Stuck(c0, d, policy, lazy, 0)
  {
  }

  /** No step of a call that keeps failing ends it. */
  ghost predicate Failing(c0: Cache, c: Cache, policy: Policy, lazy: bool, script: seq<Attempt>, target: nat, all: bool,
                          left: nat, passed: nat, tries: nat, round: nat) {
    && tries <= round
    && (KeepsFailing(c0, policy, lazy, script, target, all) && round <= |script| ==> left == target && Stuck(c0, c, policy, lazy, passed))
  }

  lemma FailingStarts(c: Cache, policy: Policy, lazy: bool, script: seq<Attempt>, target: nat, all: bool)
    ensures Failing(c, c, policy, lazy, script, target, all, target, 0, 0, 0)
  {
  }

  lemma FailingGoesOn(c0: Cache, c: Cache, policy: Policy, lazy: bool, script: seq<Attempt>, target: nat, all: bool,
                      left: nat, passed: nat, tries: nat, round: nat)
    requires Inv(c) && Failing(c0, c, policy, lazy, script, target, all, left, passed, tries, round)
    requires KeepsFailing(c0, policy, lazy, script, target, all) && round <= |script|
    ensures passed < |c.dirtyList| && (all || left > 0)
  {
    hide Inv, Stuck;
    StuckGoesOn(c0, c, policy, lazy, passed);
  }

  lemma FailingAgain(c0: Cache, c: Cache, policy: Policy, lazy: bool, script: seq<Attempt>, target: nat, all: bool,
                     left: nat, passed: nat, tries: nat, round: nat)
    requires Failing(c0, c, policy, lazy, script, target, all, left, passed, tries, round)
    ensures Failing(c0, c, policy, lazy, script, target, all, left, 0, tries, round)
  {
  }

  lemma FailingPasses(c0: Cache, c: Cache, policy: Policy, lazy: bool, script: seq<Attempt>, target: nat, all: bool,
                      left: nat, passed: nat, tries: nat, round: nat)
    requires Failing(c0, c, policy, lazy, script, target, all, left, passed, tries, round)
    requires passed < |c.dirtyList| && c.dirtyList[passed] in c.chunk && policy.Spares(lazy, c.chunk[c.dirtyList[passed]].file)
    ensures Failing(c0, c, policy, lazy, script, target, all, left, passed + 1, tries, round + 1)
  {
    hide Stuck, KeepsFailing;
    if KeepsFailing(c0, policy, lazy, script, target, all) && round <= |script| {
      StuckPasses(c0, c, policy, lazy, passed);
    }
  }

  /** The next attempt, which the script says fails, leaves things as they are. */
  lemma FailingFails(c0: Cache, c: Cache, d: Cache, policy: Policy, lazy: bool, script: seq<Attempt>, target: nat, all: bool,
                     left: nat, left': nat, passed: nat, passed': nat, tries: nat, round: nat)
    requires Failing(c0, c, policy, lazy, script, target, all, left, passed, tries, round)
    requires var a := AttemptAt(script, tries);
             a.locked && !a.reply.ok && !a.tolerated ==> left' == left && passed' == 0 && Spared(c, d, policy, lazy) && d.dirty == c.dirty
    ensures Failing(c0, d, policy, lazy, script, target, all, left', passed', tries + 1, round + 1)
  {
    hide Stuck, Spared;
    if KeepsFailing(c0, policy, lazy, script, target, all) && round + 1 <= |script| {
      assert script[tries] in script;
      StuckStays(c0, c, d, policy, lazy, passed);
    }
  }

  // ------------------------------------------------------------- the loop

  /** The attempts made, the pages they reported and what is left of the target. */
  ghost predicate Tally(script: seq<Attempt>, made: seq<Attempt>, target: nat, wait: bool, count: nat, left: nat) {
    && (forall i :: 0 <= i < |made| ==> made[i] == AttemptAt(script, i)) && count == Reported(made)
    && left == if wait then target else if count < target then target - count else 0
  }

  lemma TallyMore(script: seq<Attempt>, made: seq<Attempt>, target: nat, wait: bool, count: nat, left: nat)
    requires Tally(script, made, target, wait, count, left)
    ensures var a := AttemptAt(script, |made|);
            var pages := if a.locked && (a.reply.ok || a.tolerated) then a.pages else 0;
            Tally(script, made + [a], target, wait, count + pages, if wait then left else if left < pages then 0 else left - pages)
  {
    ReportedMore(made, AttemptAt(script, |made|));
  }

  lemma TallyStarts(script: seq<Attempt>, target: nat, wait: bool)
    ensures Tally(script, [], target, wait, 0, target)
  {
  }

  lemma TallyOpen(k: Call, w: Walk)
    requires Tally(k.script, w.made, k.target, k.wait, w.count, w.left) && (k.all || w.left > 0)
    ensures k.all || (k.target > 0 && (k.wait || Reported(w.made) < k.target))
  {
  }

  lemma TallyIs(script: seq<Attempt>, made: seq<Attempt>, target: nat, wait: bool, count: nat, left: nat)
    requires Tally(script, made, target, wait, count, left)
    ensures (forall i :: 0 <= i < |made| ==> made[i] == AttemptAt(script, i)) && count == Reported(made)
    ensures left == 0 ==> target == 0 || (!wait && count >= target)
  {
  }

  lemma TriedPastScript(script: seq<Attempt>, tries: nat)
    ensures var a := AttemptAt(script, tries); !a.reply.ok || !a.locked ==> tries < |script|
  {
  }

  // ------------------------------------------------------------- which views are tried

  /** The parameters of a call, and how far it has got. */
  datatype Call = Call(target: nat, all: bool, wait: bool, lazy: bool, policy: Policy, script: seq<Attempt>)
  datatype Walk = Walk(count: nat, left: nat, passed: nat, made: seq<Attempt>, tried: seq<VacbId>)

  /** The views that attempts have cleaned. */
  ghost function Cleaned(made: seq<Attempt>, tried: seq<VacbId>): (vs: set<VacbId>)
    requires |made| == |tried|
  {
    set i | 0 <= i < |made| && made[i].locked && made[i].reply.ok :: tried[i]
  }

  /** Attempts are made at dirty views of files that are not spared, and those that Mm could write
      are the ones no longer dirty. */
  ghost predicate Tracks(c0: Cache, c: Cache, policy: Policy, lazy: bool, made: seq<Attempt>, tried: seq<VacbId>) {
    && |made| == |tried| && c.dirty == c0.dirty - Cleaned(made, tried)
    && forall i :: 0 <= i < |tried| ==> tried[i] in c0.dirty && tried[i] in c0.chunk && !policy.Spares(lazy, c0.chunk[tried[i]].file)
  }

  /** The view's file is spared, or could not be locked when the view was tried, and none was flushed since. */
  ghost predicate PassedOver(c: Cache, v: VacbId, policy: Policy, lazy: bool, made: seq<Attempt>, tried: seq<VacbId>)
    requires |made| == |tried|
  {
    || (v in c.chunk && policy.Spares(lazy, c.chunk[v].file))
    || exists i :: 0 <= i < |tried| && tried[i] == v && NoneLocked(made, i)
  }

  ghost predicate NoneLocked(made: seq<Attempt>, i: nat) {
    forall j :: i <= j < |made| ==> !made[j].locked
  }

  /** No attempt is made when those before it have met the target. */
  ghost predicate NoneInVain(k: Call, made: seq<Attempt>) {
    !k.all && made != [] ==> k.target > 0 && (k.wait || Reported(made[..|made| - 1]) < k.target)
  }

  ghost predicate Traced(c0: Cache, c: Cache, k: Call, w: Walk) {
    && Tracks(c0, c, k.policy, k.lazy, w.made, w.tried) && NoneInVain(k, w.made)
    && forall j :: 0 <= j < w.passed && j < |c.dirtyList| ==> PassedOver(c, c.dirtyList[j], k.policy, k.lazy, w.made, w.tried)
  }

  lemma TraceStarts(c: Cache, k: Call)
    ensures Traced(c, c, k, Walk(0, k.target, 0, [], []))
  {
  }

  lemma TraceSpares(c0: Cache, c: Cache, k: Call, w: Walk)
    requires Traced(c0, c, k, w) && w.passed < |c.dirtyList| && c.dirtyList[w.passed] in c.chunk
    requires k.policy.Spares(k.lazy, c.chunk[c.dirtyList[w.passed]].file)
    ensures Traced(c0, c, k, w.(passed := w.passed + 1))
  {
  }

  /** An attempt at the view `v`, which leaves `d`. */
  lemma TracksMore(c0: Cache, c: Cache, d: Cache, policy: Policy, lazy: bool, made: seq<Attempt>, tried: seq<VacbId>, a: Attempt, v: VacbId)
    requires Tracks(c0, c, policy, lazy, made, tried) && v in c.dirty && v in c0.chunk && !policy.Spares(lazy, c0.chunk[v].file)
    requires d.dirty == if a.locked && a.reply.ok then c.dirty - {v} else c.dirty
    ensures Tracks(c0, d, policy, lazy, made + [a], tried + [v])
  {
    var n := |made|;
    var more, vs := made + [a], tried + [v];
    assert forall i :: 0 <= i < n ==> more[i] == made[i] && vs[i] == tried[i];
    assert Cleaned(more, vs) == Cleaned(made, tried) + if a.locked && a.reply.ok then {v} else {} by {
      assert a.locked && a.reply.ok ==> vs[n] == v && more[n] == a;
      assert forall u :: u in Cleaned(made, tried) ==> u in Cleaned(more, vs);
    }
  }

  lemma NoneInVainMore(k: Call, made: seq<Attempt>, a: Attempt)
    requires k.all || (k.target > 0 && (k.wait || Reported(made) < k.target))
    ensures NoneInVain(k, made + [a])
  {
    assert (made + [a])[..|made|] == made;
  }

  lemma TraceRefused(c0: Cache, c: Cache, k: Call, w: Walk, a: Attempt)
    requires Traced(c0, c, k, w) && w.passed < |c.dirtyList| && !a.locked
    requires var v := c.dirtyList[w.passed]; v in c.dirty && v in c0.chunk && !k.policy.Spares(k.lazy, c0.chunk[v].file)
    requires k.all || (k.target > 0 && (k.wait || Reported(w.made) < k.target))
    ensures Traced(c0, c, k, w.(passed := w.passed + 1, made := w.made + [a], tried := w.tried + [c.dirtyList[w.passed]]))
  {
    hide Tracks, NoneInVain, Reported;
    var v, more, vs := c.dirtyList[w.passed], w.made + [a], w.tried + [c.dirtyList[w.passed]];
    SameLength(c0, c, k, w);
    TracksMore(c0, c, c, k.policy, k.lazy, w.made, w.tried, a, v);
    SameLength(c0, c, k, w.(made := more, tried := vs, passed := 0));
    NoneInVainMore(k, w.made, a);
    forall j | 0 <= j < w.passed + 1 && j < |c.dirtyList|
      ensures PassedOver(c, c.dirtyList[j], k.policy, k.lazy, more, vs)
    {
      if j == w.passed {
        assert vs[|w.made|] == v && NoneLocked(more, |w.made|);
      } else {
        StaysPassedOver(c, c.dirtyList[j], k.policy, k.lazy, w.made, w.tried, a, v);
      }
    }
  }

  lemma SameLength(c0: Cache, c: Cache, k: Call, w: Walk)
    requires Tracks(c0, c, k.policy, k.lazy, w.made, w.tried)
    ensures |w.made| == |w.tried|
  {
  }

  lemma StaysPassedOver(c: Cache, u: VacbId, policy: Policy, lazy: bool, made: seq<Attempt>, tried: seq<VacbId>, a: Attempt, v: VacbId)
    requires |made| == |tried| && PassedOver(c, u, policy, lazy, made, tried) && !a.locked
    ensures PassedOver(c, u, policy, lazy, made + [a], tried + [v])
  {
    if i :| 0 <= i < |tried| && tried[i] == u && NoneLocked(made, i) {
      assert (tried + [v])[i] == u && NoneLocked(made + [a], i);
    }
  }

  lemma TraceFlushed(c0: Cache, c: Cache, d: Cache, k: Call, w: Walk, a: Attempt, v: VacbId, w': Walk)
    requires Traced(c0, c, k, w) && v in c.dirty && v in c0.chunk && !k.policy.Spares(k.lazy, c0.chunk[v].file)
    requires a.locked && d.dirty == if a.reply.ok then c.dirty - {v} else c.dirty
    requires k.all || (k.target > 0 && (k.wait || Reported(w.made) < k.target))
    requires w'.made == w.made + [a] && w'.tried == w.tried + [v] && w'.passed == 0
    ensures Traced(c0, d, k, w')
  {
    hide Tracks, NoneInVain, Reported, Cleaned;
    TracksMore(c0, c, d, k.policy, k.lazy, w.made, w.tried, a, v);
    NoneInVainMore(k, w.made, a);
  }

  /** At the end of the list every view that is dirty has been passed over. */
  ghost predicate AllPassedOver(c: Cache, policy: Policy, lazy: bool, made: seq<Attempt>, tried: seq<VacbId>)
    requires |made| == |tried|
  {
    forall v :: v in c.dirty ==> PassedOver(c, v, policy, lazy, made, tried)
  }

  lemma TraceEnds(c0: Cache, c: Cache, k: Call, w: Walk)
    requires Inv(c) && Traced(c0, c, k, w)
    ensures Tracks(c0, c, k.policy, k.lazy, w.made, w.tried) && NoneInVain(k, w.made)
    ensures |w.made| == |w.tried| && (w.passed >= |c.dirtyList| ==> AllPassedOver(c, k.policy, k.lazy, w.made, w.tried))
  {
    hide CleanOk, Coherent, PassedOver, NoneInVain, Cleaned;
    assert PartOk(Dirties, c);
  }

  /** What holds before every round. */
  ghost predicate Watched(c0: Cache, c: Cache, k: Call, w: Walk, round: nat) {
    && Going(c0, c, k.policy, k.lazy, w.passed) && Tally(k.script, w.made, k.target, k.wait, w.count, w.left)
    && Timed(c0, c.dirty, k.policy, k.lazy, k.all, k.script, |w.made|, w.passed, round)
    && Failing(c0, c, k.policy, k.lazy, k.script, k.target, k.all, w.left, w.passed, |w.made|, round)
    && Traced(c0, c, k, w)
  }

  lemma WatchStarts(c0: Cache, k: Call)
    requires Inv(c0)
    ensures Watched(c0, c0, k, Walk(0, k.target, 0, [], []), 0)
  {
    hide Inv, Going, Timed, Failing, Tally, Traced;
    TraceStarts(c0, k);
    GoingStarts(c0, k.policy, k.lazy);
    TallyStarts(k.script, k.target, k.wait);
    TimedStarts(c0, k.policy, k.lazy, k.all, k.script);
    FailingStarts(c0, k.policy, k.lazy, k.script, k.target, k.all);
  }

  lemma WatchAgain(c0: Cache, c: Cache, k: Call, w: Walk, round: nat)
    requires Watched(c0, c, k, w, round) && k.all
    ensures Watched(c0, c, k, w.(passed := 0), round)
  {
    hide Going, Timed, Failing, Tally, Tracks, NoneInVain;
    GoingAgain(c0, c, k.policy, k.lazy, w.passed);
    TimedAgain(c0, c.dirty, k.policy, k.lazy, k.script, |w.made|, w.passed, round);
    FailingAgain(c0, c, k.policy, k.lazy, k.script, k.target, k.all, w.left, w.passed, |w.made|, round);
  }

  /** The next view of the list. */
  lemma WatchNext(c0: Cache, c: Cache, k: Call, w: Walk, round: nat)
    requires Watched(c0, c, k, w, round) && w.passed < |c.dirtyList|
    ensures Inv(c) && c.dirtyList[w.passed] in c.dirty && c.dirtyList[w.passed] in c.chunk
    ensures k.policy.Spares(k.lazy, c.chunk[c.dirtyList[w.passed]].file) ==> Watched(c0, c, k, w.(passed := w.passed + 1), round + 1)
  {
    hide Inv, Timed, Failing, Tally, Traced;
    GoingNext(c0, c, k.policy, k.lazy, w.passed);
    var v := c.dirtyList[w.passed];
    if k.policy.Spares(k.lazy, c.chunk[v].file) {
      hide Going;
      SparedSeen(c0, v, k.policy, k.lazy);
      TraceSpares(c0, c, k, w);
      TimedPasses(c0, c.dirty, k.policy, k.lazy, k.all, k.script, |w.made|, w.passed, round);
      FailingPasses(c0, c, k.policy, k.lazy, k.script, k.target, k.all, w.left, w.passed, |w.made|, round);
    }
  }

  lemma WatchRefused(c0: Cache, c: Cache, k: Call, w: Walk, round: nat)
    requires Watched(c0, c, k, w, round) && w.passed < |c.dirtyList| && !AttemptAt(k.script, |w.made|).locked && (k.all || w.left > 0)
    requires var v := c.dirtyList[w.passed]; v in c.chunk && !k.policy.Spares(k.lazy, c.chunk[v].file)
    ensures Watched(c0, c, k, w.(passed := w.passed + 1, made := w.made + [AttemptAt(k.script, |w.made|)],
                                 tried := w.tried + [c.dirtyList[w.passed]]), round + 1)
  {
    hide Inv, Timed, Failing, Tally, AttemptAt, Traced, Reported;
    GoingNext(c0, c, k.policy, k.lazy, w.passed);
    hide Going;
    TriedPastScript(k.script, |w.made|);
    TallyOpen(k, w);
    TraceRefused(c0, c, k, w, AttemptAt(k.script, |w.made|));
    TallyMore(k.script, w.made, k.target, k.wait, w.count, w.left);
    TimedTries(c0, c.dirty, k.policy, k.lazy, k.all, k.script, |w.made|, w.passed, round, c.dirty, w.passed + 1, c.dirtyList[w.passed]);
    FailingFails(c0, c, c, k.policy, k.lazy, k.script, k.target, k.all, w.left, w.left, w.passed, w.passed + 1, |w.made|, round);
  }

  lemma WatchFlushed(c0: Cache, c: Cache, d: Cache, k: Call, w: Walk, round: nat, v: VacbId)
    requires Watched(c0, c, k, w, round) && v in c.dirty && Inv(d) && SameWrites(c, d) && Spared(c, d, k.policy, k.lazy)
    requires v in c.chunk && !k.policy.Spares(k.lazy, c.chunk[v].file) && (k.all || w.left > 0)
    requires var a := AttemptAt(k.script, |w.made|); a.locked && d.dirty == if a.reply.ok then c.dirty - {v} else c.dirty
    ensures var a := AttemptAt(k.script, |w.made|); var pages := if a.reply.ok || a.tolerated then a.pages else 0;
            var left := if k.wait then w.left else if w.left < pages then 0 else w.left - pages;
            Watched(c0, d, k, Walk(w.count + pages, left, 0, w.made + [a], w.tried + [v]), round + 1)
  {
    hide Inv, Timed, Failing, Tally, AttemptAt, Going, Spared, SameWrites, Traced, Reported;
    SameChunks(c0, c, k.policy, k.lazy, w.passed);
    TallyOpen(k, w);
    GoingOn(c0, c, d, k.policy, k.lazy, w.passed);
    TallyMore(k.script, w.made, k.target, k.wait, w.count, w.left);
    TriedPastScript(k.script, |w.made|);
    TimedTries(c0, c.dirty, k.policy, k.lazy, k.all, k.script, |w.made|, w.passed, round, d.dirty, 0, v);
    var a := AttemptAt(k.script, |w.made|);
    var pages := if a.reply.ok || a.tolerated then a.pages else 0;
    var left := if k.wait then w.left else if w.left < pages then 0 else w.left - pages;
    FailingFails(c0, c, d, k.policy, k.lazy, k.script, k.target, k.all, w.left, left, w.passed, 0, |w.made|, round);
    TraceFlushed(c0, c, d, k, w, a, v, Walk(w.count + pages, left, 0, w.made + [a], w.tried + [v]));
  }

  /** What is known when the call returns, or is no longer watched. */
  lemma WatchEnds(c0: Cache, c: Cache, k: Call, w: Walk, round: nat)
    requires Watched(c0, c, k, w, round)
    ensures Inv(c) && SameWrites(c0, c) && Spared(c0, c, k.policy, k.lazy) && (c.dirtyList == [] <==> c.dirty == {})
    ensures (forall i :: 0 <= i < |w.made| ==> w.made[i] == AttemptAt(k.script, i)) && w.count == Reported(w.made)
    ensures w.left == 0 ==> k.target == 0 || (!k.wait && w.count >= k.target)
    ensures Tracks(c0, c, k.policy, k.lazy, w.made, w.tried) && NoneInVain(k, w.made)
    ensures |w.made| == |w.tried| && (w.passed >= |c.dirtyList| ==> AllPassedOver(c, k.policy, k.lazy, w.made, w.tried))
    ensures Ends(c0, k.policy, k.lazy, k.all) ==> round <= Bound(k.script, c0.dirty)
    ensures c.dirty == {} ==> NoneSpared(c0, k.policy, k.lazy)
    ensures KeepsFailing(c0, k.policy, k.lazy, k.script, k.target, k.all) && round <= |k.script| ==>
              w.passed < |c.dirtyList| && (k.all || w.left > 0)
  {
    hide Inv, Timed, Failing, Tally, AttemptAt, Going, Spared, SameWrites, KeepsFailing, NoneSpared, Bound, Traced, Tracks, AllPassedOver;
    GoingEnds(c0, c, k.policy, k.lazy, w.passed);
    TraceEnds(c0, c, k, w);
    TallyIs(k.script, w.made, k.target, k.wait, w.count, w.left);
    TimedOut(c0, c.dirty, k.policy, k.lazy, k.all, k.script, |w.made|, w.passed, round);
    if c.dirty == {} {
      SparedStays(c0, c, k.policy, k.lazy);
    }
    if KeepsFailing(c0, k.policy, k.lazy, k.script, k.target, k.all) && round <= |k.script| {
      FailingGoesOn(c0, c, k.policy, k.lazy, k.script, k.target, k.all, w.left, w.passed, |w.made|, round);
    }
  }

  /** CcRosFlushDirtyPages, watched for `rounds` rounds. Spared files are left alone and every
      reference it takes is given back. The views no longer dirty are exactly those tried that Mm
      could write, and none is tried once the target is met. When it ends by itself nothing is dirty,
      if all was asked for; otherwise the target is met or every view left was passed over. It does
      end, unless all is asked for while a dirty view belongs to a spared file: then it goes on for
      ever, as it does on a disk that keeps failing. */
  method FlushDirtyPages(m: Manager, target: nat, all: bool, wait: bool, lazy: bool, policy: Policy,
                         script: seq<Attempt>, rounds: nat)
    returns (count: nat, finished: bool, ghost made: seq<Attempt>, ghost tried: seq<VacbId>)
    requires Inv(m.Snapshot())
    modifies m
    ensures count == Reported(made) && forall i :: 0 <= i < |made| ==> made[i] == AttemptAt(script, i)
    ensures Inv(m.Snapshot()) && SameWrites(old(m.Snapshot()), m.Snapshot())
    ensures Spared(old(m.Snapshot()), m.Snapshot(), policy, lazy)
    ensures finished && all ==> m.dirty == {}
    ensures Tracks(old(m.Snapshot()), m.Snapshot(), policy, lazy, made, tried) && NoneInVain(Call(target, all, wait, lazy, policy, script), made)
    ensures |made| == |tried|
    ensures finished && !all ==>
              target == 0 || (!wait && count >= target) || AllPassedOver(m.Snapshot(), policy, lazy, made, tried)
    ensures finished ==> Ends(old(m.Snapshot()), policy, lazy, all)
    ensures Ends(old(m.Snapshot()), policy, lazy, all) && rounds > Bound(script, old(m.dirty)) ==> finished
    ensures KeepsFailing(old(m.Snapshot()), policy, lazy, script, target, all) && rounds <= |script| ==> !finished
  {
    hide Inv, SameWrites, Spared, Watched, Bound, NoneSpared, Tracks, NoneInVain, AllPassedOver, AttemptAt, Reported, KeepsFailing;
    ghost var c0, k := m.Snapshot(), Call(target, all, wait, lazy, policy, script);
    count, made, tried := 0, [], [];
    var left: nat, passed: nat, tries: nat := target, 0, 0;
    WatchStarts(c0, k);
    for round := 0 to rounds
      invariant Watched(c0, m.Snapshot(), k, Walk(count, left, passed, made, tried), round) && tries == |made|
    {
      WatchEnds(c0, m.Snapshot(), k, Walk(count, left, passed, made, tried), round);
      if !all && (passed >= |m.dirtyList| || left == 0) {
        return count, true, made, tried;
      }
      if passed >= |m.dirtyList| {
        if m.dirtyList == [] {
          return count, true, made, tried;
        }
        WatchAgain(c0, m.Snapshot(), k, Walk(count, left, passed, made, tried), round);
        passed := 0;
      }
      ghost var w := Walk(count, left, passed, made, tried);
      WatchNext(c0, m.Snapshot(), k, w, round);
      var v := m.dirtyList[passed];
      passed := passed + 1;
      if policy.Spares(lazy, m.chunk[v].file) {
        continue;
      }
      var a := AttemptAt(script, tries);
      tries, made, tried := tries + 1, made + [a], tried + [v];
      if !a.locked {
        WatchRefused(c0, m.Snapshot(), k, w, round);
        continue;
      }
      ghost var c := m.Snapshot();
      FlushOne(m, v, a.reply, policy, lazy);
      WatchFlushed(c0, c, m.Snapshot(), k, w, round, v);
      if a.reply.ok || a.tolerated {
        count := count + a.pages;
        if !wait {
          left := if left < a.pages then 0 else left - a.pages;
        }
      }
      passed := 0;
    }
    WatchEnds(c0, m.Snapshot(), k, Walk(count, left, passed, made, tried), rounds);
    finished := false;
  }

  lemma SparedSeen(c: Cache, v: VacbId, policy: Policy, lazy: bool)
    requires v in c.dirty && v in c.chunk && policy.Spares(lazy, c.chunk[v].file)
    ensures !NoneSpared(c, policy, lazy)
  {
  }

  /** Pages reported by the attempts that got as far as writing, unless they failed for good. */
  function Reported(made: seq<Attempt>): (n: nat) {
    if made == [] then 0
    else
      var a := made[|made| - 1];
      Reported(made[..|made| - 1]) + if a.locked && (a.reply.ok || a.tolerated) then a.pages else 0
  }

  lemma ReportedMore(made: seq<Attempt>, a: Attempt)
    ensures Reported(made + [a]) == Reported(made) + if a.locked && (a.reply.ok || a.tolerated) then a.pages else 0
  {
    assert (made + [a])[..|made|] == made;
  }

  lemma GoingAgain(c0: Cache, c: Cache, policy: Policy, lazy: bool, passed: nat)
    requires Going(c0, c, policy, lazy, passed)
    ensures Going(c0, c, policy, lazy, 0)
  {
  }

  /** A run after which flushing everything does not end: one file has a dirty view and is being
      written by another call, or is a temporary file and the caller the lazy writer. */
  lemma FlushAllCanSpin(lazy: bool) returns (states: seq<Cache>, events: seq<Event>, c: Cache, policy: Policy)
    ensures IsRun(states, events, map[], {0}) && Clear(states, events, |events|) && c == states[|events|] && Inv(c)
    ensures (lazy ==> policy.busy == {}) && !Ends(c, policy, lazy, true)
  {
    hide Inv, IsRun, Clear;
    states, events, c := Released();
    policy := if lazy then Policy({}, {0}, {}) else Policy({0}, {}, {});
    RunInv(states, events, map[], {0}, |events|);
    assert 0 in c.dirty && 0 in c.chunk && policy.Spares(lazy, c.chunk[0].file);
  }

  // ------------------------------------------------------------- trimming

  /** Clients' references and writes are untouched, only views nobody holds go, and bytes are lost
      only of abandoned ones. */
  ghost predicate Trimmed(c: Cache, d: Cache) {
    && Inv(d) && d.h.holds == c.h.holds && d.h.writers == c.h.writers
    && d.h.writes == c.h.writes && d.h.initial == c.h.initial && d.lists.Keys == c.lists.Keys
    && d.h.linked <= c.h.linked && d.h.unsaved <= c.h.unsaved
    && (forall v :: v in c.h.linked && v !in d.h.linked ==> c.h.holds[v] == 0)
    && (forall v :: v in d.chunk ==> v in c.chunk && d.chunk[v] == c.chunk[v])
    && LosesAbandoned(c, d)
  }

  /** The views nobody holds that have become clean. */
  ghost function Freeable(c: Cache, d: Cache): (vs: set<VacbId>) {
    set v | v in c.dirty && v !in d.dirty && c.h.holds[v] == 0
  }

  lemma PassTrims(c: Cache, d: Cache, gone: set<VacbId>)
    requires Inv(c) && Swept(c, d, gone) && gone == UnusedOf(c)
    ensures Trimmed(c, d) && UnusedOf(d) == {} && d.h.linked == c.h.linked - UnusedOf(c)
    ensures d.dirty == c.dirty && forall policy: Policy, lazy: bool :: (NoneSpared(c, policy, lazy) <==> NoneSpared(d, policy, lazy))
  {
    hide CleanOk, Coherent;
    forall v | v in gone
      ensures v !in c.dirty && c.h.holds[v] == 0
    {
      UnusedByCount(c, v);
    }
    assert Unwritten(c, gone) <= Abandoned(c);
  }

  lemma FlushTrims(c: Cache, d: Cache, policy: Policy)
    requires Inv(d) && SameWrites(c, d) && Spared(c, d, policy, false)
    ensures Trimmed(c, d) && d.h.linked == c.h.linked
  {
  }

  lemma TrimmedTrans(c: Cache, d: Cache, e: Cache)
    requires Trimmed(c, d) && Trimmed(d, e)
    ensures Trimmed(c, e)
  {
    assert Abandoned(d) <= Abandoned(c);
  }

  /** After a pass and a flush the unused views are those the flush has cleaned. */
  lemma UnusedByFlush(c: Cache, d: Cache)
    requires Inv(c) && Trimmed(c, d) && UnusedOf(c) == {} && d.dirty <= c.dirty && d.h.linked == c.h.linked
    ensures UnusedOf(d) == Freeable(c, d)
  {
    hide CleanOk, Coherent;
    assert PartOk(Refs, c) && PartOk(Refs, d) && PartOk(Dirties, c);
    forall v | v in c.h.linked
      ensures v in UnusedOf(d) <==> v in Freeable(c, d)
    {
      LinkedFacts(c, v);
      LinkedFacts(d, v);
      assert v !in UnusedOf(c);
    }
  }

  lemma SameFreeable(c: Cache, c': Cache, d: Cache, d': Cache)
    requires c.dirty == c'.dirty && d.dirty == d'.dirty && Trimmed(c, c')
    ensures Freeable(c, d) == Freeable(c', d')
  {
  }

  /** What was tried is the same seen from before the first pass. */
  lemma TracksFromFirst(c0: Cache, c1: Cache, d: Cache, d': Cache, policy: Policy, made: seq<Attempt>, tried: seq<VacbId>)
    requires Trimmed(c0, c1) && c1.dirty == c0.dirty && d'.dirty == d.dirty && Tracks(c1, d, policy, false, made, tried)
    ensures Tracks(c0, d', policy, false, made, tried)
  {
    hide Inv;
  }

  lemma PassedOverAfter(c: Cache, d: Cache, policy: Policy, made: seq<Attempt>, tried: seq<VacbId>)
    requires Inv(d) && Trimmed(c, d) && d.dirty == c.dirty && |made| == |tried| && AllPassedOver(c, policy, false, made, tried)
    ensures AllPassedOver(d, policy, false, made, tried)
  {
    hide CleanOk, Coherent, NoneLocked;
    assert PartOk(Dirties, d);
    forall v | v in d.dirty
      ensures PassedOver(d, v, policy, false, made, tried)
    {
      LinkedFacts(d, v);
      assert PassedOver(c, v, policy, false, made, tried);
    }
  }

  /** What the first pass reports. */
  ghost function FirstPass(c: Cache, target: nat): (n: nat) {
    Min(PAGES_PER_VIEW * |UnusedOf(c)|, target)
  }

  /** It does not come to flushing everything, or no dirty view is spared. */
  ghost predicate TrimComesToEnd(c: Cache, target: nat, policy: Policy) {
    target - FirstPass(c, target) == 0xFFFF_FFFF ==> NoneSpared(c, policy, false)
  }

  /** CcRosTrimCache: unused views go first; if that is not enough, dirty ones are flushed and, when
      that reported pages, the views it has cleaned go too. It never reports more pages than it was
      asked for. It ends, unless it has to flush everything while a dirty view belongs to a spared
      file. */
  method Trim(m: Manager, target: nat, policy: Policy, script: seq<Attempt>, rounds: nat)
    returns (freed: nat, finished: bool, ghost made: seq<Attempt>, ghost tried: seq<VacbId>)
    requires Inv(m.Snapshot())
    modifies m
    ensures Trimmed(old(m.Snapshot()), m.Snapshot())
    ensures var c, d := old(m.Snapshot()), m.Snapshot();
            var first, more := FirstPass(c, target), if finished && Reported(made) > 0 then Freeable(c, d) else {};
            && d.h.linked == c.h.linked - UnusedOf(c) - more
            && freed == first + Min(PAGES_PER_VIEW * |more|, Min(Reported(made), target - first))
    ensures Tracks(old(m.Snapshot()), m.Snapshot(), policy, false, made, tried) && |made| == |tried|
    ensures forall i :: 0 <= i < |made| ==> made[i] == AttemptAt(script, i)
    ensures var left := target - FirstPass(old(m.Snapshot()), target);
            && NoneInVain(Call(left, left == 0xFFFF_FFFF, false, false, policy, script), made)
            && (finished && left == 0xFFFF_FFFF ==> m.dirty == {})
            && (finished && left != 0xFFFF_FFFF ==> Reported(made) >= left || AllPassedOver(m.Snapshot(), policy, false, made, tried))
    ensures finished ==> TrimComesToEnd(old(m.Snapshot()), target, policy)
    ensures TrimComesToEnd(old(m.Snapshot()), target, policy) && rounds > Bound(script, old(m.dirty)) ==> finished
  {
    hide Inv, Swept, Trimmed, SameWrites, Spared, UnusedOf, NoneSpared, Bound, Tracks, NoneInVain, AllPassedOver, Freeable, Reported, AttemptAt;
    ghost var c0 := m.Snapshot();
    ghost var gone;
    freed, gone := TrimPass(m, target);
    ghost var c1 := m.Snapshot();
    PassTrims(c0, c1, gone);
    InvOf(c0, c1);
    var left := target - freed;
    made, tried := [], [];
    if left == 0 {
      NothingTried(c0, c1, Call(0, false, false, false, policy, script));
      return freed, true, made, tried;
    }
    var flushed;
    flushed, finished, made, tried := FlushDirtyPages(m, left, left == 0xFFFF_FFFF, false, false, policy, script, rounds);
    ghost var c2 := m.Snapshot();
    FlushTrims(c1, c2, policy);
    TrimmedTrans(c0, c1, c2);
    TracksFromFirst(c0, c1, c2, c2, policy, made, tried);
    if !finished {
      return;
    }
    if flushed < left {
      left := flushed;
    }
    if flushed != 0 {
      TracksDirty(c1, c2, policy, made, tried);
      UnusedByFlush(c1, c2);
      var more;
      more, gone := TrimPass(m, left);
      PassTrims(c2, m.Snapshot(), gone);
      TrimmedTrans(c0, c2, m.Snapshot());
      InvOf(c0, m.Snapshot());
      SameFreeable(c0, c1, m.Snapshot(), c2);
      TracksFromFirst(c0, c1, c2, m.Snapshot(), policy, made, tried);
      if AllPassedOver(c2, policy, false, made, tried) {
        PassedOverAfter(c2, m.Snapshot(), policy, made, tried);
      }
      freed := freed + more;
    }
  }

  lemma NothingTried(c: Cache, d: Cache, k: Call)
    requires d.dirty == c.dirty
    ensures Tracks(c, d, k.policy, false, [], []) && NoneInVain(k, []) && Reported([]) == 0
  {
  }

  lemma TracksDirty(c: Cache, d: Cache, policy: Policy, made: seq<Attempt>, tried: seq<VacbId>)
    requires Tracks(c, d, policy, false, made, tried)
    ensures d.dirty <= c.dirty
  {
  }

  lemma InvOf(c: Cache, d: Cache)
    requires Trimmed(c, d)
    ensures Inv(d)
  {
  }
}
