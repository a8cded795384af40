/** The lazy writer on top of its worker pool: waiters register a SetDone item, scans move the
    registered items to the regular queue behind the scan's own WriteBehind item. */
module LazyWriter {
  import opened Collections
  import opened WorkerPool

  type Waiter = nat
  type ScanId = nat

  /** A CcLazyWriteScan in progress: the waiters it took over, and the WriteBehind it posted. */
  datatype Scan = Scan(toPost: seq<Waiter>, decided: bool, behind: Option<ItemId>)

  /** `waited`, `sentAs` and `sentBehind` are history: every waiter so far, the SetDone item it
      became, and the WriteBehind item of the scan that posted it. */
  datatype Writer = Writer(
    pool: Pool,
    postTick: seq<Waiter>,
    otherWork: bool,
    scans: map<ScanId, Scan>,
    waited: set<Waiter>,
    sentAs: map<Waiter, ItemId>,
    sentBehind: map<Waiter, Option<ItemId>>)

  datatype Event =
    | Wait(waiter: Waiter)
    | BeginScan(scan: ScanId)
    | PostBehind(scan: ScanId, needed: bool)
    | PostWaiter(scan: ScanId)
    | EndScan(scan: ScanId)
    | PostOther(fn: Function, queue: Queue)
    | WorkerTakes(worker: WorkerId)
    | WorkerFinishes(worker: WorkerId)

  function Start(threads: seq<WorkerId>): (s: Writer) {
    Writer(Initial(threads), [], false, map[], {}, map[], map[])
  }

  /** Who may do what, when. Only scans post SetDone; only the workers' own state decides theirs. */
  ghost predicate Enabled(s: Writer, e: Event) {
    match e
    case Wait(x) => x !in s.waited
    case BeginScan(k) => k !in s.scans
    case PostBehind(k, _) => k in s.scans && !s.scans[k].decided
    case PostWaiter(k) => k in s.scans && s.scans[k].decided && s.scans[k].toPost != []
    case EndScan(k) => k in s.scans && s.scans[k].decided && s.scans[k].toPost == []
    case PostOther(fn, queue) => !fn.SetDone?
    case WorkerTakes(w) => QueuesOrdered(s.pool) && w in s.pool.workers && s.pool.workers[w].AtTop?
    case WorkerFinishes(w) =>
      && w in s.pool.workers && s.pool.workers[w].Busy?
      && s.pool.workers[w].item < |s.pool.posted| == |s.pool.place|
  }

  ghost function Step(s: Writer, e: Event): (s': Writer)
    requires Enabled(s, e)
  {
    match e
    case Wait(x) => s.(postTick := s.postTick + [x], otherWork := true, waited := s.waited + {x})
    case BeginScan(k) =>
      if s.otherWork
      then s.(scans := s.scans[k := Scan(s.postTick, false, None)], postTick := [], otherWork := false)
      else s.(scans := s.scans[k := Scan([], false, None)])
    case PostBehind(k, needed) =>
      if needed
      then s.(pool := Post(s.pool, WriteBehind, Regular),
              scans := s.scans[k := s.scans[k].(decided := true, behind := Some(|s.pool.posted|))])
      else s.(scans := s.scans[k := s.scans[k].(decided := true)])
    case PostWaiter(k) =>
      var x := s.scans[k].toPost[0];
      s.(pool := Post(s.pool, SetDone, Regular),
         scans := s.scans[k := s.scans[k].(toPost := s.scans[k].toPost[1..])],
         sentAs := s.sentAs[x := |s.pool.posted|],
         sentBehind := s.sentBehind[x := s.scans[k].behind])
    case EndScan(k) => s.(scans := s.scans - {k})
    case PostOther(fn, queue) => s.(pool := Post(s.pool, fn, queue))
    case WorkerTakes(w) => s.(pool := Take(s.pool, w))
    case WorkerFinishes(w) => s.(pool := Finish(s.pool, w))
  }

  // ------------------------------------------------------------- the invariant

  ghost predicate Woken(s: Writer, x: Waiter) {
    x in s.sentAs && s.sentAs[x] < |s.pool.place| && s.pool.place[s.sentAs[x]].Done?
  }

  ghost predicate InSomeScan(s: Writer, x: Waiter) {
    exists k :: k in s.scans && x in s.scans[k].toPost
  }

  /** A waiter's item was posted after the WriteBehind item of the same scan. */
  ghost predicate Sent(s: Writer) {
    && (forall x :: x in s.sentAs ==>
          && s.sentAs[x] < |s.pool.posted| && s.pool.posted[s.sentAs[x]] == Posting(SetDone, Regular)
          && x in s.sentBehind
          && (s.sentBehind[x].Some? ==> s.sentBehind[x].value < s.sentAs[x]))
    && (forall k :: k in s.scans && s.scans[k].behind.Some? ==> s.scans[k].behind.value < |s.pool.posted|)
  }

  /** No waiter is forgotten: it is still registered, taken over by a scan, or in the pool. */
  ghost predicate Kept(s: Writer) {
    && (s.postTick != [] ==> s.otherWork)
    && (forall x :: x in s.waited ==> x in s.postTick || InSomeScan(s, x) || x in s.sentAs)
  }

  ghost predicate WInv(s: Writer) {
    Inv(s.pool) && Sent(s) && Kept(s)
  }

  lemma StepKeepsPool(s: Writer, e: Event)
    requires Inv(s.pool) && Enabled(s, e)
    ensures Inv(Step(s, e).pool)
  {
    match e
    case PostBehind(k, needed) => PostKeeps(s.pool, WriteBehind, Regular);
    case PostWaiter(k) => PostKeeps(s.pool, SetDone, Regular);
    case PostOther(fn, queue) => PostKeeps(s.pool, fn, queue);
    case WorkerTakes(w) => TakeKeeps(s.pool, w);
    case WorkerFinishes(w) => FinishKeeps(s.pool, w);
    case _ =>
  }

  lemma PostedGrows(s: Writer, e: Event)
    requires Enabled(s, e)
    ensures |s.pool.posted| <= |Step(s, e).pool.posted|
    ensures forall i :: 0 <= i < |s.pool.posted| ==> Step(s, e).pool.posted[i] == s.pool.posted[i]
  {
  }

  lemma StepKeepsSent(s: Writer, e: Event)
    requires Sent(s) && Enabled(s, e)
    ensures Sent(Step(s, e))
  {
    PostedGrows(s, e);
    match e
    case PostBehind(k, needed) =>
    case PostWaiter(k) =>
      assert Step(s, e).pool.posted[|s.pool.posted|] == Posting(SetDone, Regular);
    case _ =>
  }

  lemma StepKeepsWaiters(s: Writer, e: Event)
    requires Kept(s) && Enabled(s, e)
    ensures Kept(Step(s, e))
  {
    var s' := Step(s, e);
    forall x | x in s'.waited
      ensures x in s'.postTick || InSomeScan(s', x) || x in s'.sentAs
    {
      if InSomeScan(s, x) {
        var k :| k in s.scans && x in s.scans[k].toPost;
        if e.PostWaiter? && e.scan == k {
          assert s.scans[k].toPost == [s.scans[k].toPost[0]] + s'.scans[k].toPost;
        }
        assert x in s'.sentAs || (k in s'.scans && x in s'.scans[k].toPost);
      } else if e.BeginScan? && x in s.postTick {
        assert e.scan in s'.scans && x in s'.scans[e.scan].toPost;
      }
    }
  }

  // ------------------------------------------------------------- every run

  ghost predicate IsRun(states: seq<Writer>, events: seq<Event>, threads: seq<WorkerId>) {
    && |states| == |events| + 1 && states[0] == Start(threads)
    && threads != [] && Distinct(threads)
    && forall i :: 0 <= i < |events| ==> Enabled(states[i], events[i]) && states[i + 1] == Step(states[i], events[i])
  }

  lemma {:induction false} RunInv(states: seq<Writer>, events: seq<Event>, threads: seq<WorkerId>, n: nat)
    requires IsRun(states, events, threads) && n < |states|
    ensures WInv(states[n])
  {
    if n == 0 {
      InitialInv(threads);
    } else {
      RunInv(states, events, threads, n - 1);
      StepKeepsPool(states[n - 1], events[n - 1]);
      StepKeepsSent(states[n - 1], events[n - 1]);
      StepKeepsWaiters(states[n - 1], events[n - 1]);
    }
  }

  /** Barrier: in every state of every run, a SetDone whose event is set (or about to be) has
      every earlier item done, and every express item posted before it was taken. */
  lemma SetDoneIsABarrier(states: seq<Writer>, events: seq<Event>, threads: seq<WorkerId>, n: nat, id: ItemId, a: ItemId)
    requires IsRun(states, events, threads) && n < |states|
    requires var p := states[n].pool;
             && id < |p.posted| == |p.place| && p.posted[id].fn.SetDone? && !p.place[id].Waiting?
             && a < |p.posted| && (a < id || (id in p.mark && a < p.mark[id] && p.posted[a].queue.Express?))
    ensures states[n].pool.place[a].Done?
  {
    RunInv(states, events, threads, n);
    assert Barrier(states[n].pool);
  }

  /** A waiter is woken only after the WriteBehind item of the scan that posted it, if there
      was one, has completed. */
  lemma WokenAfterWriteBehind(states: seq<Writer>, events: seq<Event>, threads: seq<WorkerId>, n: nat, x: Waiter)
    requires IsRun(states, events, threads) && n < |states| && Woken(states[n], x)
    ensures x in states[n].sentBehind
    ensures var b := states[n].sentBehind[x];
            b.Some? ==> b.value < |states[n].pool.place| && states[n].pool.place[b.value].Done?
  {
    RunInv(states, events, threads, n);
    assert Barrier(states[n].pool);
  }

  /** Work is never stranded, in any state of any run. */
  lemma RunNeverStrands(states: seq<Writer>, events: seq<Event>, threads: seq<WorkerId>, n: nat)
    requires IsRun(states, events, threads) && n < |states|
    ensures var p := states[n].pool;
            && |p.idle| + p.active == |p.workers|
            && (p.throttle || p.express != [] || p.regular != [] ==> p.active >= 1)
            && (p.throttle ==> SetDoneQueued(p) || exists w :: WillDrop(p, w))
  {
    RunInv(states, events, threads, n);
    PoolNeverStuck(states[n].pool);
    if states[n].pool.throttle {
      ThrottledIsActive(states[n].pool);
    }
  }

  lemma StepAdvances(s: Writer, e: Event, id: ItemId)
    requires WInv(s) && Enabled(s, e) && id < |s.pool.place|
    ensures id < |Step(s, e).pool.place| && Advances(s.pool.place[id], Step(s, e).pool.place[id])
  {
    if e.WorkerTakes? || e.WorkerFinishes? {
      StepsAdvance(s.pool, e.worker, id);
    }
  }

  /** Each item is handled at most once: from the state where a worker has it, it stays with
      that worker and then stays done. */
  lemma {:induction false} HandledOnce(states: seq<Writer>, events: seq<Event>, threads: seq<WorkerId>, n: nat, m: nat, id: ItemId)
    requires IsRun(states, events, threads) && n <= m < |states|
    requires id < |states[n].pool.place|
    ensures id < |states[m].pool.place| && Advances(states[n].pool.place[id], states[m].pool.place[id])
    decreases m - n
  {
    if n == m {
    } else {
      HandledOnce(states, events, threads, n, m - 1, id);
      RunInv(states, events, threads, m - 1);
      StepAdvances(states[m - 1], events[m - 1], id);
    }
  }
}
