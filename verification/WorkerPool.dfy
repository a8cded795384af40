/** The lazy writer's worker pool as a protocol: two queues, an idle list, an active count
    and a throttle flag, changed only inside the sections that hold the work queue lock.
    Each such section is one step; the steps of posters and workers interleave freely. */
module WorkerPool {
  import opened Collections

  type ItemId = nat
  type WorkerId = nat

  datatype Function = ReadAhead | WriteBehind | LazyScan | SetDone
  datatype Queue = Express | Regular

  /** A posted item; its id is its position in the posting order. */
  datatype Posting = Posting(fn: Function, queue: Queue)

  /** Where a posted item is: still queued, being handled, or done (for SetDone: event set). */
  datatype Place = Waiting | With(worker: WorkerId) | Done

  /** Where a worker thread stands: parked on the idle list, about to take the lock (with its
      DropThrottle flag), or handling an item with the lock released. */
  datatype Worker = Idle | AtTop(drop: bool) | Busy(item: ItemId)

  /** The last three fields are history: everything ever posted, where each item is, and, for
      each SetDone taken off the queue, how many items had been posted by then. */
  datatype Pool = Pool(
    express: seq<ItemId>,
    regular: seq<ItemId>,
    idle: seq<WorkerId>,
    active: int,
    throttle: bool,
    workers: map<WorkerId, Worker>,
    posted: seq<Posting>,
    place: seq<Place>,
    mark: map<ItemId, nat>)

  // ------------------------------------------------------------- the steps

  function Initial(threads: seq<WorkerId>): (p: Pool) {
    Pool([], [], threads, 0, false, map w | w in threads :: Idle, [], [], map[])
  }

  /** CcPostWorkQueue: append, and wake an idle worker unless the queue is throttled. */
  function Post(p: Pool, fn: Function, queue: Queue): (p': Pool) {
    var id := |p.posted|;
    var q := p.(posted := p.posted + [Posting(fn, queue)],
                place := p.place + [Waiting],
                express := if queue.Express? then p.express + [id] else p.express,
                regular := if queue.Regular? then p.regular + [id] else p.regular);
    if !p.throttle && p.idle != []
    then q.(idle := p.idle[1..], active := p.active + 1, workers := p.workers[p.idle[0] := AtTop(false)])
    else q
  }

  /** The worker leaves the loop: back on the idle list, one less active. */
  function Park(p: Pool, w: WorkerId): (p': Pool) {
    p.(idle := p.idle + [w], active := p.active - 1, workers := p.workers[w := Idle])
  }

  /** Item `id`, at the head of its queue, goes to worker `w`. */
  function Hand(p: Pool, w: WorkerId, id: ItemId): (p': Pool)
    requires id < |p.posted| == |p.place|
  {
    var q := if p.express != [] then p.(express := p.express[1..])
             else if p.regular != [] then p.(regular := p.regular[1..]) else p;
    q.(workers := p.workers[w := Busy(id)],
       place := p.place[id := With(w)],
       mark := if p.posted[id].fn.SetDone? then p.mark[id := |p.posted|] else p.mark)
  }

  /** The locked section at the top of the worker loop: drop the throttle if owed, look at the
      express queue before the regular one, and step aside for a SetDone that is not alone. */
  function Take(p: Pool, w: WorkerId): (p': Pool)
    requires QueuesOrdered(p) && w in p.workers && p.workers[w].AtTop?
  {
    var q := p.(throttle := p.throttle && !p.workers[w].drop, workers := p.workers[w := AtTop(false)]);
    if q.express == [] && q.regular == [] then Park(q, w)
    else
      var id := if q.express != [] then q.express[0] else q.regular[0];
      if q.posted[id].fn.SetDone? && q.active > 1 then Park(q.(throttle := true), w) else Hand(q, w, id)
  }

  /** The handler returns; for SetDone the event has been set and the throttle will drop. */
  function Finish(p: Pool, w: WorkerId): (p': Pool)
    requires w in p.workers && p.workers[w].Busy? && p.workers[w].item < |p.posted| == |p.place|
  {
    var id := p.workers[w].item;
    p.(workers := p.workers[w := AtTop(p.posted[id].fn.SetDone?)], place := p.place[id := Done])
  }

  // ------------------------------------------------------------- the invariant

  /** A queue holds waiting items of its own kind, in posting order. */
  ghost predicate InOrder(q: seq<ItemId>, kind: Queue, posted: seq<Posting>, place: seq<Place>) {
    && |place| == |posted|
    && (forall i :: 0 <= i < |q| ==> q[i] < |posted| && posted[q[i]].queue == kind && place[q[i]].Waiting?)
    && (forall i, j :: 0 <= i < j < |q| ==> q[i] < q[j])
  }

  /** SetDone is only ever posted to the regular queue. */
  ghost predicate QueuesOrdered(p: Pool) {
    && InOrder(p.express, Express, p.posted, p.place) && InOrder(p.regular, Regular, p.posted, p.place)
    && (forall id :: 0 <= id < |p.posted| && p.posted[id].fn.SetDone? ==> p.posted[id].queue.Regular?)
  }

  ghost function Active(workers: map<WorkerId, Worker>): (s: set<WorkerId>) {
    set w | w in workers && !workers[w].Idle?
  }

  /** A worker is on the idle list exactly when it is parked, and the count is right. */
  ghost predicate WorkersCounted(p: Pool) {
    && Distinct(p.idle)
    && (forall w :: w in p.idle <==> w in p.workers && p.workers[w].Idle?)
    && p.active == |Active(p.workers)|
  }

  /** Every waiting item is in its queue, and items in hand and busy workers correspond one to one. */
  ghost predicate OnePlace(p: Pool) {
    && |p.place| == |p.posted|
    && (forall id :: 0 <= id < |p.place| && p.place[id].Waiting? ==>
          if p.posted[id].queue.Express? then id in p.express else id in p.regular)
    && (forall id :: 0 <= id < |p.place| && p.place[id].With? ==>
          p.place[id].worker in p.workers && p.workers[p.place[id].worker] == Busy(id))
    && (forall w :: w in p.workers && p.workers[w].Busy? ==>
          p.workers[w].item < |p.place| && p.place[p.workers[w].item] == With(w))
  }

  /** A SetDone off the queue has everything posted before it, and every express item posted
      before it was taken, already done. */
  ghost predicate Barrier(p: Pool) {
    && |p.place| == |p.posted|
    && (forall id :: id in p.mark ==> id < |p.posted| && id < p.mark[id] <= |p.posted|)
    && (forall id :: 0 <= id < |p.posted| && p.posted[id].fn.SetDone? && !p.place[id].Waiting? ==> id in p.mark)
    && (forall id, a :: id in p.mark && 0 <= a < id ==> p.place[a].Done?)
    && (forall id, a :: id in p.mark && 0 <= a < p.mark[id] && p.posted[a].queue.Express? ==> p.place[a].Done?)
  }

  /** A worker that still owes the pool a dropped throttle. */
  ghost predicate WillDrop(p: Pool, w: WorkerId) {
    && w in p.workers
    && (p.workers[w] == AtTop(true)
        || (p.workers[w].Busy? && p.workers[w].item < |p.posted| && p.posted[p.workers[w].item].fn.SetDone?))
  }

  ghost predicate SetDoneQueued(p: Pool) {
    exists i :: 0 <= i < |p.regular| && p.regular[i] < |p.posted| && p.posted[p.regular[i]].fn.SetDone?
  }

  /** No work is stranded. */
  ghost predicate NotStranded(p: Pool) {
    && (p.express != [] || p.regular != [] ==> p.active >= 1)
    && (p.throttle ==> SetDoneQueued(p) || exists w :: WillDrop(p, w))
  }

  ghost predicate Inv(p: Pool) {
    && p.workers != map[]
    && WorkersCounted(p) && QueuesOrdered(p) && OnePlace(p) && Barrier(p) && NotStranded(p)
  }

  // ------------------------------------------------------------- every step keeps it

  lemma InitialInv(threads: seq<WorkerId>)
    requires threads != [] && Distinct(threads)
    ensures Inv(Initial(threads))
  {
    var p := Initial(threads);
    assert threads[0] in p.workers;
    assert Active(p.workers) == {};
  }

  /** Someone is active whenever the queue is throttled. */
  lemma ThrottledIsActive(p: Pool)
    requires WorkersCounted(p) && NotStranded(p) && p.throttle
    ensures p.active >= 1
  {
    if SetDoneQueued(p) {
    } else {
      var w :| WillDrop(p, w);
      assert w in Active(p.workers);
    }
  }

  lemma PostCounted(p: Pool, fn: Function, queue: Queue)
    requires WorkersCounted(p)
    ensures WorkersCounted(Post(p, fn, queue))
  {
    var p' := Post(p, fn, queue);
    if !p.throttle && p.idle != [] {
      assert p.idle[0] in p.idle && p.idle == [p.idle[0]] + p.idle[1..];
      assert Active(p'.workers) == Active(p.workers) + {p.idle[0]};
    }
  }

  lemma AppendInOrder(q: seq<ItemId>, kind: Queue, posted: seq<Posting>, place: seq<Place>, x: Posting)
    requires InOrder(q, kind, posted, place)
    ensures InOrder(q, kind, posted + [x], place + [Waiting])
    ensures x.queue == kind ==> InOrder(q + [|posted|], kind, posted + [x], place + [Waiting])
  {
  }

  lemma PostOrdered(p: Pool, fn: Function, queue: Queue)
    requires QueuesOrdered(p) && (fn.SetDone? ==> queue.Regular?)
    ensures QueuesOrdered(Post(p, fn, queue))
  {
    AppendInOrder(p.express, Express, p.posted, p.place, Posting(fn, queue));
    AppendInOrder(p.regular, Regular, p.posted, p.place, Posting(fn, queue));
  }

  lemma PostPlaces(p: Pool, fn: Function, queue: Queue)
    requires WorkersCounted(p) && OnePlace(p)
    ensures OnePlace(Post(p, fn, queue))
  {
    if !p.throttle && p.idle != [] {
      assert p.idle[0] in p.idle;
    }
  }

  lemma PostBarrier(p: Pool, fn: Function, queue: Queue)
    requires Barrier(p)
    ensures Barrier(Post(p, fn, queue))
  {
  }

  lemma PostServed(p: Pool, fn: Function, queue: Queue)
    requires WorkersCounted(p) && NotStranded(p) && p.workers != map[]
    ensures NotStranded(Post(p, fn, queue))
  {
    var p' := Post(p, fn, queue);
    if p.throttle {
      ThrottledIsActive(p);
      if SetDoneQueued(p) {
        var i :| 0 <= i < |p.regular| && p.regular[i] < |p.posted| && p.posted[p.regular[i]].fn.SetDone?;
        assert p'.regular[i] == p.regular[i];
      } else {
        var w :| WillDrop(p, w);
        assert WillDrop(p', w);
      }
    } else if p.idle == [] {
      var w :| w in p.workers;
      assert w in Active(p.workers);
    }
  }

  lemma PostKeeps(p: Pool, fn: Function, queue: Queue)
    requires Inv(p) && (fn.SetDone? ==> queue.Regular?)
    ensures Inv(Post(p, fn, queue))
  {
    PostCounted(p, fn, queue);
    PostOrdered(p, fn, queue);
    PostPlaces(p, fn, queue);
    PostBarrier(p, fn, queue);
    PostServed(p, fn, queue);
  }

  /** Changing a worker between two states that hold no item. */
  lemma WorkerMoves(p: Pool, w: WorkerId, q: Pool)
    requires OnePlace(p) && w in p.workers && !p.workers[w].Busy?
    requires q.workers == p.workers[w := AtTop(false)] || q.workers == p.workers[w := Idle]
    requires q.place == p.place && q.posted == p.posted && q.express == p.express && q.regular == p.regular
    ensures OnePlace(q)
  {
  }

  lemma ParkCounted(p: Pool, w: WorkerId)
    requires WorkersCounted(p) && w in p.workers && p.workers[w].AtTop?
    ensures WorkersCounted(Park(p, w))
  {
    assert Active(Park(p, w).workers) == Active(p.workers) - {w} && w in Active(p.workers);
  }

  lemma ParkServed(p: Pool, w: WorkerId)
    requires NotStranded(p) && w in p.workers && p.workers[w] == AtTop(false)
    requires (p.express == [] && p.regular == []) || (SetDoneQueued(p) && p.active > 1)
    ensures NotStranded(Park(p, w))
  {
    var p' := Park(p, w);
    if SetDoneQueued(p) {
      assert SetDoneQueued(p');
    } else if p.throttle {
      var v :| WillDrop(p, v);
      assert WillDrop(p', v);
    }
  }

  lemma ParkKeeps(p: Pool, w: WorkerId)
    requires Inv(p) && w in p.workers && p.workers[w] == AtTop(false)
    requires (p.express == [] && p.regular == []) || (SetDoneQueued(p) && p.active > 1)
    ensures Inv(Park(p, w))
  {
    ParkCounted(p, w);
    ParkServed(p, w);
    WorkerMoves(p, w, Park(p, w));
  }

  /** With a single active worker, at the top of its loop, nothing is being handled. */
  lemma AloneNothingBusy(p: Pool, w: WorkerId)
    requires WorkersCounted(p) && w in p.workers && p.workers[w].AtTop? && p.active <= 1
    ensures forall v :: v in p.workers ==> !p.workers[v].Busy?
  {
    forall v | v in p.workers
      ensures !p.workers[v].Busy?
    {
      if p.workers[v].Busy? {
        assert {v, w} <= Active(p.workers) && |{v, w}| == 2;
        SubsetSize({v, w}, Active(p.workers));
      }
    }
  }

  ghost predicate IsHead(p: Pool, id: ItemId) {
    if p.express != [] then p.express[0] == id else p.regular != [] && p.regular[0] == id
  }

  lemma TailInOrder(q: seq<ItemId>, kind: Queue, posted: seq<Posting>, place: seq<Place>, w: WorkerId)
    requires InOrder(q, kind, posted, place) && q != []
    ensures InOrder(q[1..], kind, posted, place[q[0] := With(w)])
    ensures forall id :: id in q[1..] <==> id in q && id != q[0]
  {
  }

  lemma HandPlaces(p: Pool, w: WorkerId, id: ItemId)
    requires QueuesOrdered(p) && OnePlace(p) && IsHead(p, id)
    requires w in p.workers && p.workers[w].AtTop?
    ensures QueuesOrdered(Hand(p, w, id)) && OnePlace(Hand(p, w, id))
  {
    if p.express != [] {
      TailInOrder(p.express, Express, p.posted, p.place, w);
    } else {
      TailInOrder(p.regular, Regular, p.posted, p.place, w);
    }
  }

  /** Why the barrier holds: when nothing is being handled and the express queue is empty,
      everything ahead of the regular queue's head is done, and every express item is. */
  lemma QuietMeansDone(p: Pool, id: ItemId, a: ItemId)
    requires QueuesOrdered(p) && OnePlace(p) && IsHead(p, id) && p.express == []
    requires forall v :: v in p.workers ==> !p.workers[v].Busy?
    requires a < |p.posted| && (a < id || p.posted[a].queue.Express?)
    ensures p.place[a].Done?
  {
  }

  lemma HandBarrier(p: Pool, w: WorkerId, id: ItemId)
    requires QueuesOrdered(p) && OnePlace(p) && WorkersCounted(p) && Barrier(p) && IsHead(p, id)
    requires w in p.workers && p.workers[w].AtTop?
    requires p.posted[id].fn.SetDone? ==> p.active <= 1
    ensures Barrier(Hand(p, w, id))
  {
    if p.posted[id].fn.SetDone? {
      AloneNothingBusy(p, w);
      forall a | 0 <= a < |p.posted| && (a < id || p.posted[a].queue.Express?)
        ensures p.place[a].Done?
      {
        QuietMeansDone(p, id, a);
      }
    }
  }

  lemma HandServed(p: Pool, w: WorkerId, id: ItemId)
    requires WorkersCounted(p) && QueuesOrdered(p) && NotStranded(p) && IsHead(p, id)
    requires w in p.workers && p.workers[w] == AtTop(false)
    ensures NotStranded(Hand(p, w, id))
  {
    var p' := Hand(p, w, id);
    assert p'.workers[w] == Busy(id);
    if p.throttle {
      if p.posted[id].fn.SetDone? {
        assert WillDrop(p', w);
      } else if SetDoneQueued(p) {
        var i :| 0 <= i < |p.regular| && p.regular[i] < |p.posted| && p.posted[p.regular[i]].fn.SetDone?;
        var j := i - |p.regular| + |p'.regular|;
        assert p'.regular[j] == p.regular[i];
      } else {
        var v :| WillDrop(p, v);
        assert WillDrop(p', v);
      }
    }
  }

  lemma HandKeeps(p: Pool, w: WorkerId, id: ItemId)
    requires Inv(p) && w in p.workers && p.workers[w] == AtTop(false)
    requires IsHead(p, id)
    requires p.posted[id].fn.SetDone? ==> p.active <= 1
    ensures Inv(Hand(p, w, id))
  {
    HandPlaces(p, w, id);
    HandBarrier(p, w, id);
    HandServed(p, w, id);
    assert Active(Hand(p, w, id).workers) == Active(p.workers);
  }

  /** The throttle may be dropped by a worker that owes it, and raised while a SetDone waits. */
  lemma ThrottleKeeps(p: Pool, w: WorkerId, q: Pool)
    requires Inv(p) && w in p.workers && p.workers[w].AtTop?
    requires q == p.(throttle := q.throttle, workers := p.workers[w := AtTop(false)])
    requires q.throttle ==> SetDoneQueued(p) || (p.throttle && !p.workers[w].drop)
    ensures Inv(q)
  {
    WorkerMoves(p, w, q);
    assert Active(q.workers) == Active(p.workers);
    if q.throttle {
      if SetDoneQueued(p) {
        assert SetDoneQueued(q);
      } else {
        var v :| WillDrop(p, v);
        assert WillDrop(q, v);
      }
    }
  }

  lemma StepAsideKeeps(p: Pool, w: WorkerId)
    requires Inv(p) && w in p.workers && p.workers[w] == AtTop(false)
    requires p.express == [] && p.regular != [] && p.posted[p.regular[0]].fn.SetDone? && p.active > 1
    ensures Inv(Park(p.(throttle := true), w))
  {
    var t := p.(throttle := true);
    assert SetDoneQueued(p) && SetDoneQueued(t);
    ThrottleKeeps(p, w, t);
    ParkKeeps(t, w);
  }

  lemma TakeKeeps(p: Pool, w: WorkerId)
    requires Inv(p) && w in p.workers && p.workers[w].AtTop?
    ensures Inv(Take(p, w))
  {
    var q := p.(throttle := p.throttle && !p.workers[w].drop, workers := p.workers[w := AtTop(false)]);
    ThrottleKeeps(p, w, q);
    if q.express == [] && q.regular == [] {
      ParkKeeps(q, w);
    } else {
      var id := if q.express != [] then q.express[0] else q.regular[0];
      if q.posted[id].fn.SetDone? && q.active > 1 {
        StepAsideKeeps(q, w);
      } else {
        HandKeeps(q, w, id);
      }
    }
  }

  lemma FinishPlaces(p: Pool, w: WorkerId)
    requires QueuesOrdered(p) && OnePlace(p) && Barrier(p) && w in p.workers && p.workers[w].Busy?
    ensures var p' := Finish(p, w); QueuesOrdered(p') && OnePlace(p') && Barrier(p')
  {
  }

  lemma FinishServed(p: Pool, w: WorkerId)
    requires OnePlace(p) && NotStranded(p) && w in p.workers && p.workers[w].Busy?
    ensures NotStranded(Finish(p, w))
  {
    var p' := Finish(p, w);
    if p.throttle {
      if SetDoneQueued(p) {
        assert SetDoneQueued(p');
      } else {
        var v :| WillDrop(p, v);
        assert WillDrop(p', v);
      }
    }
  }

  lemma FinishKeeps(p: Pool, w: WorkerId)
    requires Inv(p) && w in p.workers && p.workers[w].Busy?
    ensures Inv(Finish(p, w))
  {
    FinishPlaces(p, w);
    FinishServed(p, w);
    assert Active(Finish(p, w).workers) == Active(p.workers);
  }

  // ------------------------------------------------------------- consequences

  /** idle + active is the number of workers, and a pool with work can always move on: some
      worker has its next step enabled. */
  lemma PoolNeverStuck(p: Pool)
    requires Inv(p)
    ensures |p.idle| + p.active == |p.workers|
    ensures p.throttle || p.express != [] || p.regular != [] ==>
              exists w :: w in p.workers && (p.workers[w].AtTop? || p.workers[w].Busy?)
  {
    hide QueuesOrdered, OnePlace, Barrier;
    var idle := set w | w in p.idle;
    DistinctLength(p.idle, idle);
    assert idle + Active(p.workers) == p.workers.Keys && idle !! Active(p.workers);
    assert |idle + Active(p.workers)| == |idle| + |Active(p.workers)|;
    if p.throttle {
      ThrottledIsActive(p);
    }
    if p.active >= 1 {
      var w :| w in Active(p.workers);
      assert p.workers[w].AtTop? || p.workers[w].Busy?;
    }
  }

  /** Items only move forward: from the queue to one worker, and from that worker to done. */
  ghost predicate Advances(a: Place, b: Place) {
    a.Waiting? || a == b || (a.With? && b.Done?)
  }

  lemma StepsAdvance(p: Pool, w: WorkerId, id: ItemId)
    requires Inv(p) && w in p.workers && id < |p.place|
    ensures p.workers[w].AtTop? ==> |Take(p, w).place| == |p.place| && Advances(p.place[id], Take(p, w).place[id])
    ensures p.workers[w].Busy? ==> |Finish(p, w).place| == |p.place| && Advances(p.place[id], Finish(p, w).place[id])
  {
  }
}
