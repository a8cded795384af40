/** The work queues as the kernel keeps them: two queues and the list of idle threads, linked in
    place, and two counters, changed inside the sections that hold the work queue lock. Each such
    section is the step of WorkerPool of the same name, and keeps its invariant. */
module WorkQueues {
  import opened Collections
  import opened IntrusiveList
  import opened WorkerPool
  import opened LazyWriter

  /** What an entry is embedded in: a work queue entry or a thread's own item. */
  datatype Link = Item(id: nat, fn: Function) | Thread(id: nat)

  ghost function Ids(nodes: seq<Entry<Link>>): (ids: seq<nat>)
    ensures |ids| == |nodes| && forall i :: 0 <= i < |ids| ==> ids[i] == nodes[i].value.id
  {
    seq(|nodes|, i requires 0 <= i < |nodes| => nodes[i].value.id)
  }

  lemma IdsChange(nodes: seq<Entry<Link>>, x: Entry<Link>)
    ensures Ids(nodes + [x]) == Ids(nodes) + [x.value.id]
    ensures nodes != [] ==> Ids(nodes[1..]) == Ids(nodes)[1..]
  {
  }

  lemma NoIds()
    ensures Ids([]) == []
  {
  }

  /** The entry is the item as posted. */
  ghost predicate OfItem(x: Entry<Link>, posted: seq<Posting>) {
    x.value.Item? && x.value.id < |posted| && posted[x.value.id].fn == x.value.fn
  }

  ghost predicate Described(nodes: seq<Entry<Link>>, posted: seq<Posting>) {
    forall x :: x in nodes ==> OfItem(x, posted)
  }

  ghost predicate AllThreads(nodes: seq<Entry<Link>>) {
    forall x :: x in nodes ==> x.value.Thread?
  }

  /** The threads, all idle. */
  method Parked(threads: seq<WorkerId>) returns (list: List<Link>)
    ensures fresh(list) && list.Valid() && fresh(list.repr) && Ids(list.nodes) == threads && AllThreads(list.nodes)
  {
    list := new List(Thread(0));
    for i := 0 to |threads|
      invariant fresh(list) && list.Valid() && fresh(list.repr) && Ids(list.nodes) == threads[..i] && AllThreads(list.nodes)
    {
      var x := new Entry(Thread(threads[i]));
      IdsChange(list.nodes, x);
      list.InsertTail(x);
    }
  }

  method NewLists(threads: seq<WorkerId>) returns (express: List<Link>, regular: List<Link>, idle: List<Link>)
    ensures fresh({express, regular, idle}) && fresh(express.repr + regular.repr + idle.repr)
    ensures express != regular && express != idle && regular != idle && express.Valid() && regular.Valid() && idle.Valid()
    ensures express.repr !! regular.repr && express.repr !! idle.repr && regular.repr !! idle.repr
    ensures express.nodes == [] && regular.nodes == [] && Ids(idle.nodes) == threads && AllThreads(idle.nodes)
  {
    express := new List(Thread(0));
    regular := new List(Thread(0));
    idle := Parked(threads);
  }

  /** Post, when the lists are those of the entries. */
  lemma PostIs(p: Pool, e: seq<Entry<Link>>, r: seq<Entry<Link>>, i: seq<Entry<Link>>, x: Entry<Link>, fn: Function, queue: Queue)
    requires p.express == Ids(e) && p.regular == Ids(r) && p.idle == Ids(i) && x.value.id == |p.posted|
    ensures var spawns := !p.throttle && i != [];
            Post(p, fn, queue) == Pool(
              Ids(if queue.Express? then e + [x] else e), Ids(if queue.Express? then r else r + [x]), Ids(if spawns then i[1..] else i),
              p.active + (if spawns then 1 else 0), p.throttle,
              if spawns then p.workers[i[0].value.id := AtTop(false)] else p.workers,
              p.posted + [Posting(fn, queue)], p.place + [Waiting], p.mark)
  {
    IdsChange(e, x);
    IdsChange(r, x);
    IdsChange(i, x);
  }

  /** What a thread looks at. */
  function Next(e: seq<Entry<Link>>, r: seq<Entry<Link>>): (x: Option<Entry<Link>>) {
    if e != [] then Some(e[0]) else if r != [] then Some(r[0]) else None
  }

  /** It leaves the loop: there is nothing, or a SetDone and it is not the only one. */
  predicate StepsAside(x: Option<Entry<Link>>, active: int) {
    x.None? || (x.value.value.Item? && x.value.value.fn.SetDone? && active > 1)
  }

  /** Take, likewise. */
  lemma TakeIs(p: Pool, e: seq<Entry<Link>>, r: seq<Entry<Link>>, i: seq<Entry<Link>>, t: Entry<Link>, drop: bool)
    requires p.express == Ids(e) && p.regular == Ids(r) && p.idle == Ids(i) && Described(e, p.posted) && Described(r, p.posted)
    requires QueuesOrdered(p) && t.value.id in p.workers && p.workers[t.value.id] == AtTop(drop)
    ensures var x, w, throttle := Next(e, r), t.value.id, p.throttle && !drop;
            && (Next(e, r).Some? ==> OfItem(Next(e, r).value, p.posted))
            && (if StepsAside(x, p.active) then
                  Take(p, w) == p.(idle := Ids(i + [t]), active := p.active - 1, throttle := throttle || x.Some?,
                                   workers := p.workers[w := Idle])
                else
                  var q := Take(p, w);
                  && q == p.(express := Ids(if e != [] then e[1..] else e), regular := Ids(if e != [] then r else r[1..]),
                             throttle := throttle, workers := q.workers, place := q.place, mark := q.mark)
                  && q.workers == p.workers[w := Busy(x.value.value.id)])
  {
    IdsChange(e, t);
    IdsChange(r, t);
    IdsChange(i, t);
    assert e != [] ==> e[0] in e;
    assert r != [] ==> r[0] in r;
    assert p.workers[t.value.id := AtTop(false)][t.value.id := Idle] == p.workers[t.value.id := Idle];
    NextDescribed(e, r, p.posted);
  }

  lemma DescribedMore(nodes: seq<Entry<Link>>, posted: seq<Posting>, x: Entry<Link>, y: Posting)
    requires Described(nodes, posted)
    ensures Described(nodes, posted + [y])
    ensures x.value.Item? && x.value.id == |posted| && y.fn == x.value.fn ==> Described(nodes + [x], posted + [y])
  {
  }

  /** Where the threads are, and the history of the pool. */
  datatype Past = Past(workers: map<WorkerId, Worker>, posted: seq<Posting>, place: seq<Place>, mark: map<ItemId, nat>)

  class Queues {
    const express: List<Link>       // CcExpressWorkQueue
    const regular: List<Link>       // CcRegularWorkQueue
    const idle: List<Link>          // CcIdleWorkerThreadList
    var active: int                 // CcNumberActiveWorkerThreads
    var throttle: bool              // CcQueueThrottle
    ghost var past: Past

    ghost predicate Linked()
      reads express, regular, idle, express.repr, regular.repr, idle.repr
    {
      && express != regular && express != idle && regular != idle
      && express.Valid() && regular.Valid() && idle.Valid()
      && express.repr !! regular.repr && express.repr !! idle.repr && regular.repr !! idle.repr
    }

    ghost function Snapshot(): (p: Pool)
      reads this, express, regular, idle
    {
      Pool(Ids(express.nodes), Ids(regular.nodes), Ids(idle.nodes), active, throttle, past.workers, past.posted, past.place, past.mark)
    }

    ghost predicate Valid()
      reads this, express, regular, idle, express.repr, regular.repr, idle.repr
    {
      && Linked() && Inv(Snapshot())
      && Described(express.nodes, past.posted) && Described(regular.nodes, past.posted) && AllThreads(idle.nodes)
    }

    /** The entry is not, and was never, on one of the queues. */
    ghost predicate Foreign(x: Entry<Link>)
      reads express, regular
    {
      x !in express.repr && x !in regular.repr
    }

    constructor (threads: seq<WorkerId>)
      requires threads != [] && Distinct(threads)
      ensures Valid() && Snapshot() == Initial(threads)
      ensures fresh({express, regular, idle}) && fresh(express.repr + regular.repr + idle.repr)
    {
      hide Inv, Ids;
      InitialInv(threads);
      NoIds();
      var first, second, third := NewLists(threads);
      express, regular, idle := first, second, third;
      active, throttle := 0, false;
      past := Past(map w | w in threads :: Idle, [], [], map[]);
    }

    /** Appends an entry to one of the queues. */
    method Append(x: Entry<Link>, queue: Queue)
      requires Linked() && Foreign(x) && x !in idle.repr
      modifies express, regular, express.repr, regular.repr, x
      ensures Linked() && express.repr <= old(express.repr) + {x} && regular.repr <= old(regular.repr) + {x}
      ensures express.nodes == if queue.Express? then old(express.nodes) + [x] else old(express.nodes)
      ensures regular.nodes == if queue.Express? then old(regular.nodes) else old(regular.nodes) + [x]
    {
      if queue.Express? {
        express.InsertTail(x);
      } else {
        regular.InsertTail(x);
      }
    }

    method TakeIdle() returns (x: Entry<Link>)
      requires Linked() && idle.nodes != []
      modifies idle, idle.repr
      ensures Linked() && idle.repr == old(idle.repr)
      ensures x == old(idle.nodes)[0] && idle.nodes == old(idle.nodes)[1..]
    {
      x := idle.RemoveHead();
    }

    /** The lists' part of posting: a thread is taken off the idle list if that is allowed. */
    method LinkItem(x: Entry<Link>, queue: Queue, mayWake: bool) returns (spawned: Option<Entry<Link>>)
      requires Linked() && Foreign(x) && x !in idle.repr
      modifies express, regular, idle, express.repr, regular.repr, idle.repr, x
      ensures Linked()
      ensures express.nodes == if queue.Express? then old(express.nodes) + [x] else old(express.nodes)
      ensures regular.nodes == if queue.Express? then old(regular.nodes) else old(regular.nodes) + [x]
      ensures spawned == if mayWake && old(idle.nodes) != [] then Some(old(idle.nodes)[0]) else None
      ensures idle.nodes == if spawned.Some? then old(idle.nodes)[1..] else old(idle.nodes)
    {
      hide Linked;
      Append(x, queue);
      var anyIdle := AnyIdle();
      spawned := None;
      if mayWake && anyIdle {
        var t := TakeIdle();
        spawned := Some(t);
      }
    }

    /** CcPostWorkQueue. `spawned` is the thread handed to ExQueueWorkItem, if any. */
    method PostWorkQueue(x: Entry<Link>, queue: Queue) returns (spawned: Option<Entry<Link>>)
      requires Valid() && Foreign(x) && x !in idle.repr && x.value.Item? && x.value.id == |past.posted|
      requires x.value.fn.SetDone? ==> queue.Regular?
      modifies this, express, regular, idle, express.repr, regular.repr, idle.repr, x
      ensures Valid() && Snapshot() == Post(old(Snapshot()), x.value.fn, queue)
      ensures spawned.Some? <==> !old(throttle) && old(idle.nodes) != []
      ensures spawned.Some? ==> spawned.value == old(idle.nodes)[0] && spawned.value !in idle.nodes
    {
      hide Inv, Linked, Post, Ids, Described;
      ghost var p, y := Snapshot(), Posting(x.value.fn, queue);
      PostKeeps(p, x.value.fn, queue);
      PostIs(p, express.nodes, regular.nodes, idle.nodes, x, x.value.fn, queue);
      DescribedMore(express.nodes, p.posted, x, y);
      DescribedMore(regular.nodes, p.posted, x, y);
      NotTwice(this);
      spawned := LinkItem(x, queue, !throttle);
      past := Past(if spawned.Some? then p.workers[spawned.value.value.id := AtTop(false)] else p.workers,
                   p.posted + [y], p.place + [Waiting], p.mark);
      active := active + if spawned.Some? then 1 else 0;
    }

    method AnyIdle() returns (b: bool)
      requires Linked()
      ensures b <==> idle.nodes != []
    {
      var e := idle.First();
      b := e != idle.head;
    }

    /** The entry a thread looks at: the first of the express queue, else of the regular one. */
    method Look() returns (x: Option<Entry<Link>>, fromExpress: bool)
      requires Linked()
      ensures fromExpress <==> express.nodes != []
      ensures x == Next(express.nodes, regular.nodes)
    {
      var e := express.First();
      fromExpress := e != express.head;
      if fromExpress {
        return Some(e), true;
      }
      e := regular.First();
      x := if e == regular.head then None else Some(e);
    }

    /** Takes that entry off its queue. */
    method Remove(x: Entry<Link>, fromExpress: bool)
      requires Linked() && Next(express.nodes, regular.nodes) == Some(x) && (fromExpress <==> express.nodes != [])
      modifies express, regular, express.repr, regular.repr
      ensures Linked() && express.repr == old(express.repr) && regular.repr == old(regular.repr)
      ensures express.nodes == if fromExpress then old(express.nodes)[1..] else old(express.nodes)
      ensures regular.nodes == if fromExpress then old(regular.nodes) else old(regular.nodes)[1..]
    {
      if fromExpress {
        express.Remove(x, 0);
      } else {
        regular.Remove(x, 0);
      }
    }

    method GoIdle(t: Entry<Link>)
      requires Linked() && Foreign(t) && t !in idle.nodes && t != idle.head
      modifies idle, idle.repr, t
      ensures Linked() && idle.nodes == old(idle.nodes) + [t]
    {
      idle.InsertTail(t);
    }

    /** The lists' part of the locked section: the next entry, or the thread goes idle. */
    method Pick(t: Entry<Link>, running: int) returns (work: Option<Entry<Link>>, throttled: bool)
      requires Linked() && Foreign(t) && t !in idle.nodes && t != idle.head
      requires forall x :: x in express.nodes || x in regular.nodes ==> x.value.Item?
      modifies express, regular, idle, express.repr, regular.repr, idle.repr, t
      ensures Linked()
      ensures var x, aside := Next(old(express.nodes), old(regular.nodes)), StepsAside(Next(old(express.nodes), old(regular.nodes)), running);
              && (work.None? <==> aside) && (work.Some? ==> work == x) && (throttled <==> aside && x.Some?)
              && idle.nodes == (if aside then old(idle.nodes) + [t] else old(idle.nodes))
              && express.nodes == (if !aside && old(express.nodes) != [] then old(express.nodes)[1..] else old(express.nodes))
              && regular.nodes == (if !aside && old(express.nodes) == [] then old(regular.nodes)[1..] else old(regular.nodes))
    {
      hide Linked;
      var fromExpress;
      work, fromExpress := Look();
      throttled := work.Some? && work.value.value.fn.SetDone? && running > 1;
      if throttled || work.None? {
        work := None;
        GoIdle(t);
      } else {
        Remove(work.value, fromExpress);
      }
    }

    /** The locked section of CcWorkerThread's loop, for the thread whose item is `t`. `work` is the
        entry to handle; without one the thread is back on the idle list. */
    method NextItem(t: Entry<Link>, drop: bool) returns (work: Option<Entry<Link>>)
      requires Valid() && t.value.Thread? && Foreign(t) && t != idle.head
      requires t.value.id in past.workers && past.workers[t.value.id] == AtTop(drop)
      modifies this, express, regular, idle, express.repr, regular.repr, idle.repr, t
      ensures old(QueuesOrdered(Snapshot())) && Valid() && Snapshot() == Take(old(Snapshot()), t.value.id)
      ensures t.value.id in past.workers
      ensures work.Some? ==> OfItem(work.value, past.posted) && past.workers[t.value.id] == Busy(work.value.value.id)
      ensures work.None? ==> past.workers[t.value.id] == Idle && idle.nodes == old(idle.nodes) + [t]
    {
      hide Inv, Linked, Take, Ids, Described, OfItem, QueuesOrdered;
      ghost var p, w := Snapshot(), t.value.id;
      InvOrders(p);
      TakeKeeps(p, w);
      TakeIs(p, express.nodes, regular.nodes, idle.nodes, t, drop);
      NextDescribed(express.nodes, regular.nodes, p.posted);
      NotIdle(this, t);
      var throttled;
      work, throttled := Pick(t, active);
      ghost var q := Take(p, w);
      past := Past(q.workers, q.posted, q.place, q.mark);
      throttle := (throttle && !drop) || throttled;
      active := active - if work.None? then 1 else 0;
    }

    /** The handler of the item in hand returns; only after a SetDone does the thread drop the
        throttle the next time it takes the lock. */
    method ItemHandled(work: Entry<Link>, ghost w: WorkerId) returns (drop: bool)
      requires Valid() && OfItem(work, past.posted) && w in past.workers && past.workers[w] == Busy(work.value.id)
      modifies this
      ensures old(|past.posted| == |past.place|) && Valid() && Snapshot() == Finish(old(Snapshot()), w)
      ensures w in past.workers && past.workers[w] == AtTop(drop)
    {
      hide Inv, Linked;
      InvOrders(Snapshot());
      FinishKeeps(Snapshot(), w);
      drop := work.value.fn.SetDone?;
      past := past.(place := past.place[work.value.id := Done], workers := past.workers[w := AtTop(drop)]);
    }
  }

  lemma NextDescribed(e: seq<Entry<Link>>, r: seq<Entry<Link>>, posted: seq<Posting>)
    requires Described(e, posted) && Described(r, posted)
    ensures Next(e, r).Some? ==> OfItem(Next(e, r).value, posted)
    ensures forall x :: x in e || x in r ==> x.value.Item?
    ensures e != [] ==> Described(e[1..], posted)
    ensures r != [] ==> Described(r[1..], posted)
  {
  }

  lemma InvOrders(p: Pool)
    requires Inv(p)
    ensures QueuesOrdered(p) && WorkersCounted(p) && |p.posted| == |p.place|
  {
  }

  /** The idle list has no thread twice. */
  lemma NotTwice(q: Queues)
    requires q.Valid()
    ensures q.idle.nodes != [] ==> q.idle.nodes[0] !in q.idle.nodes[1..]
  {
    assert q.Linked() && q.idle.Valid();
    forall i | 1 <= i < |q.idle.nodes|
      ensures q.idle.nodes[0] != q.idle.nodes[i]
    {
    }
  }

  /** A thread that is at work is not on the idle list. */
  lemma NotIdle(q: Queues, t: Entry<Link>)
    requires q.Valid() && t.value.id in q.past.workers && !q.past.workers[t.value.id].Idle?
    ensures t !in q.idle.nodes
  {
    InvOrders(q.Snapshot());
    forall i | 0 <= i < |q.idle.nodes|
      ensures q.idle.nodes[i] != t
    {
      assert q.Snapshot().idle[i] == q.idle.nodes[i].value.id;
    }
  }
}
