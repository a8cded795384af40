/** The ITS command ring: CPUs post commands under a spin lock, the ITS consumes them from the
    other end. Every access that another party can observe is a step of its own, so the ITS may
    advance between any two steps of a poster. */
module ItsRing {
  import opened Collections

  type Thread = nat

  const SLOT_SPINS: nat := 100000
  const DONE_SPINS: nat := 1000000

  /** How far a thread is in HalpGicItsPostCommand. `index` is the command's number in the
      posting order. */
  datatype Poster<C> =
    | Entering(cmd: C)                                          // before the spin lock
    | Sampling(cmd: C, spins: nat)                              // holds the lock, looks for a free slot
    | Filling(cmd: C)                                           // has seen a free slot
    | Publishing(cmd: C)                                        // slot written, CWRITER not yet
    | Polling(cmd: C, index: nat, target: nat, spins: nat)      // waits for CREADR to reach its target
    | Returned(cmd: C, ok: bool, index: nat)

  /** `read` and `write` are the ring indices behind CREADR and CWRITER. `posted` and
      `consumed` are the streams as published by the CPUs and as fetched by the ITS. */
  datatype Ring<C> = Ring(
    slots: seq<C>,
    write: nat,
    read: nat,
    lock: Option<Thread>,
    posters: map<Thread, Poster<C>>,
    posted: seq<C>,
    consumed: seq<C>)

  datatype Action<C> =
    | Call(thread: Thread, cmd: C)
    | Acquire(thread: Thread)
    | Sample(thread: Thread)
    | Fill(thread: Thread)
    | Publish(thread: Thread)
    | Poll(thread: Thread)
    | Leave(thread: Thread)
    | Consume

  /** An empty ring over whatever the queue memory holds. */
  ghost predicate Empty<C>(r: Ring<C>) {
    && r.write == r.read == 0 && r.lock.None? && r.posters == map[] && r.posted == [] && r.consumed == []
  }

  predicate Enabled<C>(r: Ring<C>, a: Action<C>) {
    match a
    case Call(t, _) => t !in r.posters
    case Acquire(t) => t in r.posters && r.posters[t].Entering? && r.lock.None?
    case Sample(t) => t in r.posters && r.posters[t].Sampling? && r.slots != []
    case Fill(t) => t in r.posters && r.posters[t].Filling? && r.write < |r.slots|
    case Publish(t) => t in r.posters && r.posters[t].Publishing? && r.slots != []
    case Poll(t) => t in r.posters && r.posters[t].Polling?
    case Leave(t) => t in r.posters && r.posters[t].Returned?
    case Consume => r.read != r.write && r.read < |r.slots|
  }

  function Do<C>(r: Ring<C>, a: Action<C>): (r': Ring<C>)
    requires Enabled(r, a)
  {
    match a
    case Call(t, cmd) =>
      r.(posters := r.posters[t := if r.slots == [] then Returned(cmd, false, 0) else Entering(cmd)])
    case Acquire(t) =>
      r.(lock := Some(t), posters := r.posters[t := Sampling(r.posters[t].cmd, SLOT_SPINS)])
    case Sample(t) =>
      var Sampling(cmd, spins) := r.posters[t];
      if (r.write + 1) % |r.slots| != r.read then r.(posters := r.posters[t := Filling(cmd)])
      else if spins <= 1 then r.(lock := None, posters := r.posters[t := Returned(cmd, false, 0)])
      else r.(posters := r.posters[t := Sampling(cmd, spins - 1)])
    case Fill(t) =>
      var cmd := r.posters[t].cmd;
      r.(slots := r.slots[r.write := cmd], posters := r.posters[t := Publishing(cmd)])
    case Publish(t) =>
      var cmd := r.posters[t].cmd;
      var next := (r.write + 1) % |r.slots|;
      r.(write := next, posted := r.posted + [cmd], lock := None,
         posters := r.posters[t := Polling(cmd, |r.posted|, next, DONE_SPINS)])
    case Poll(t) =>
      var Polling(cmd, index, target, spins) := r.posters[t];
      if r.read == target then r.(posters := r.posters[t := Returned(cmd, true, index)])
      else if spins <= 1 then r.(posters := r.posters[t := Returned(cmd, false, index)])
      else r.(posters := r.posters[t := Polling(cmd, index, target, spins - 1)])
    case Leave(t) => r.(posters := r.posters - {t})
    case Consume =>
      r.(consumed := r.consumed + [r.slots[r.read]], read := (r.read + 1) % |r.slots|)
  }

  // ------------------------------------------------------------- modular arithmetic

  lemma ModIs(a: nat, q: nat, m: nat, n: nat)
    requires m < n && a == n * q + m
    ensures a % n == m
  {
    var d := q - a / n;
    assert n * d == a % n - m;
    assert d >= 1 ==> n * d >= n;
    assert d <= -1 ==> n * d + n <= 0;
  }

  lemma ModSuccessor(a: nat, n: nat)
    requires n > 0
    ensures (a % n + 1) % n == (a + 1) % n
  {
    var q, m := a / n, a % n;
    if m + 1 < n {
      ModIs(m + 1, 0, m + 1, n);
      ModIs(a + 1, q, m + 1, n);
    } else {
      assert n * (q + 1) == n * q + n;
      ModIs(n, 1, 0, n);
      ModIs(a + 1, q + 1, 0, n);
    }
  }

  lemma ModPlus(x: nat, n: nat)
    requires n > 0
    ensures (x + n) % n == x % n
  {
    assert x + n == n * (x / n + 1) + x % n;
    ModIs(x + n, x / n + 1, x % n, n);
  }

  /** Two positions that share a slot are equal or at least a full turn apart. */
  lemma SameSlot(a: nat, b: nat, n: nat)
    requires n > 0 && a <= b && a % n == b % n
    ensures a == b || a + n <= b
  {
    var d := b / n - a / n;
    assert b - a == n * d;
    assert d >= 1 ==> n * d >= n;
    assert d <= 0 ==> n * d <= 0;
  }

  // ------------------------------------------------------------- the invariant

  ghost predicate HoldsLock<C>(p: Poster<C>) {
    p.Sampling? || p.Filling? || p.Publishing?
  }

  /** Indices count the streams modulo the ring size, the consumed commands are the first
      posted ones, and every outstanding command is still intact in its slot. */
  ghost predicate RingOk<C>(r: Ring<C>) {
    var n, c, p := |r.slots|, |r.consumed|, |r.posted|;
    if n == 0 then r.posted == [] && r.consumed == [] && r.read == r.write == 0
    else
      && r.read == c % n && r.write == p % n
      && c <= p < c + n
      && r.consumed == r.posted[..c]
      && (forall i :: c <= i < p ==> r.slots[i % n] == r.posted[i])
  }

  /** The lock holder is the one thread inside the locked section. */
  ghost predicate LockOk<C>(r: Ring<C>) {
    && (forall t :: t in r.posters && HoldsLock(r.posters[t]) ==> r.lock == Some(t))
    && (r.lock.Some? ==> r.lock.value in r.posters && HoldsLock(r.posters[r.lock.value]))
  }

  ghost predicate PosterOk<C>(r: Ring<C>, p: Poster<C>) {
    var n := |r.slots|;
    match p
    case Entering(_) => n > 0
    case Sampling(_, _) => n > 0
    case Filling(_) => n > 0 && |r.posted| + 1 < |r.consumed| + n
    case Publishing(cmd) => n > 0 && |r.posted| + 1 < |r.consumed| + n && r.slots[|r.posted| % n] == cmd
    case Polling(cmd, index, target, _) =>
      && n > 0 && index < |r.posted| && r.posted[index] == cmd
      && target == (index + 1) % n && index + 1 < |r.consumed| + n
    case Returned(cmd, ok, index) => ok ==> index < |r.consumed| <= |r.posted| && r.posted[index] == cmd
  }

  ghost predicate Inv<C>(r: Ring<C>) {
    RingOk(r) && LockOk(r) && forall t :: t in r.posters ==> PosterOk(r, r.posters[t])
  }

  // ------------------------------------------------------------- every step keeps it

  lemma EmptyInv<C>(r: Ring<C>)
    requires Empty(r)
    ensures Inv(r)
  {
  }

  /** The slot a poster fills belongs to no outstanding command. */
  lemma FillHitsFreeSlot<C>(r: Ring<C>, i: nat)
    requires RingOk(r) && r.slots != [] && |r.consumed| <= i < |r.posted|
    ensures i % |r.slots| != r.write
  {
    if i % |r.slots| == r.write {
      SameSlot(i, |r.posted|, |r.slots|);
    }
  }

  /** A sample that differs from the read index really means room for one more command. */
  lemma SampleSeesRoom<C>(r: Ring<C>)
    requires RingOk(r) && r.slots != [] && (r.write + 1) % |r.slots| != r.read
    ensures |r.posted| + 1 < |r.consumed| + |r.slots|
  {
    var n := |r.slots|;
    ModSuccessor(|r.posted|, n);
    if |r.posted| + 1 == |r.consumed| + n {
      ModPlus(|r.consumed|, n);
    }
  }

  /** CREADR at a poster's target means its own command has been consumed: the ring cannot
      have come round to that index with the command still outstanding. */
  lemma TargetMeansConsumed<C>(r: Ring<C>, index: nat)
    requires RingOk(r) && r.slots != [] && index < |r.posted| && index + 1 < |r.consumed| + |r.slots|
    requires r.read == (index + 1) % |r.slots|
    ensures index < |r.consumed| <= |r.posted|
  {
    if |r.consumed| <= index {
      SameSlot(|r.consumed|, index + 1, |r.slots|);
    }
  }

  /** The converse fails: a poll answers TRUE exactly when the number of consumed commands is
      the poster's own number modulo the ring size, so a poster can time out on a command that
      was consumed long ago while others kept the ring moving. */
  lemma PollAnswers<C>(r: Ring<C>, t: Thread)
    requires Inv(r) && t in r.posters && r.posters[t].Polling?
    ensures var p, r' := r.posters[t], Do(r, Poll(t));
            && (r'.posters[t].Returned? && r'.posters[t].ok <==>
                  |r.consumed| % |r.slots| == (p.index + 1) % |r.slots|)
            && (p.spins <= 1 && |r.consumed| == p.index + 2 && |r.slots| >= 2 ==>
                  r'.posters[t] == Returned(p.cmd, false, p.index) && p.index < |r.consumed|)
  {
    var p := r.posters[t];
    assert PosterOk(r, p);
    if |r.consumed| == p.index + 2 && |r.slots| >= 2 && |r.consumed| % |r.slots| == (p.index + 1) % |r.slots| {
      SameSlot(p.index + 1, p.index + 2, |r.slots|);
    }
  }

  lemma RingKeeps<C>(r: Ring<C>, a: Action<C>)
    requires Inv(r) && Enabled(r, a)
    ensures RingOk(Do(r, a))
  {
    var n, r' := |r.slots|, Do(r, a);
    match a
    case Fill(t) =>
      assert PosterOk(r, r.posters[t]);
      forall i | |r.consumed| <= i < |r.posted|
        ensures r'.slots[i % n] == r'.posted[i]
      {
        FillHitsFreeSlot(r, i);
      }
    case Publish(t) =>
      assert PosterOk(r, r.posters[t]);
      ModSuccessor(|r.posted|, n);
    case Consume =>
      ModSuccessor(|r.consumed|, n);
      assert |r.consumed| != |r.posted|;
      assert r'.consumed == r.posted[..|r.consumed| + 1];
    case _ =>
  }

  lemma LockKeeps<C>(r: Ring<C>, a: Action<C>)
    requires LockOk(r) && Enabled(r, a)
    ensures LockOk(Do(r, a))
  {
  }

  lemma PublishKeeps<C>(r: Ring<C>, t: Thread)
    requires RingOk(r) && Enabled(r, Publish(t)) && PosterOk(r, r.posters[t])
    ensures PosterOk(Do(r, Publish(t)), Do(r, Publish(t)).posters[t])
  {
    ModSuccessor(|r.posted|, |r.slots|);
  }

  lemma PollKeeps<C>(r: Ring<C>, t: Thread)
    requires RingOk(r) && Enabled(r, Poll(t)) && PosterOk(r, r.posters[t])
    ensures PosterOk(Do(r, Poll(t)), Do(r, Poll(t)).posters[t])
  {
    hide RingOk;
    if r.read == r.posters[t].target {
      TargetMeansConsumed(r, r.posters[t].index);
    }
  }

  lemma SampleKeeps<C>(r: Ring<C>, t: Thread)
    requires RingOk(r) && Enabled(r, Sample(t))
    ensures PosterOk(Do(r, Sample(t)), Do(r, Sample(t)).posters[t])
  {
    if (r.write + 1) % |r.slots| != r.read {
      SampleSeesRoom(r);
    }
  }

  lemma FillKeeps<C>(r: Ring<C>, t: Thread)
    requires RingOk(r) && Enabled(r, Fill(t)) && PosterOk(r, r.posters[t])
    ensures PosterOk(Do(r, Fill(t)), Do(r, Fill(t)).posters[t])
  {
  }

  /** What the acting thread's own state promises after its step. */
  lemma ActorKeeps<C>(r: Ring<C>, a: Action<C>)
    requires Inv(r) && Enabled(r, a) && !a.Consume? && !a.Leave?
    ensures PosterOk(Do(r, a), Do(r, a).posters[a.thread])
  {
    hide LockOk, RingOk;
    if a.Sample? || a.Fill? || a.Publish? || a.Poll? {
      hide Do, PosterOk;
      match a
      case Sample(t) => SampleKeeps(r, t);
      case Fill(t) => FillKeeps(r, t);
      case Publish(t) => PublishKeeps(r, t);
      case Poll(t) => PollKeeps(r, t);
    }
  }

  /** No thread, and not the ITS, disturbs what another thread's state promises. */
  lemma OthersKeep<C>(r: Ring<C>, a: Action<C>, t: Thread)
    requires Inv(r) && Enabled(r, a) && t in r.posters && (a.Consume? || a.thread != t)
    ensures t in Do(r, a).posters && PosterOk(Do(r, a), Do(r, a).posters[t])
  {
    assert PosterOk(r, r.posters[t]);
    if a.Fill? || a.Publish? {
      assert r.lock == Some(a.thread) && !HoldsLock(r.posters[t]);
    }
  }

  lemma StepKeeps<C>(r: Ring<C>, a: Action<C>)
    requires Inv(r) && Enabled(r, a)
    ensures Inv(Do(r, a))
  {
    RingKeeps(r, a);
    LockKeeps(r, a);
    var r' := Do(r, a);
    forall t | t in r'.posters
      ensures PosterOk(r', r'.posters[t])
    {
      if !a.Consume? && a.thread == t {
        ActorKeeps(r, a);
      } else {
        OthersKeep(r, a, t);
      }
    }
  }

  // ------------------------------------------------------------- every run

  /** Consecutive states, each the step of the one before. */
  ghost predicate Path<C>(states: seq<Ring<C>>, actions: seq<Action<C>>) {
    && |states| == |actions| + 1
    && forall i :: 0 <= i < |actions| ==> Enabled(states[i], actions[i]) && states[i + 1] == Do(states[i], actions[i])
  }

  ghost predicate IsRun<C>(states: seq<Ring<C>>, actions: seq<Action<C>>) {
    Path(states, actions) && Empty(states[0])
  }

  /** In every interleaving of posters and the ITS: the consumed commands are a prefix of the
      posted ones, no more than Entries - 1 are outstanding and each is intact in its slot, and
      a post that has returned TRUE has had its own command consumed. */
  lemma {:induction false} RunsAreSafe<C>(states: seq<Ring<C>>, actions: seq<Action<C>>, k: nat)
    requires IsRun(states, actions) && k < |states|
    ensures var r := states[k];
            && Inv(r)
            && r.consumed <= r.posted
            && (r.slots != [] ==> |r.posted| - |r.consumed| <= |r.slots| - 1)
            && (forall t :: t in r.posters && r.posters[t].Returned? && r.posters[t].ok ==>
                  r.posters[t].index < |r.consumed| && r.consumed[r.posters[t].index] == r.posters[t].cmd)
  {
    if k == 0 {
      EmptyInv(states[0]);
    } else {
      RunsAreSafe(states, actions, k - 1);
      StepKeeps(states[k - 1], actions[k - 1]);
    }
    var r := states[k];
    forall t | t in r.posters && r.posters[t].Returned? && r.posters[t].ok
      ensures r.posters[t].index < |r.consumed| && r.consumed[r.posters[t].index] == r.posters[t].cmd
    {
      assert PosterOk(r, r.posters[t]);
    }
  }

  // ------------------------------------------------------------- a post that is told it failed

  lemma Extend<C>(states: seq<Ring<C>>, actions: seq<Action<C>>, r: Ring<C>, a: Action<C>)
    returns (states': seq<Ring<C>>, actions': seq<Action<C>>, r': Ring<C>)
    requires Path(states, actions) && r == states[|actions|] && Enabled(r, a)
    ensures Path(states', actions') && r' == states'[|actions'|] == Do(r, a)
    ensures states'[0] == states[0] && (Inner(actions) && !a.Call? && !a.Leave? ==> Inner(actions'))
  {
    hide Enabled, Do;
    r' := Do(r, a);
    states', actions' := states + [r'], actions + [a];
  }

  /** No post begins or is left. */
  ghost predicate Inner<C>(actions: seq<Action<C>>) {
    forall a :: a in actions ==> !a.Call? && !a.Leave?
  }

  /** Nothing is outstanding and nobody is at work on the ring. */
  ghost predicate Idle<C>(r: Ring<C>) {
    |r.slots| >= 2 && r.read == r.write < |r.slots| && r.lock.None?
  }

  /** A thread's command is posted and consumed before the thread polls. */
  ghost predicate Posted<C>(r: Ring<C>, r': Ring<C>, t: Thread, cmd: C) {
    && Idle(r') && |r'.slots| == |r.slots| && |r.slots| > 0 && r'.read == (r.read + 1) % |r.slots|
    && |r'.consumed| == |r.consumed| + 1 && r'.posted == r.posted + [cmd]
    && r'.posters == r.posters[t := Polling(cmd, |r.posted|, r'.read, DONE_SPINS)]
  }

  lemma Works<C>(states: seq<Ring<C>>, actions: seq<Action<C>>, r: Ring<C>, t: Thread)
    returns (states': seq<Ring<C>>, actions': seq<Action<C>>, r': Ring<C>)
    requires Path(states, actions) && r == states[|actions|] && Idle(r) && t in r.posters && r.posters[t].Entering?
    ensures Path(states', actions') && r' == states'[|actions'|] && states'[0] == states[0] && (Inner(actions) ==> Inner(actions'))
    ensures Posted(r, r', t, r.posters[t].cmd)
  {
    hide Path, Inner;
    states', actions', r' := Extend(states, actions, r, Acquire(t));
    NextDiffers(r.write, |r.slots|);
    states', actions', r' := Extend(states', actions', r', Sample(t));
    states', actions', r' := Extend(states', actions', r', Fill(t));
    states', actions', r' := Extend(states', actions', r', Publish(t));
    states', actions', r' := Extend(states', actions', r', Consume);
  }

  /** A thread posts a command and the ITS consumes it before the thread polls. */
  lemma PostsAndConsumes<C>(states: seq<Ring<C>>, actions: seq<Action<C>>, r: Ring<C>, t: Thread, cmd: C)
    returns (states': seq<Ring<C>>, actions': seq<Action<C>>, r': Ring<C>)
    requires Path(states, actions) && r == states[|actions|] && Idle(r) && t !in r.posters
    ensures Path(states', actions') && r' == states'[|actions'|] && states'[0] == states[0] && Posted(r, r', t, cmd)
  {
    hide Path, Inner;
    states', actions', r' := Extend(states, actions, r, Call(t, cmd));
    states', actions', r' := Works(states', actions', r', t);
  }

  lemma NextDiffers(i: nat, n: nat)
    requires i < n && n >= 2
    ensures (i + 1) % n != i
  {
    if i + 1 == n {
      ModIs(n, 1, 0, n);
    } else {
      ModIs(i + 1, 0, i + 1, n);
    }
  }

  /** A thread polls, the ITS being past its target, until it gives up. */
  lemma {:induction false} PollsInVain<C>(states: seq<Ring<C>>, actions: seq<Action<C>>, r: Ring<C>, t: Thread)
    returns (states': seq<Ring<C>>, actions': seq<Action<C>>, r': Ring<C>)
    requires Path(states, actions) && r == states[|actions|]
    requires t in r.posters && r.posters[t].Polling? && r.posters[t].spins >= 1 && r.read != r.posters[t].target
    ensures Path(states', actions') && r' == states'[|actions'|] && states'[0] == states[0] && (Inner(actions) ==> Inner(actions'))
    ensures r'.consumed == r.consumed && r'.posted == r.posted
    ensures r'.posters == r.posters[t := Returned(r.posters[t].cmd, false, r.posters[t].index)]
    decreases r.posters[t].spins
  {
    hide Path, Inner;
    states', actions', r' := Extend(states, actions, r, Poll(t));
    if r.posters[t].spins > 1 {
      states', actions', r' := PollsInVain(states', actions', r', t);
    }
  }

  /** On every ring with two or more entries there is a run in which a post returns FALSE although
      its command was consumed: a second command was consumed before the first poll. */
  lemma ConsumedButTimedOut<C>(slots: seq<C>, cmd: C)
    returns (states: seq<Ring<C>>, actions: seq<Action<C>>, r: Ring<C>)
    requires |slots| >= 2
    ensures IsRun(states, actions) && r == states[|actions|]
    ensures 0 in r.posters && r.posters[0] == Returned(cmd, false, 0) && |r.consumed| == 2 && r.consumed[0] == cmd
  {
    r := Ring(slots, 0, 0, None, map[], [], []);
    states, actions := [r], [];
    states, actions, r := PostsAndConsumes(states, actions, r, 0, cmd);
    states, actions, r := PostsAndConsumes(states, actions, r, 1, cmd);
    NextDiffers(r.posters[0].target, |slots|);
    states, actions, r := PollsInVain(states, actions, r, 0);
    RunsAreSafe(states, actions, |actions|);
  }
}
