/** What becomes of a device whose MAPD reported a time-out: it is given up for good, also if the
    command was consumed. */
module ItsFailure {
  import opened Collections
  import opened ItsRing
  import opened ItsMapping

  // ------------------------------------------------------------- a failed device stays failed

  /** The device of a requester has been given up. */
  ghost predicate GivenUp(h: Hal, dev: DeviceId, requester: nat) {
    dev < |h.devices| && h.devices[dev].requester == requester && h.devices[dev].state == -1
  }

  lemma AnswerStaysGivenUp(h: Hal, t: Thread, dev: DeviceId, requester: nat)
    requires MInv(h) && Possible(h, Answer(t)) && GivenUp(h, dev, requester)
    ensures GivenUp(Next(h, Answer(t)), dev, requester)
  {
    hide StreamsOk, TableOk, DeviceOk;
    assert CallerOk(h, t);
  }

  lemma StaysGivenUp(h: Hal, e: Event, dev: DeviceId, requester: nat)
    requires MInv(h) && Possible(h, e) && GivenUp(h, dev, requester)
    ensures GivenUp(Next(h, e), dev, requester)
  {
    hide StreamsOk, TableOk, DeviceOk, Do, FindIn;
    match e
    case Answer(t) => AnswerStaysGivenUp(h, t, dev, requester);
    case Allocate(t, _) => assert CallerOk(h, t);
    case _ =>
  }

  /** Past the point where the device's state is looked at. */
  predicate Beyond(p: Place) {
    p.SendMapti? || p.SendSync? || p.Succeeded?
  }

  /** A caller gets there only by way of its MAPTI. */
  lemma BeyondByMapti(h: Hal, e: Event, t: Thread)
    requires Possible(h, e) && t in Next(h, e).callers && Beyond(Next(h, e).callers[t].at)
    requires t in h.callers ==> !Beyond(h.callers[t].at)
    ensures t in h.callers && Next(h, e).callers[t].req == h.callers[t].req && Next(h, e).callers[t].at.SendMapti?
  {
    hide Do, FindIn, Settle;
    if e.Answer? {
      SettleKeepsCallers(LeaveRing(h, e.thread), h.callers[e.thread], h.ring.posters[e.thread].ok);
    }
  }

  lemma SettleKeepsCallers(g: Hal, c: Caller, ok: bool)
    requires c.at.SendMapd? ==> c.at.dev < |g.devices|
    ensures Settle(g, c, ok).callers == g.callers && Settle(g, c, ok).ring == g.ring && Settle(g, c, ok).gicr == g.gicr
  {
  }

  /** And sends that only for a device that is mapped. */
  lemma NotBeyond(h: Hal, dev: DeviceId, requester: nat, t: Thread)
    requires MInv(h) && GivenUp(h, dev, requester) && t in h.callers && h.callers[t].req.requester == requester
    ensures !h.callers[t].at.SendMapti?
  {
    hide StreamsOk, DeviceOk;
    assert CallerOk(h, t);
  }

  /** In every run, once a device has been given up, no caller for its requester succeeds that had
      not got past the test of its state by then. */
  lemma {:induction false} GivenUpForGood(states: seq<Hal>, events: seq<Event>, n: nat, m: nat, dev: DeviceId, requester: nat, t: Thread)
    requires IsMappingRun(states, events) && n <= m < |states| && GivenUp(states[n], dev, requester)
    requires t in states[n].callers ==> !Beyond(states[n].callers[t].at)
    ensures GivenUp(states[m], dev, requester)
    ensures t in states[m].callers && states[m].callers[t].req.requester == requester ==> !Beyond(states[m].callers[t].at)
    decreases m - n
  {
    hide MInv, Possible, Next, Fresh, GivenUp, Beyond;
    if n < m {
      var h, e := states[m - 1], events[m - 1];
      GivenUpForGood(states, events, n, m - 1, dev, requester, t);
      MappingRunInv(states, events, m - 1);
      MappingRunInv(states, events, m);
      StaysGivenUp(h, e, dev, requester);
      StillNotBeyond(h, e, dev, requester, t);
    }
  }

  lemma StillNotBeyond(h: Hal, e: Event, dev: DeviceId, requester: nat, t: Thread)
    requires MInv(h) && Possible(h, e) && MInv(Next(h, e)) && GivenUp(Next(h, e), dev, requester)
    requires t in h.callers && h.callers[t].req.requester == requester ==> !Beyond(h.callers[t].at)
    ensures t in Next(h, e).callers && Next(h, e).callers[t].req.requester == requester ==> !Beyond(Next(h, e).callers[t].at)
  {
    hide MInv, GivenUp, Next;
    if t in h.callers {
      SameRequest(h, e, t);
    }
    if t in Next(h, e).callers && Next(h, e).callers[t].req.requester == requester && Beyond(Next(h, e).callers[t].at) {
      BeyondByMapti(h, e, t);
      NotBeyond(Next(h, e), dev, requester, t);
    }
  }

  /** A caller's request does not change. */
  lemma SameRequest(h: Hal, e: Event, t: Thread)
    requires Possible(h, e) && t in h.callers
    ensures t in Next(h, e).callers && Next(h, e).callers[t].req == h.callers[t].req
  {
    hide Do, FindIn;
  }

  // ------------------------------------------------------------- exactly why

  /** The table for the requester's device cannot be allocated, or the post of its MAPD answers FALSE. */
  predicate GivesUp(h: Hal, e: Event, requester: nat)
    requires Possible(h, e)
  {
    match e
    case Allocate(t, ittOk) => !ittOk && h.callers[t].req.requester == requester
    case Answer(t) => h.callers[t].at.SendMapd? && !h.ring.posters[t].ok && h.callers[t].req.requester == requester
    case _ => false
  }

  lemma GivesUpItsDevice(h: Hal, e: Event, requester: nat) returns (dev: DeviceId)
    requires MInv(h) && Possible(h, e) && GivesUp(h, e, requester)
    ensures GivenUp(Next(h, e), dev, requester)
  {
    hide StreamsOk, TableOk, DeviceOk, Do, FindIn;
    dev := h.callers[e.thread].at.dev;
    assert CallerOk(h, e.thread);
  }

  lemma GivenUpByAnswer(h: Hal, t: Thread, dev: DeviceId, requester: nat)
    requires MInv(h) && Possible(h, Answer(t)) && GivenUp(Next(h, Answer(t)), dev, requester) && !GivenUp(h, dev, requester)
    ensures GivesUp(h, Answer(t), requester)
  {
    hide StreamsOk, TableOk, DeviceOk, Do;
    assert CallerOk(h, t);
  }

  lemma GivenUpBy(h: Hal, e: Event, dev: DeviceId, requester: nat)
    requires MInv(h) && Possible(h, e) && GivenUp(Next(h, e), dev, requester) && !GivenUp(h, dev, requester)
    ensures GivesUp(h, e, requester)
  {
    hide StreamsOk, TableOk, DeviceOk, Do, FindIn;
    match e
    case Answer(t) => GivenUpByAnswer(h, t, dev, requester);
    case Allocate(t, _) => assert CallerOk(h, t);
    case _ =>
  }

  /** The `i`-th step of the run gives the requester's device up. */
  ghost predicate GaveUpAt(states: seq<Hal>, events: seq<Event>, i: nat, requester: nat)
    requires IsMappingRun(states, events) && i < |events|
  {
    GivesUp(states[i], events[i], requester)
  }

  /** In every run a requester has a device at -1 exactly if its table could not be allocated or the
      post of its MAPD answered FALSE. */
  lemma {:induction false} GivenUpExactly(states: seq<Hal>, events: seq<Event>, n: nat, requester: nat)
    requires IsMappingRun(states, events) && n < |states|
    ensures (exists dev :: GivenUp(states[n], dev, requester)) <==> exists i: nat :: i < n && GaveUpAt(states, events, i, requester)
  {
    hide MInv, Possible, Next, GivenUp, GivesUp;
    if n == 0 {
      NoneAtFirst(states[0], requester);
    } else {
      var h, e := states[n - 1], events[n - 1];
      GivenUpExactly(states, events, n - 1, requester);
      MappingRunInv(states, events, n - 1);
      if dev :| GivenUp(states[n], dev, requester) {
        if GivenUp(h, dev, requester) {
          var i: nat :| i < n - 1 && GaveUpAt(states, events, i, requester);
          assert i < n && GaveUpAt(states, events, i, requester);
        } else {
          GivenUpBy(h, e, dev, requester);
          assert GaveUpAt(states, events, n - 1, requester);
        }
      }
      if i: nat :| i < n && GaveUpAt(states, events, i, requester) {
        if i == n - 1 {
          var dev := GivesUpItsDevice(h, e, requester);
          assert GivenUp(states[n], dev, requester);
        } else {
          var dev :| GivenUp(h, dev, requester);
          StaysGivenUp(h, e, dev, requester);
          assert GivenUp(states[n], dev, requester);
        }
      }
    }
  }

  lemma NoneAtFirst(h: Hal, requester: nat)
    requires Fresh(h)
    ensures forall dev :: !GivenUp(h, dev, requester)
  {
  }

  // ------------------------------------------------------------- a run that gives up a mapped device

  lemma Extended(states: seq<Hal>, events: seq<Event>, h: Hal, e: Event) returns (states': seq<Hal>, events': seq<Event>, h': Hal)
    requires IsMappingRun(states, events) && h == states[|events|] && Possible(h, e)
    ensures IsMappingRun(states', events') && h' == states'[|events'|] == Next(h, e)
  {
    hide Possible, Next, Fresh;
    h' := Next(h, e);
    states', events' := states + [h'], events + [e];
  }

  /** A run goes on with what the ring does. */
  lemma {:induction false} Lifted(states: seq<Hal>, events: seq<Event>, h: Hal, rings: seq<Ring<Command>>, actions: seq<Action<Command>>)
    returns (states': seq<Hal>, events': seq<Event>, h': Hal)
    requires IsMappingRun(states, events) && h == states[|events|] && Path(rings, actions) && rings[0] == h.ring && Inner(actions)
    ensures IsMappingRun(states', events') && h' == states'[|events'|] == h.(ring := rings[|actions|])
    decreases |actions|
  {
    hide IsMappingRun, Do, Enabled;
    if actions == [] {
      states', events', h' := states, events, h;
    } else {
      var n := |actions| - 1;
      states', events', h' := Lifted(states, events, h, rings[..n + 1], actions[..n]);
      assert actions[n] in actions;
      states', events', h' := Extended(states', events', h', RingMoves(actions[n]));
    }
  }

  /** The run has come to a state in which thread 0 is at a place, with so many collections mapped. */
  ghost predicate Scene(states: seq<Hal>, events: seq<Event>, h: Hal, at: Place, mapped: set<nat>) {
    && IsMappingRun(states, events) && h == states[|events|] && Idle(h.ring) && |h.ring.posted| == |h.ring.consumed|
    && h.callers == map[0 := Caller(Request(0, 0, 0), at)] && h.mapped == mapped
    && h.gicr == [1, 1] && h.tableEntries == 1 && |h.buckets| == 1
    && (if Sending(at) then h.ring.posters == map[0 := Entering(CommandAt(Request(0, 0, 0), at))] else h.ring.posters == map[])
  }

  lemma AtMapc(slots: seq<Command>) returns (states: seq<Hal>, events: seq<Event>, h: Hal)
    requires |slots| >= 2
    ensures Scene(states, events, h, SendMapc, {}) && h.devices == [] && h.buckets == [[]]
  {
    h := Hal(Ring(slots, 0, 0, None, map[], [], []), [1, 1], 1, {}, [[]], [], map[]);
    states, events := [h], [];
    states, events, h := Extended(states, events, h, Arrive(0, Request(0, 0, 0)));
    states, events, h := Extended(states, events, h, Collection(0, true));
  }

  /** The command of thread 0 is consumed. */
  lemma Sent(states: seq<Hal>, events: seq<Event>, h: Hal, at: Place, mapped: set<nat>)
    returns (states': seq<Hal>, events': seq<Event>, h': Hal)
    requires Scene(states, events, h, at, mapped) && Sending(at)
    ensures IsMappingRun(states', events') && h' == states'[|events'|] == h.(ring := h'.ring)
    ensures Posted(h.ring, h'.ring, 0, CommandAt(Request(0, 0, 0), at))
  {
    hide IsMappingRun, Path, Posted, Inner;
    Alone(h.ring);
    var rings, actions, r := Works([h.ring], [], h.ring, 0);
    states', events', h' := Lifted(states, events, h, rings, actions);
  }

  lemma Alone(r: Ring<Command>)
    ensures Path([r], []) && Inner<Command>([])
  {
  }

  lemma Polled(h: Hal)
    requires 0 in h.ring.posters && h.ring.posters[0].Polling? && h.ring.read == h.ring.posters[0].target
    ensures Possible(h, RingMoves(Poll(0)))
    ensures var p := h.ring.posters[0];
            Next(h, RingMoves(Poll(0))) == h.(ring := h.ring.(posters := h.ring.posters[0 := Returned(p.cmd, true, p.index)]))
  {
  }

  /** Its caller is told so. */
  lemma Told(states: seq<Hal>, events: seq<Event>, h: Hal, at: Place, mapped: set<nat>)
    returns (states': seq<Hal>, events': seq<Event>, h': Hal)
    requires Scene(states, events, h, at, mapped) && (at == SendMapc || at == SendMapcSync)
    ensures Scene(states', events', h', if at == SendMapc then SendMapcSync else FindDevice, if at == SendMapc then mapped else mapped + {0})
    ensures h'.devices == h.devices && h'.buckets == h.buckets
  {
    hide IsMappingRun;
    states', events', h' := Sent(states, events, h, at, mapped);
    hide Posted;
    PostedIs(h.ring, h'.ring, CommandAt(Request(0, 0, 0), at));
    Polled(h');
    states', events', h' := Extended(states', events', h', RingMoves(Poll(0)));
    states', events', h' := Extended(states', events', h', Answer(0));
    assert h'.ring.posters == if at == SendMapc then map[0 := Entering(Sync)] else map[];
  }

  lemma PostedIs(r: Ring<Command>, r': Ring<Command>, cmd: Command)
    requires Posted(r, r', 0, cmd) && |r.posted| == |r.consumed|
    ensures Idle(r') && |r'.posted| == |r'.consumed| && 0 in r'.posters
    ensures r'.posters == r.posters[0 := Polling(cmd, |r.posted|, r'.read, DONE_SPINS)]
  {
  }

  lemma AtDevice(slots: seq<Command>) returns (states: seq<Hal>, events: seq<Event>, h: Hal)
    requires |slots| >= 2
    ensures Scene(states, events, h, CheckState(0), {0}) && h.devices == [Device(0, 0, None)]
  {
    hide IsMappingRun;
    states, events, h := AtMapc(slots);
    states, events, h := Told(states, events, h, SendMapc, {});
    states, events, h := Told(states, events, h, SendMapcSync, {});
    states, events, h := Extended(states, events, h, Lookup(0, true));
  }

  lemma AtMapd(slots: seq<Command>) returns (states: seq<Hal>, events: seq<Event>, h: Hal)
    requires |slots| >= 2
    ensures Scene(states, events, h, SendMapd(0), {0}) && h.devices == [Device(0, 1, Some(0))]
  {
    hide IsMappingRun;
    states, events, h := AtDevice(slots);
    states, events, h := Extended(states, events, h, LookAtState(0));
    states, events, h := Extended(states, events, h, Exchange(0));
    states, events, h := Extended(states, events, h, Allocate(0, true));
  }

  /** The MAPD is consumed, and then the MAPC of another caller, before thread 0 polls. */
  lemma Overtaken(slots: seq<Command>) returns (states: seq<Hal>, events: seq<Event>, h: Hal)
    requires |slots| >= 2
    ensures IsMappingRun(states, events) && h == states[|events|] && h.devices == [Device(0, 1, Some(0))]
    ensures 0 in h.callers && h.callers[0] == Caller(Request(0, 0, 0), SendMapd(0)) && 0 in h.ring.posters
    ensures var p := h.ring.posters[0]; p.Polling? && p.cmd == Mapd(0) && p.spins == DONE_SPINS && h.ring.read != p.target
                                        && p.index < |h.ring.consumed|
  {
    hide IsMappingRun;
    states, events, h := AtMapd(slots);
    states, events, h := Sent(states, events, h, SendMapd(0), {0});
    var target := h.ring.read;
    states, events, h := Extended(states, events, h, Arrive(1, Request(1, 1, 0)));
    states, events, h := Extended(states, events, h, Collection(1, true));
    hide Path, Inner;
    Alone(h.ring);
    var rings, actions, r := Works([h.ring], [], h.ring, 1);
    NextDiffers(target, |h.ring.slots|);
    states, events, h := Lifted(states, events, h, rings, actions);
  }

  /** On every ring of two or more entries there is a run in which the MAPD of a device is consumed
      and the device is given up all the same. */
  lemma MappedButGivenUp(slots: seq<Command>) returns (states: seq<Hal>, events: seq<Event>, h: Hal)
    requires |slots| >= 2
    ensures IsMappingRun(states, events) && h == states[|events|]
    ensures GivenUp(h, 0, 0) && Mapd(0) in h.ring.consumed
  {
    hide Path, Inner, Possible, Next, Fresh;
    states, events, h := Overtaken(slots);
    Alone(h.ring);
    var rings, actions, r := PollsInVain([h.ring], [], h.ring, 0);
    MappingRunInv(states, events, |events|);
    PolledIsConsumed(h, 0);
    states, events, h := Lifted(states, events, h, rings, actions);
    AnswerGivesUp(h);
    states, events, h := Extended(states, events, h, Answer(0));
  }

  lemma AnswerGivesUp(h: Hal)
    requires h.devices == [Device(0, 1, Some(0))] && 0 in h.callers && h.callers[0] == Caller(Request(0, 0, 0), SendMapd(0))
    requires 0 in h.ring.posters && h.ring.posters[0].Returned? && !h.ring.posters[0].ok
    ensures Possible(h, Answer(0)) && GivenUp(Next(h, Answer(0)), 0, 0) && Next(h, Answer(0)).ring.consumed == h.ring.consumed
  {
  }

  lemma PolledIsConsumed(h: Hal, t: Thread)
    requires MInv(h) && t in h.ring.posters && h.ring.posters[t].Polling? && h.ring.posters[t].index < |h.ring.consumed|
    ensures h.ring.posters[t].cmd in h.ring.consumed
  {
    assert PosterOk(h.ring, h.ring.posters[t]);
    assert h.ring.consumed <= h.ring.posted;
    assert h.ring.consumed[h.ring.posters[t].index] == h.ring.posters[t].cmd;
  }
}
