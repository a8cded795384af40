/** Mapping an MSI through the ITS: concurrent callers make sure that the collection of the
    target CPU and the device are mapped, and only then map the event. Collections are mapped
    at most once per flag, devices once per requester, guarded by an interlocked state. */
module ItsMapping {
  import opened Collections
  import opened ItsRing

  type DeviceId = nat

  datatype Command =
    | Mapd(device: nat)
    | Mapc(collection: nat)
    | Mapti(device: nat, event: nat, collection: nat)
    | Sync

  datatype Request = Request(requester: nat, cpu: nat, event: nat)

  /** InitState of a device: 0, 1 (being mapped, by `owner`), 2 (mapped) or -1 (failed). */
  datatype Device = Device(requester: nat, state: int, owner: Option<Thread>)

  datatype Place =
    | CheckCollection
    | SendMapc
    | SendMapcSync
    | FindDevice
    | CheckState(dev: DeviceId)
    | TryInit(dev: DeviceId)
    | Spin(dev: DeviceId, spins: nat)
    | AllocTable(dev: DeviceId)
    | SendMapd(dev: DeviceId)
    | SendMapti(dev: DeviceId)
    | SendSync(dev: DeviceId)
    | Succeeded
    | Failed

  datatype Caller = Caller(req: Request, at: Place)

  datatype Hal = Hal(
    ring: Ring<Command>,
    gicr: seq<nat>,               // redistributor base per CPU, 0 when there is none
    tableEntries: nat,            // size of the ITS device table
    mapped: set<nat>,             // HalpGicItsCollectionMapped
    buckets: seq<seq<DeviceId>>,  // HalpGicItsDeviceBuckets
    devices: seq<Device>,
    callers: map<Thread, Caller>)

  // ------------------------------------------------------------- the device table

  function Hash(h: Hal, requester: nat): (b: nat)
    requires h.buckets != []
    ensures b < |h.buckets|
  {
    requester % |h.buckets|
  }

  /** HalpGicItsFindDevice's walk along one chain. */
  function FindIn(devices: seq<Device>, chain: seq<DeviceId>, requester: nat): (r: Option<DeviceId>)
    ensures r.Some? ==> r.value in chain && r.value < |devices| && devices[r.value].requester == requester
    ensures r.None? ==> forall d :: d in chain && d < |devices| ==> devices[d].requester != requester
  {
    if chain == [] then None
    else if chain[0] < |devices| && devices[chain[0]].requester == requester then Some(chain[0])
    else FindIn(devices, chain[1..], requester)
  }

  /** Every device is in the chain of its requester's bucket, and no requester has two. */
  ghost predicate TableOk(h: Hal) {
    && (h.devices != [] ==> h.buckets != [])
    && (forall d :: 0 <= d < |h.devices| ==> d in h.buckets[Hash(h, h.devices[d].requester)])
    && (forall d, e :: 0 <= d < e < |h.devices| ==> h.devices[d].requester != h.devices[e].requester)
  }

  // ------------------------------------------------------------- the steps

  datatype Event =
    | Arrive(thread: Thread, req: Request)
    | Collection(thread: Thread, tablesOk: bool)
    | Lookup(thread: Thread, allocOk: bool)
    | LookAtState(thread: Thread)
    | Exchange(thread: Thread)
    | Allocate(thread: Thread, ittOk: bool)
    | SpinOnce(thread: Thread)
    | Answer(thread: Thread)
    | RingMoves(action: Action<Command>)

  predicate Sending(p: Place) {
    p.SendMapc? || p.SendMapcSync? || p.SendMapd? || p.SendMapti? || p.SendSync?
  }

  predicate Possible(h: Hal, e: Event) {
    match e
    case Arrive(t, _) => t !in h.callers
    case Collection(t, _) => t in h.callers && h.callers[t].at.CheckCollection? && t !in h.ring.posters
    case Lookup(t, _) => t in h.callers && h.callers[t].at.FindDevice? && t !in h.ring.posters && h.ring.lock.None?
    case LookAtState(t) => t in h.callers && h.callers[t].at.CheckState? && t !in h.ring.posters
                           && h.callers[t].at.dev < |h.devices|
    case Exchange(t) => t in h.callers && h.callers[t].at.TryInit? && t !in h.ring.posters
                        && h.callers[t].at.dev < |h.devices|
    case Allocate(t, _) => t in h.callers && h.callers[t].at.AllocTable? && t !in h.ring.posters
                           && h.callers[t].at.dev < |h.devices|
    case SpinOnce(t) => t in h.callers && h.callers[t].at.Spin? && t !in h.ring.posters
                        && h.callers[t].at.dev < |h.devices|
    case Answer(t) =>
      && t in h.callers && Sending(h.callers[t].at) && t in h.ring.posters && h.ring.posters[t].Returned?
      && (h.callers[t].at.SendMapd? ==> h.callers[t].at.dev < |h.devices|)
    case RingMoves(a) => !a.Call? && !a.Leave? && Enabled(h.ring, a)
  }

  function MaptiOf(req: Request): (c: Command) {
    Mapti(req.requester, req.event, req.cpu)
  }

  /** The command a caller sends from place `p`. */
  function CommandAt(req: Request, p: Place): (c: Command)
    requires Sending(p)
  {
    match p
    case SendMapc => Mapc(req.cpu)
    case SendMapd(_) => Mapd(req.requester)
    case SendMapti(_) => MaptiOf(req)
    case _ => Sync
  }

  /** The caller proceeds to place `p`; at a sending place this starts HalpGicItsPostCommand. */
  function Go(h: Hal, t: Thread, p: Place): (h': Hal)
    requires t in h.callers && t !in h.ring.posters
  {
    var req := h.callers[t].req;
    var g := h.(callers := h.callers[t := Caller(req, p)]);
    if Sending(p) then g.(ring := Do(h.ring, Call(t, CommandAt(req, p)))) else g
  }

  /** HalpGicItsEnsureCollection, up to its MAPC. */
  function AfterCollection(h: Hal, req: Request, tablesOk: bool): (p: Place) {
    if req.cpu >= |h.gicr| then Failed
    else if req.cpu in h.mapped then FindDevice
    else if !tablesOk || h.gicr[req.cpu] == 0 then Failed
    else SendMapc
  }

  /** After HalpGicItsGetDevice: the target must exist, then MAPTI is sent. */
  function MaptiPlace(h: Hal, req: Request, dev: DeviceId): (p: Place) {
    if req.cpu >= |h.gicr| || h.gicr[req.cpu] == 0 then Failed else SendMapti(dev)
  }

  function Find(h: Hal, requester: nat): (r: Option<DeviceId>)
    requires h.buckets != []
  {
    FindIn(h.devices, h.buckets[Hash(h, requester)], requester)
  }

  predicate Refused(h: Hal, req: Request) {
    req.requester >= h.tableEntries || h.buckets == []
  }

  /** The locked find-or-allocate at the start of HalpGicItsGetDevice. */
  function WithDevice(h: Hal, req: Request, allocOk: bool): (h': Hal) {
    if Refused(h, req) || !allocOk || Find(h, req.requester).Some? then h
    else
      var b := Hash(h, req.requester);
      h.(devices := h.devices + [Device(req.requester, 0, None)],
         buckets := h.buckets[b := [|h.devices|] + h.buckets[b]])
  }

  function AfterLookup(h: Hal, req: Request, allocOk: bool): (p: Place) {
    if Refused(h, req) then Failed
    else if Find(h, req.requester).Some? then CheckState(Find(h, req.requester).value)
    else if !allocOk then Failed
    else CheckState(|h.devices|)
  }

  function AfterLook(h: Hal, req: Request, dev: DeviceId): (p: Place)
    requires dev < |h.devices|
  {
    if h.devices[dev].state == 2 then MaptiPlace(h, req, dev)
    else if h.devices[dev].state == -1 then Failed
    else TryInit(dev)
  }

  /** The interlocked compare-exchange of InitState from 0 to 1. */
  function Exchanged(h: Hal, t: Thread, dev: DeviceId): (h': Hal)
    requires dev < |h.devices|
  {
    var d := h.devices[dev];
    if d.state != 0 then h else h.(devices := h.devices[dev := d.(state := 1, owner := Some(t))])
  }

  function AfterExchange(h: Hal, req: Request, dev: DeviceId): (p: Place)
    requires dev < |h.devices|
  {
    var state := h.devices[dev].state;
    if state == 2 then MaptiPlace(h, req, dev)
    else if state == -1 then Failed
    else if state == 1 then Spin(dev, 100000)
    else AllocTable(dev)
  }

  function WithState(h: Hal, dev: DeviceId, state: int): (h': Hal)
    requires dev < |h.devices|
  {
    h.(devices := h.devices[dev := h.devices[dev].(state := state)])
  }

  function AfterSpin(h: Hal, req: Request, dev: DeviceId, spins: nat): (p: Place)
    requires dev < |h.devices|
  {
    if h.devices[dev].state == 2 then MaptiPlace(h, req, dev)
    else if h.devices[dev].state == -1 || spins <= 1 then Failed
    else Spin(dev, spins - 1)
  }

  /** HalpGicItsPostCommand returns to its caller. */
  function LeaveRing(h: Hal, t: Thread): (g: Hal)
    requires Possible(h, Answer(t))
  {
    h.(ring := Do(h.ring, Leave(t)), callers := h.callers[t := h.callers[t].(at := Failed)])
  }

  /** The collection flag or the device state that the post was for is settled. */
  function Settle(h: Hal, c: Caller, ok: bool): (g: Hal)
    requires c.at.SendMapd? ==> c.at.dev < |h.devices|
  {
    match c.at
    case SendMapcSync => if ok then h.(mapped := h.mapped + {c.req.cpu}) else h
    case SendMapd(dev) => WithState(h, dev, if ok then 2 else -1)
    case _ => h
  }

  /** With TRUE the caller goes on to its next command; with FALSE it fails. */
  function AfterAnswer(h: Hal, c: Caller, ok: bool): (p: Place) {
    if !ok then Failed
    else
      match c.at
      case SendMapc => SendMapcSync
      case SendMapcSync => FindDevice
      case SendMapd(dev) => MaptiPlace(h, c.req, dev)
      case SendMapti(dev) => SendSync(dev)
      case _ => Succeeded
  }

  function Next(h: Hal, e: Event): (h': Hal)
    requires Possible(h, e)
  {
    match e
    case Arrive(t, req) => h.(callers := h.callers[t := Caller(req, CheckCollection)])
    case Collection(t, tablesOk) => Go(h, t, AfterCollection(h, h.callers[t].req, tablesOk))
    case Lookup(t, allocOk) =>
      var req := h.callers[t].req;
      Go(WithDevice(h, req, allocOk), t, AfterLookup(h, req, allocOk))
    case LookAtState(t) => Go(h, t, AfterLook(h, h.callers[t].req, h.callers[t].at.dev))
    case Exchange(t) =>
      var Caller(req, at) := h.callers[t];
      Go(Exchanged(h, t, at.dev), t, AfterExchange(h, req, at.dev))
    case Allocate(t, ittOk) =>
      var dev := h.callers[t].at.dev;
      if ittOk then Go(h, t, SendMapd(dev)) else WithState(Go(h, t, Failed), dev, -1)
    case SpinOnce(t) => Go(h, t, AfterSpin(h, h.callers[t].req, h.callers[t].at.dev, h.callers[t].at.spins))
    case Answer(t) =>
      var c, ok := h.callers[t], h.ring.posters[t].ok;
      var g := Settle(LeaveRing(h, t), c, ok);
      Go(g, t, AfterAnswer(g, c, ok))
    case RingMoves(a) => h.(ring := Do(h.ring, a))
  }

  // ------------------------------------------------------------- the invariant

  /** Every MAPTI in the stream comes after the MAPC of its collection and the MAPD of its device. */
  ghost predicate MappedBefore(s: seq<Command>) {
    forall i :: 0 <= i < |s| && s[i].Mapti? ==> Mapc(s[i].collection) in s[..i] && Mapd(s[i].device) in s[..i]
  }

  ghost predicate OneMapd(s: seq<Command>) {
    forall i, j :: 0 <= i < j < |s| && s[i].Mapd? ==> s[i] != s[j]
  }

  /** Still before the publication of its command. */
  ghost predicate Unpublished(p: Poster<Command>) {
    p.Entering? || p.Sampling? || p.Filling? || p.Publishing?
  }

  /** What a device's state says about the streams. */
  ghost predicate DeviceOk(h: Hal, d: Device) {
    && (d.state == 0 || d.state == 1 || d.state == 2 || d.state == -1)
    && (d.state == 2 ==> Mapd(d.requester) in h.ring.consumed)
    && (d.state == 0 ==> Mapd(d.requester) !in h.ring.posted)
  }

  ghost predicate KnowsDevice(h: Hal, req: Request, dev: DeviceId) {
    dev < |h.devices| && h.devices[dev].requester == req.requester
  }

  /** What a caller at place `p` has already established. */
  ghost predicate Fits(h: Hal, req: Request, p: Place) {
    match p
    case SendMapcSync => Mapc(req.cpu) in h.ring.consumed
    case FindDevice => req.cpu in h.mapped
    case CheckState(dev) => req.cpu in h.mapped && KnowsDevice(h, req, dev)
    case TryInit(dev) => req.cpu in h.mapped && KnowsDevice(h, req, dev)
    case Spin(dev, _) => req.cpu in h.mapped && KnowsDevice(h, req, dev)
    case AllocTable(dev) => req.cpu in h.mapped && KnowsDevice(h, req, dev) && h.devices[dev].state == 1
    case SendMapd(dev) => req.cpu in h.mapped && KnowsDevice(h, req, dev) && h.devices[dev].state == 1
    case SendMapti(dev) => req.cpu in h.mapped && KnowsDevice(h, req, dev) && h.devices[dev].state == 2
    case SendSync(_) => MaptiOf(req) in h.ring.consumed
    case Succeeded => MaptiOf(req) in h.ring.consumed
    case _ => true
  }

  ghost predicate CallerOk(h: Hal, t: Thread) {
    t in h.callers &&
    var c := h.callers[t];
    && Fits(h, c.req, c.at)
    && (t in h.ring.posters <==> Sending(c.at))
    && (Sending(c.at) ==> h.ring.posters[t].cmd == CommandAt(c.req, c.at))
    && (Owns(c.at) ==>
          && h.devices[c.at.dev].owner == Some(t)
          && (c.at.AllocTable? || Unpublished(h.ring.posters[t]) ==> Mapd(c.req.requester) !in h.ring.posted))
  }

  /** The caller has won the exchange and not yet settled the device's state. */
  predicate Owns(p: Place) {
    p.AllocTable? || p.SendMapd?
  }

  ghost predicate StreamsOk(h: Hal) {
    && ItsRing.Inv(h.ring)
    && MappedBefore(h.ring.posted) && OneMapd(h.ring.posted)
    && (forall c :: c in h.mapped ==> Mapc(c) in h.ring.consumed)
    && (forall i :: 0 <= i < |h.ring.posted| && h.ring.posted[i].Mapd? ==> RequesterKnown(h, h.ring.posted[i].device))
  }

  ghost predicate RequesterKnown(h: Hal, requester: nat) {
    exists d :: 0 <= d < |h.devices| && h.devices[d].requester == requester
  }

  ghost predicate MInv(h: Hal) {
    && StreamsOk(h) && TableOk(h)
    && (forall d :: 0 <= d < |h.devices| ==> DeviceOk(h, h.devices[d]))
    && (forall t :: t in h.callers ==> CallerOk(h, t))
    && (forall t :: t in h.ring.posters ==> t in h.callers)
  }

  // ------------------------------------------------------------- ring steps keep it

  /** What a ring step can change: one command may be published, by a thread that had not yet
      published; the consumed stream only grows. */
  lemma StreamMoves(r: Ring<Command>, a: Action<Command>)
    requires ItsRing.Inv(r) && Enabled(r, a) && !a.Call? && !a.Leave?
    ensures Do(r, a).posters.Keys == r.posters.Keys
    ensures r.consumed <= Do(r, a).consumed
    ensures Do(r, a).posted == (if a.Publish? then r.posted + [r.posters[a.thread].cmd] else r.posted)
    ensures a.Publish? ==> Unpublished(r.posters[a.thread]) && !Unpublished(Do(r, a).posters[a.thread])
  {
  }

  lemma PosterMoves(r: Ring<Command>, a: Action<Command>, t: Thread)
    requires ItsRing.Inv(r) && Enabled(r, a) && !a.Call? && !a.Leave? && t in r.posters
    ensures t in Do(r, a).posters && Do(r, a).posters[t].cmd == r.posters[t].cmd
    ensures Unpublished(Do(r, a).posters[t]) ==> Unpublished(r.posters[t])
  {
  }

  /** Two callers never map the device of the same requester. */
  lemma OneOwner(h: Hal, t: Thread, u: Thread)
    requires TableOk(h) && CallerOk(h, t) && CallerOk(h, u)
    requires Owns(h.callers[t].at) && Owns(h.callers[u].at)
    requires h.callers[t].req.requester == h.callers[u].req.requester
    ensures t == u
  {
    var d, e := h.callers[t].at.dev, h.callers[u].at.dev;
    assert h.devices[d].requester == h.devices[e].requester;
    assert d == e;
  }

  /** Who publishes what: a published MAPD or MAPTI is its caller's own. */
  lemma PublisherKnown(h: Hal, t: Thread)
    requires MInv(h) && t in h.ring.posters
    ensures t in h.callers && Sending(h.callers[t].at)
    ensures h.ring.posters[t].cmd.Mapd? ==>
              h.callers[t].at.SendMapd? && h.ring.posters[t].cmd == Mapd(h.callers[t].req.requester)
    ensures h.ring.posters[t].cmd.Mapti? ==>
              h.callers[t].at.SendMapti? && h.ring.posters[t].cmd == CommandAt(h.callers[t].req, h.callers[t].at)
  {
    assert CallerOk(h, t);
  }

  lemma AppendOrdered(s: seq<Command>, cmd: Command)
    requires MappedBefore(s) && OneMapd(s)
    requires cmd.Mapti? ==> Mapc(cmd.collection) in s && Mapd(cmd.device) in s
    requires cmd.Mapd? ==> cmd !in s
    ensures MappedBefore(s + [cmd]) && OneMapd(s + [cmd])
  {
    forall i | 0 <= i < |s| + 1
      ensures (s + [cmd])[..i] == s[..i]
    {
    }
  }

  lemma PublishOrder(h: Hal, t: Thread)
    requires MInv(h) && t in h.ring.posters && Unpublished(h.ring.posters[t])
    ensures var s := h.ring.posted + [h.ring.posters[t].cmd]; MappedBefore(s) && OneMapd(s)
  {
    var cmd := h.ring.posters[t].cmd;
    PublisherKnown(h, t);
    assert CallerOk(h, t);
    if cmd.Mapti? {
      assert DeviceOk(h, h.devices[h.callers[t].at.dev]);
      assert h.ring.consumed <= h.ring.posted;
      assert Mapc(cmd.collection) in h.ring.posted && Mapd(cmd.device) in h.ring.posted;
    }
    AppendOrdered(h.ring.posted, cmd);
  }

  lemma RingStreams(h: Hal, a: Action<Command>)
    requires MInv(h) && Possible(h, RingMoves(a))
    ensures StreamsOk(Next(h, RingMoves(a)))
  {
    var h' := Next(h, RingMoves(a));
    StreamMoves(h.ring, a);
    StepKeeps(h.ring, a);
    if a.Publish? {
      PublishOrder(h, a.thread);
      PublisherKnown(h, a.thread);
      assert CallerOk(h, a.thread);
      if h.ring.posters[a.thread].cmd.Mapd? {
        assert h.devices[h.callers[a.thread].at.dev].requester == h.callers[a.thread].req.requester;
      }
    }
    forall i | 0 <= i < |h'.ring.posted| && h'.ring.posted[i].Mapd?
      ensures RequesterKnown(h', h'.ring.posted[i].device)
    {
      if i < |h.ring.posted| {
        assert RequesterKnown(h, h.ring.posted[i].device);
      }
    }
  }

  lemma RingDevices(h: Hal, a: Action<Command>, d: DeviceId)
    requires MInv(h) && Possible(h, RingMoves(a)) && d < |h.devices|
    ensures DeviceOk(Next(h, RingMoves(a)), h.devices[d])
  {
    StreamMoves(h.ring, a);
    assert DeviceOk(h, h.devices[d]);
    if a.Publish? && h.ring.posters[a.thread].cmd == Mapd(h.devices[d].requester) {
      PublisherKnown(h, a.thread);
      assert CallerOk(h, a.thread);
      var e := h.callers[a.thread].at.dev;
      assert h.devices[e].requester == h.devices[d].requester;
      assert d == e;
    }
  }

  lemma RingInv(h: Hal)
    requires MInv(h)
    ensures ItsRing.Inv(h.ring)
  {
  }

  lemma RingCallers(h: Hal, a: Action<Command>, t: Thread)
    requires MInv(h) && Possible(h, RingMoves(a)) && t in h.callers
    ensures CallerOk(Next(h, RingMoves(a)), t)
  {
    hide ItsRing.Inv, StreamsOk, TableOk, DeviceOk, Do;
    RingInv(h);
    StreamMoves(h.ring, a);
    if t in h.ring.posters {
      PosterMoves(h.ring, a, t);
    }
    assert CallerOk(h, t);
    if a.Publish? && Owns(h.callers[t].at) && h.ring.posters[a.thread].cmd == Mapd(h.callers[t].req.requester) {
      PublisherKnown(h, a.thread);
      assert CallerOk(h, a.thread);
      OneOwner(h, t, a.thread);
    }
  }

  lemma RingMoveKeeps(h: Hal, a: Action<Command>)
    requires MInv(h) && Possible(h, RingMoves(a))
    ensures MInv(Next(h, RingMoves(a)))
  {
    RingStreams(h, a);
    StreamMoves(h.ring, a);
    forall d | 0 <= d < |h.devices|
      ensures DeviceOk(Next(h, RingMoves(a)), h.devices[d])
    {
      RingDevices(h, a, d);
    }
    forall t | t in h.callers
      ensures CallerOk(Next(h, RingMoves(a)), t)
    {
      RingCallers(h, a, t);
    }
  }

  // ------------------------------------------------------------- caller steps keep it

  /** What a step of caller `t` may change: its own place and posting, more mapped collections,
      new devices, and the state of a device that is untouched or its own. */
  ghost predicate OnlyBy(h: Hal, h': Hal, t: Thread) {
    && h'.ring.posted == h.ring.posted && h'.ring.consumed == h.ring.consumed
    && (forall u :: u != t ==> (u in h'.callers <==> u in h.callers) && (u in h.callers ==> h'.callers[u] == h.callers[u]))
    && (forall u :: u != t ==>
          (u in h'.ring.posters <==> u in h.ring.posters)
          && (u in h.ring.posters ==> h'.ring.posters[u] == h.ring.posters[u]))
    && h.mapped <= h'.mapped
    && |h.devices| <= |h'.devices|
    && (forall d :: 0 <= d < |h.devices| ==>
          && h'.devices[d].requester == h.devices[d].requester
          && (|| h'.devices[d] == h.devices[d] || h.devices[d].state == 0
              || (h.devices[d].state == 1 && h.devices[d].owner == Some(t))))
  }

  lemma OthersUndisturbed(h: Hal, h': Hal, t: Thread, u: Thread)
    requires OnlyBy(h, h', t) && u != t && u in h.callers && CallerOk(h, u)
    ensures CallerOk(h', u)
  {
  }

  lemma StreamsUndisturbed(h: Hal, h': Hal, t: Thread)
    requires StreamsOk(h) && OnlyBy(h, h', t) && ItsRing.Inv(h'.ring)
    requires forall c :: c in h'.mapped && c !in h.mapped ==> Mapc(c) in h.ring.consumed
    ensures StreamsOk(h')
  {
    forall i | 0 <= i < |h'.ring.posted| && h'.ring.posted[i].Mapd?
      ensures RequesterKnown(h', h'.ring.posted[i].device)
    {
      assert RequesterKnown(h, h.ring.posted[i].device);
      var d :| 0 <= d < |h.devices| && h.devices[d].requester == h.ring.posted[i].device;
      assert h'.devices[d].requester == h.ring.posted[i].device;
    }
  }

  /** Putting it together: what remains to be shown for a caller's step is its own part. */
  lemma CallerStepKeeps(h: Hal, h': Hal, t: Thread)
    requires MInv(h) && OnlyBy(h, h', t) && ItsRing.Inv(h'.ring)
    requires forall c :: c in h'.mapped && c !in h.mapped ==> Mapc(c) in h.ring.consumed
    requires TableOk(h') && t in h'.callers && CallerOk(h', t)
    requires forall d :: 0 <= d < |h'.devices| ==> DeviceOk(h', h'.devices[d])
    ensures MInv(h')
  {
    StreamsUndisturbed(h, h', t);
    forall u | u in h'.callers
      ensures CallerOk(h', u)
    {
      if u != t {
        OthersUndisturbed(h, h', t, u);
      }
    }
  }

  lemma DevicesUnchanged(h: Hal, h': Hal)
    requires forall d :: 0 <= d < |h.devices| ==> DeviceOk(h, h.devices[d])
    requires h'.devices == h.devices && h'.ring.posted == h.ring.posted && h'.ring.consumed == h.ring.consumed
    ensures forall d :: 0 <= d < |h'.devices| ==> DeviceOk(h', h'.devices[d])
  {
    forall d | 0 <= d < |h'.devices|
      ensures DeviceOk(h', h'.devices[d])
    {
      assert DeviceOk(h, h.devices[d]);
    }
  }

  /** A caller may proceed to any place whose requirements are met. */
  lemma GoKeeps(h: Hal, t: Thread, p: Place)
    requires MInv(h) && t in h.callers && t !in h.ring.posters
    requires Fits(h, h.callers[t].req, p)
    requires Owns(p) ==> h.devices[p.dev].owner == Some(t) && Mapd(h.callers[t].req.requester) !in h.ring.posted
    ensures MInv(Go(h, t, p))
  {
    var h' := Go(h, t, p);
    if Sending(p) {
      StepKeeps(h.ring, Call(t, CommandAt(h.callers[t].req, p)));
    }
    DevicesUnchanged(h, h');
    CallerStepKeeps(h, h', t);
  }

  lemma CollectionKeeps(h: Hal, t: Thread, tablesOk: bool)
    requires MInv(h) && Possible(h, Collection(t, tablesOk))
    ensures MInv(Next(h, Collection(t, tablesOk)))
  {
    GoKeeps(h, t, AfterCollection(h, h.callers[t].req, tablesOk));
  }

  /** A new device keeps the table sound: its requester had none. */
  lemma NewDeviceKeeps(h: Hal, req: Request)
    requires TableOk(h) && !Refused(h, req) && Find(h, req.requester).None?
    ensures TableOk(WithDevice(h, req, true))
    ensures forall d :: 0 <= d < |h.devices| ==> h.devices[d].requester != req.requester
  {
    forall d | 0 <= d < |h.devices|
      ensures h.devices[d].requester != req.requester
    {
      assert d in h.buckets[Hash(h, h.devices[d].requester)];
    }
  }

  lemma WithDeviceKeeps(h: Hal, t: Thread, allocOk: bool)
    requires MInv(h) && t in h.callers
    ensures MInv(WithDevice(h, h.callers[t].req, allocOk))
  {
    var req := h.callers[t].req;
    var h' := WithDevice(h, req, allocOk);
    if h' != h {
      NewDeviceKeeps(h, req);
      assert Mapd(req.requester) !in h.ring.posted;
      forall d | 0 <= d < |h'.devices|
        ensures DeviceOk(h', h'.devices[d])
      {
        if d < |h.devices| {
          assert DeviceOk(h, h.devices[d]);
        }
      }
      assert CallerOk(h, t);
      CallerStepKeeps(h, h', t);
    }
  }

  lemma LookupKeeps(h: Hal, t: Thread, allocOk: bool)
    requires MInv(h) && Possible(h, Lookup(t, allocOk))
    ensures MInv(Next(h, Lookup(t, allocOk)))
  {
    assert CallerOk(h, t);
    WithDeviceKeeps(h, t, allocOk);
    GoKeeps(WithDevice(h, h.callers[t].req, allocOk), t, AfterLookup(h, h.callers[t].req, allocOk));
  }

  lemma LookAtStateKeeps(h: Hal, t: Thread)
    requires MInv(h) && Possible(h, LookAtState(t))
    ensures MInv(Next(h, LookAtState(t)))
  {
    assert CallerOk(h, t);
    GoKeeps(h, t, AfterLook(h, h.callers[t].req, h.callers[t].at.dev));
  }

  /** Changing a device that nobody else depends on. */
  lemma DeviceUpdate(h: Hal, g: Hal, dev: DeviceId, d: Device)
    requires TableOk(h) && dev < |h.devices| && d.requester == h.devices[dev].requester
    requires g.devices == h.devices[dev := d] && g.buckets == h.buckets
    requires g.ring.posted == h.ring.posted && g.ring.consumed == h.ring.consumed
    requires forall e :: 0 <= e < |h.devices| ==> DeviceOk(h, h.devices[e])
    requires DeviceOk(g, d)
    ensures TableOk(g)
    ensures forall e :: 0 <= e < |g.devices| ==> DeviceOk(g, g.devices[e])
  {
    forall e | 0 <= e < |g.devices|
      ensures DeviceOk(g, g.devices[e])
    {
      assert DeviceOk(h, h.devices[e]);
    }
    assert forall e :: 0 <= e < |g.devices| ==> g.devices[e].requester == h.devices[e].requester;
    forall e | 0 <= e < |g.devices|
      ensures e in g.buckets[Hash(g, g.devices[e].requester)]
    {
      assert Hash(g, g.devices[e].requester) == Hash(h, h.devices[e].requester);
    }
  }

  lemma ExchangedKeeps(h: Hal, t: Thread)
    requires MInv(h) && Possible(h, Exchange(t))
    ensures MInv(Exchanged(h, t, h.callers[t].at.dev))
  {
    var dev := h.callers[t].at.dev;
    var h' := Exchanged(h, t, dev);
    if h.devices[dev].state == 0 {
      assert CallerOk(h, t) && DeviceOk(h, h.devices[dev]);
      DeviceUpdate(h, h', dev, h'.devices[dev]);
      CallerStepKeeps(h, h', t);
    }
  }

  lemma ExchangeKeeps(h: Hal, t: Thread)
    requires MInv(h) && Possible(h, Exchange(t))
    ensures MInv(Next(h, Exchange(t)))
  {
    var dev := h.callers[t].at.dev;
    assert CallerOk(h, t) && DeviceOk(h, h.devices[dev]);
    ExchangedKeeps(h, t);
    GoKeeps(Exchanged(h, t, dev), t, AfterExchange(h, h.callers[t].req, dev));
  }

  lemma AllocateKeeps(h: Hal, t: Thread, ittOk: bool)
    requires MInv(h) && Possible(h, Allocate(t, ittOk))
    ensures MInv(Next(h, Allocate(t, ittOk)))
  {
    var dev := h.callers[t].at.dev;
    assert CallerOk(h, t);
    if ittOk {
      GoKeeps(h, t, SendMapd(dev));
    } else {
      GoKeeps(h, t, Failed);
      StateKeeps(Go(h, t, Failed), t, dev, false);
    }
  }

  lemma SpinKeeps(h: Hal, t: Thread)
    requires MInv(h) && Possible(h, SpinOnce(t))
    ensures MInv(Next(h, SpinOnce(t)))
  {
    assert CallerOk(h, t);
    GoKeeps(h, t, AfterSpin(h, h.callers[t].req, h.callers[t].at.dev, h.callers[t].at.spins));
  }

  /** A TRUE answer: the caller's own command has been consumed. */
  lemma TrueMeansConsumed(h: Hal, t: Thread)
    requires MInv(h) && t in h.ring.posters && h.ring.posters[t].Returned? && h.ring.posters[t].ok
    ensures h.ring.posters[t].cmd in h.ring.consumed
  {
    assert PosterOk(h.ring, h.ring.posters[t]);
    assert h.ring.consumed[h.ring.posters[t].index] == h.ring.posters[t].cmd;
  }

  /** What a caller has when its post returns: it waited at a sending place, and with TRUE its
      command has been consumed. */
  ghost predicate Earned(g: Hal, t: Thread, c: Caller, ok: bool) {
    && Sending(c.at) && Fits(g, c.req, c.at)
    && (ok ==> CommandAt(c.req, c.at) in g.ring.consumed)
    && (c.at.SendMapd? ==> g.devices[c.at.dev].owner == Some(t))
    && t in g.callers && g.callers[t] == Caller(c.req, Failed) && t !in g.ring.posters
  }

  lemma LeaveFacts(h: Hal, t: Thread) returns (g: Hal)
    requires Possible(h, Answer(t))
    ensures g == LeaveRing(h, t) && g.devices == h.devices && g.mapped == h.mapped
    ensures g.ring.posted == h.ring.posted && g.ring.consumed == h.ring.consumed
    ensures t in g.callers && g.callers[t] == Caller(h.callers[t].req, Failed) && t !in g.ring.posters
  {
    g := LeaveRing(h, t);
  }

  lemma LeaveEarns(h: Hal, t: Thread)
    requires MInv(h) && Possible(h, Answer(t))
    ensures Earned(LeaveRing(h, t), t, h.callers[t], h.ring.posters[t].ok)
  {
    hide StreamsOk, TableOk, DeviceOk, LeaveRing;
    var g := LeaveFacts(h, t);
    assert CallerOk(h, t);
    if h.ring.posters[t].ok {
      TrueMeansConsumed(h, t);
    }
  }

  lemma LeaveKeeps(h: Hal, t: Thread)
    requires MInv(h) && Possible(h, Answer(t))
    ensures MInv(LeaveRing(h, t))
  {
    StepKeeps(h.ring, Leave(t));
    DevicesUnchanged(h, LeaveRing(h, t));
    CallerStepKeeps(h, LeaveRing(h, t), t);
  }

  lemma FlagKeeps(h: Hal, t: Thread, cpu: nat)
    requires MInv(h) && t in h.callers && Mapc(cpu) in h.ring.consumed
    ensures MInv(h.(mapped := h.mapped + {cpu}))
  {
    var g := h.(mapped := h.mapped + {cpu});
    assert CallerOk(h, t);
    DevicesUnchanged(h, g);
    CallerStepKeeps(h, g, t);
  }

  /** The owner of a device that is being mapped settles its state. */
  lemma StateKeeps(h: Hal, t: Thread, dev: DeviceId, ok: bool)
    requires MInv(h) && t in h.callers && h.callers[t].at.Failed?
    requires dev < |h.devices| && h.devices[dev].state == 1 && h.devices[dev].owner == Some(t)
    requires ok ==> Mapd(h.devices[dev].requester) in h.ring.consumed
    ensures MInv(WithState(h, dev, if ok then 2 else -1))
  {
    var g := WithState(h, dev, if ok then 2 else -1);
    assert CallerOk(h, t) && DeviceOk(h, h.devices[dev]);
    DeviceUpdate(h, g, dev, g.devices[dev]);
    CallerStepKeeps(h, g, t);
  }

  lemma SettleKeeps(h: Hal, t: Thread, c: Caller, ok: bool)
    requires MInv(h) && Earned(h, t, c, ok)
    ensures MInv(Settle(h, c, ok))
  {
    if c.at.SendMapcSync? && ok {
      FlagKeeps(h, t, c.req.cpu);
    } else if c.at.SendMapd? {
      StateKeeps(h, t, c.at.dev, ok);
    }
  }

  /** After TRUE, what the next place relies on is there. */
  lemma AnswerFits(h: Hal, t: Thread, c: Caller, ok: bool)
    requires Earned(h, t, c, ok)
    ensures var g := Settle(h, c, ok); Fits(g, c.req, AfterAnswer(g, c, ok))
  {
  }

  lemma SettledGoKeeps(h: Hal, t: Thread, c: Caller, ok: bool)
    requires MInv(h) && Earned(h, t, c, ok)
    ensures var g := Settle(h, c, ok); t in g.callers && t !in g.ring.posters && MInv(Go(g, t, AfterAnswer(g, c, ok)))
  {
    var g := Settle(h, c, ok);
    SettleKeeps(h, t, c, ok);
    AnswerFits(h, t, c, ok);
    GoKeeps(g, t, AfterAnswer(g, c, ok));
  }

  lemma AnswerKeeps(h: Hal, t: Thread)
    requires MInv(h) && Possible(h, Answer(t))
    ensures MInv(Next(h, Answer(t)))
  {
    LeaveKeeps(h, t);
    LeaveEarns(h, t);
    SettledGoKeeps(LeaveRing(h, t), t, h.callers[t], h.ring.posters[t].ok);
  }

  lemma ArriveKeeps(h: Hal, t: Thread, req: Request)
    requires MInv(h) && t !in h.callers
    ensures MInv(Next(h, Arrive(t, req)))
  {
    var h' := Next(h, Arrive(t, req));
    assert t !in h.ring.posters;
    DevicesUnchanged(h, h');
    CallerStepKeeps(h, h', t);
  }

  lemma NextKeeps(h: Hal, e: Event)
    requires MInv(h) && Possible(h, e)
    ensures MInv(Next(h, e))
  {
    match e
    case Arrive(t, req) => ArriveKeeps(h, t, req);
    case Collection(t, ok) => CollectionKeeps(h, t, ok);
    case Lookup(t, ok) => LookupKeeps(h, t, ok);
    case LookAtState(t) => LookAtStateKeeps(h, t);
    case Exchange(t) => ExchangeKeeps(h, t);
    case Allocate(t, ok) => AllocateKeeps(h, t, ok);
    case SpinOnce(t) => SpinKeeps(h, t);
    case Answer(t) => AnswerKeeps(h, t);
    case RingMoves(a) => RingMoveKeeps(h, a);
  }

  // ------------------------------------------------------------- every run

  ghost predicate Fresh(h: Hal) {
    Empty(h.ring) && h.mapped == {} && h.devices == [] && h.callers == map[]
  }

  ghost predicate IsMappingRun(states: seq<Hal>, events: seq<Event>) {
    && |states| == |events| + 1 && Fresh(states[0])
    && forall i :: 0 <= i < |events| ==> Possible(states[i], events[i]) && states[i + 1] == Next(states[i], events[i])
  }

  lemma {:induction false} MappingRunInv(states: seq<Hal>, events: seq<Event>, k: nat)
    requires IsMappingRun(states, events) && k < |states|
    ensures MInv(states[k])
  {
    if k == 0 {
      EmptyInv(states[0].ring);
    } else {
      MappingRunInv(states, events, k - 1);
      NextKeeps(states[k - 1], events[k - 1]);
    }
  }

  /** In every run, with any number of concurrent callers: in the stream the ITS consumes,
      every MAPTI is preceded by the MAPC of its collection and the MAPD of its device, and no
      device is mapped twice. */
  lemma ConsumedInOrder(states: seq<Hal>, events: seq<Event>, k: nat)
    requires IsMappingRun(states, events) && k < |states|
    ensures MappedBefore(states[k].ring.consumed) && OneMapd(states[k].ring.consumed)
    ensures MappedBefore(states[k].ring.posted) && OneMapd(states[k].ring.posted)
  {
    MappingRunInv(states, events, k);
    var r := states[k].ring;
    assert r.consumed <= r.posted;
    forall i | 0 <= i < |r.consumed|
      ensures r.consumed[..i] == r.posted[..i]
    {
    }
  }

  /** A caller that has been given its MSI message has had its MAPTI consumed, after the MAPC
      and the MAPD it depends on. */
  lemma SuccessIsMapped(states: seq<Hal>, events: seq<Event>, k: nat, t: Thread)
    requires IsMappingRun(states, events) && k < |states|
    requires t in states[k].callers && states[k].callers[t].at.Succeeded?
    ensures exists i :: && 0 <= i < |states[k].ring.consumed|
                        && states[k].ring.consumed[i] == MaptiOf(states[k].callers[t].req)
                        && Mapc(states[k].callers[t].req.cpu) in states[k].ring.consumed[..i]
                        && Mapd(states[k].callers[t].req.requester) in states[k].ring.consumed[..i]
  {
    MappingRunInv(states, events, k);
    ConsumedInOrder(states, events, k);
    assert CallerOk(states[k], t);
    var s := states[k].ring.consumed;
    var i :| 0 <= i < |s| && s[i] == MaptiOf(states[k].callers[t].req);
  }
}
