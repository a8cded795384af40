/** CcCanIWrite admits a write while the number of dirty pages is below a threshold. How far that
    number can rise above it, over every interleaving of admitted writes, flushes and evictions. */
module WriteThrottle {
  import opened Collections
  import opened CacheState
  import opened CacheSteps
  import opened CacheEvents

  type ClientId = nat

  // ------------------------------------------------------------- the admission test

  const FIRST_TRY: nat := 0
  const RETRY_ALLOW_REMOTE: nat := 253
  const RETRY_FORCE_CHECK_PER_FILE: nat := 254
  const MAX_ZERO_LENGTH: nat := 0x40000
  const PAGE_SIZE: nat := 4096

  /** A write that asks to be let in; `limited` files ask for a check of their own limit. */
  datatype Request = Request(bytes: nat, writeThrough: bool, remote: bool, limited: bool, context: nat)

  /** What CcCanIWrite looks at: the deferred writes, the dirty pages, those of the file with their
      limit if it is cached, and the memory manager's page counts. */
  datatype Figures = Figures(noneDeferred: bool, total: int, threshold: nat, file: Option<(int, nat)>,
                             available: nat, top: nat, bottom: nat, modified: nat)

  function Pages(bytes: nat): (n: nat) {
    ((if bytes < MAX_ZERO_LENGTH then bytes else MAX_ZERO_LENGTH) + PAGE_SIZE - 1) / PAGE_SIZE
  }

  /** Writes let in without a test. */
  predicate Bypasses(r: Request) {
    r.writeThrough || (r.remote && r.context < RETRY_ALLOW_REMOTE)
  }

  predicate OverFileLimit(r: Request, f: Figures) {
    && (r.context >= RETRY_FORCE_CHECK_PER_FILE || r.limited) && f.file.Some?
    && f.file.value.1 != 0 && f.file.value.0 != 0 && Pages(r.bytes) + f.file.value.0 > f.file.value.1
  }

  /** CcCanIWrite up to the point where it would wait. */
  predicate CanIWrite(r: Request, f: Figures) {
    || Bypasses(r)
    || (&& (r.context != FIRST_TRY || f.noneDeferred) && f.total + Pages(r.bytes) < f.threshold
        && (f.available > f.top || (f.modified < 1000 && f.available > f.bottom)) && !OverFileLimit(r, f))
  }

  // ------------------------------------------------------------- admitted writes at work

  /** What the clients of the cache are up to: who was admitted and how many views each may still
      mark dirty, how many flushes are under way that are going to fail, and how many views were
      marked so far by writers that no test holds back (write-through, remote files, pinned data). */
  datatype Load = Load(c: Cache, clients: set<ClientId>, tickets: multiset<ClientId>, doomed: nat, untested: nat)

  datatype Move =
    | Admit(id: ClientId, r: Request, f: Figures)
    | Mark(id: ClientId, v: VacbId, wrote: bool)
    | MarkUntested(v: VacbId, wrote: bool)
    | Leave(id: ClientId)
    | BeginFlush(v: VacbId, fails: bool)
    | EndFlush(v: VacbId, ok: bool, torn: View)
    | Other(event: Event)

  /** The threshold, and the most views one admitted write may touch. */
  datatype Limits = Limits(threshold: nat, perWrite: nat)

  ghost predicate Allowed(s: Load, m: Move, l: Limits) {
    match m
    case Admit(id, r, f) =>
      && id !in s.clients && id !in s.tickets && CanIWrite(r, f) && !Bypasses(r)
      && f.total == s.c.totalDirty && f.threshold == l.threshold && ViewsOf(r.bytes) <= l.perWrite
    case Mark(id, v, wrote) => id in s.tickets && ClientMay(s.c, MarkNow(v, wrote))
    case MarkUntested(v, wrote) => ClientMay(s.c, MarkNow(v, wrote))
    case Leave(id) => id in s.clients
    case BeginFlush(v, _) => ClientMay(s.c, FlushBegins(v))
    case EndFlush(v, ok, torn) => (!ok ==> s.doomed > 0) && ClientMay(s.c, FlushEnds(v, ok, torn))
    case Other(e) => Enabled(s.c, e) && (e.Client? ==> !e.client.MarkNow? && !e.client.FlushBegins? && !e.client.FlushEnds?)
  }

  /** The most views a write of so many bytes can touch. */
  function ViewsOf(bytes: nat): (n: nat) {
    if bytes == 0 then 0 else (bytes - 1) / GRANULARITY + 2
  }

  /** Whatever its offset, a write touches no more views than that. */
  lemma ViewsTouched(offset: nat, bytes: nat)
    requires bytes > 0
    ensures RoundDown(offset + bytes - 1) <= RoundDown(offset) + (ViewsOf(bytes) - 1) * GRANULARITY
  {
  }

  ghost function After(s: Load, m: Move, l: Limits): (s': Load)
    requires Ready(s.c) && Allowed(s, m, l)
  {
    match m
    case Admit(id, _, _) => s.(clients := s.clients + {id}, tickets := s.tickets[id := l.perWrite])
    case Mark(id, v, wrote) => s.(c := ClientStep(s.c, MarkNow(v, wrote)), tickets := s.tickets - multiset{id})
    case MarkUntested(v, wrote) => s.(c := ClientStep(s.c, MarkNow(v, wrote)), untested := s.untested + 1)
    case Leave(id) => s.(clients := s.clients - {id}, tickets := s.tickets[id := 0])
    case BeginFlush(v, fails) => s.(c := CacheState.BeginFlush(s.c, v), doomed := s.doomed + One(fails))
    case EndFlush(v, ok, torn) => s.(c := CacheState.EndFlush(s.c, v, ok, torn), doomed := s.doomed - One(!ok))
    case Other(e) => s.(c := Step(s.c, e))
  }

  // ------------------------------------------------------------- how steps change the total

  lemma MarkTotal(c: Cache, v: VacbId, wrote: bool)
    requires Ready(c) && ClientMay(c, MarkNow(v, wrote))
    ensures ClientStep(c, MarkNow(v, wrote)).totalDirty == c.totalDirty + PAGES_PER_VIEW
  {
    hide Without;
  }

  lemma FlushTotal(c: Cache, v: VacbId, ok: bool, torn: View)
    requires Accounted(c, v) && v in c.data
    ensures CacheState.BeginFlush(c, v).totalDirty == c.totalDirty - PAGES_PER_VIEW
    ensures CacheState.EndFlush(c, v, ok, torn).totalDirty == c.totalDirty + PAGES_PER_VIEW * One(!ok)
  {
  }

  lemma InsertTotal(c: Cache, v: VacbId, offset: nat)
    requires v in c.chunk && c.chunk[v].file in c.lists && c.chunk.Keys == c.refs.Keys
    ensures AfterInsert(c, v, offset).totalDirty == c.totalDirty
  {
  }

  lemma AbandonTotal(c: Cache, v: VacbId)
    requires v in c.refs
    ensures Abandon(c, v).totalDirty == c.totalDirty
  {
  }

  lemma ManagerTotal(c: Cache, e: ManagerEvent)
    requires Ready(c) && ManagerMay(c, e)
    ensures ManagerStep(c, e).totalDirty <= c.totalDirty
  {
  }

  lemma OtherTotal(c: Cache, e: Event)
    requires Ready(c) && Enabled(c, e)
    requires e.Client? ==> !e.client.MarkNow? && !e.client.FlushBegins? && !e.client.FlushEnds?
    ensures Step(c, e).totalDirty <= c.totalDirty
  {
    hide Abandon, AfterInsert, Without, Splice, Covering;
    match e
    case Manager(y) => ManagerTotal(c, y);
    case Client(Insert(v, offset)) => InsertTotal(c, v, offset);
    case Client(AbandonIt(v)) => AbandonTotal(c, v);
    case Client(_) =>
  }

  // ------------------------------------------------------------- the bound

  /** A multiset with at most `n` of each element of a set. */
  lemma {:induction false} Crowd(tickets: multiset<ClientId>, clients: set<ClientId>, n: nat)
    requires forall id :: tickets[id] <= n && (id in tickets ==> id in clients)
    ensures |tickets| <= n * |clients|
    decreases |clients|
  {
    if clients == {} {
      assert tickets == multiset{};
    } else {
      var id :| id in clients;
      var rest := tickets[id := 0];
      Crowd(rest, clients - {id}, n);
      assert tickets == rest[id := tickets[id]];
      assert n * |clients| == n * |clients - {id}| + n;
    }
  }

  ghost predicate TicketsOk(s: Load, l: Limits) {
    forall id :: s.tickets[id] <= l.perWrite && (id in s.tickets ==> id in s.clients)
  }

  /** Dirty pages, counting those still to come, with at most `k` writers and `f` flushes bound to
      fail at once. */
  ghost predicate Below(s: Load, l: Limits, k: nat, f: nat) {
    Weight(s) < l.threshold + PAGES_PER_VIEW * (l.perWrite * k + f + s.untested)
  }

  ghost function Weight(s: Load): (n: int) {
    s.c.totalDirty + PAGES_PER_VIEW * (|s.tickets| + s.doomed)
  }

  ghost predicate BoundInv(s: Load, l: Limits, k: nat, f: nat) {
    TicketsOk(s, l) && Below(s, l, k, f)
  }

  lemma AdmitBound(s: Load, id: ClientId, pages: nat, l: Limits, k: nat, f: nat)
    requires TicketsOk(s, l) && id !in s.clients && s.c.totalDirty + pages < l.threshold
    requires |s.clients + {id}| <= k && s.doomed <= f
    ensures var s' := s.(clients := s.clients + {id}, tickets := s.tickets[id := l.perWrite]); TicketsOk(s', l) && Below(s', l, k, f)
  {
    var s' := s.(clients := s.clients + {id}, tickets := s.tickets[id := l.perWrite]);
    Crowd(s'.tickets, s'.clients, l.perWrite);
    Monotone(l.perWrite, |s'.clients|, k);
  }

  lemma Monotone(a: nat, b: nat, c: nat)
    requires b <= c
    ensures a * b <= a * c
  {
  }

  lemma BeginIsStep(c: Cache, v: VacbId)
    requires Ready(c) && ClientMay(c, FlushBegins(v))
    ensures Accounted(c, v) && v in c.data && ClientStep(c, FlushBegins(v)) == CacheState.BeginFlush(c, v)
  {
  }

  lemma EndIsStep(c: Cache, v: VacbId, ok: bool, torn: View)
    requires Ready(c) && ClientMay(c, FlushEnds(v, ok, torn))
    ensures Accounted(c, v) && v in c.data && ClientStep(c, FlushEnds(v, ok, torn)) == CacheState.EndFlush(c, v, ok, torn)
  {
  }

  /** Apart from admission only untested marks add to the weight: others spend a ticket, and a
      flush that begins makes room for its own failure. */
  lemma MoveWeight(s: Load, m: Move, l: Limits)
    requires Ready(s.c) && Allowed(s, m, l) && !m.Admit?
    ensures Weight(After(s, m, l)) <= Weight(s) + PAGES_PER_VIEW * (After(s, m, l).untested - s.untested)
  {
    hide ClientStep, Step, CacheState.BeginFlush, CacheState.EndFlush, Ready;
    match m
    case Mark(id, v, wrote) => MarkTotal(s.c, v, wrote);
    case MarkUntested(v, wrote) => MarkTotal(s.c, v, wrote);
    case BeginFlush(v, _) => BeginIsStep(s.c, v); FlushTotal(s.c, v, true, s.c.data[v]);
    case EndFlush(v, ok, torn) => EndIsStep(s.c, v, ok, torn); FlushTotal(s.c, v, ok, torn);
    case Other(e) => OtherTotal(s.c, e);
    case Leave(id) => assert s.tickets[id := 0] <= s.tickets;
  }

  lemma MoveTickets(s: Load, m: Move, l: Limits)
    requires Ready(s.c) && Allowed(s, m, l) && TicketsOk(s, l)
    ensures TicketsOk(After(s, m, l), l)
  {
    hide ClientStep, Step, CacheState.BeginFlush, CacheState.EndFlush;
  }

  lemma MoveKeeps(s: Load, m: Move, l: Limits, k: nat, f: nat)
    requires BoundInv(s, l, k, f) && Ready(s.c) && Allowed(s, m, l)
    requires var s' := After(s, m, l); |s'.clients| <= k && s'.doomed <= f
    ensures BoundInv(After(s, m, l), l, k, f)
  {
    hide TicketsOk, Weight, Ready;
    MoveTickets(s, m, l);
    if m.Admit? {
      AdmitBound(s, m.id, Pages(m.r.bytes), l, k, f);
    } else {
      hide After, Allowed;
      MoveWeight(s, m, l);
    }
  }

  ghost predicate IsLoadRun(states: seq<Load>, moves: seq<Move>, store: map<Chunk, View>, files: set<FileId>, l: Limits) {
    && |states| == |moves| + 1 && states[0] == Load(Initial(store, files), {}, multiset{}, 0, 0)
    && forall i :: 0 <= i < |moves| ==>
         Ready(states[i].c) && Allowed(states[i], moves[i], l) && states[i + 1] == After(states[i], moves[i], l)
  }

  /** At most `k` admitted writers and `f` flushes bound to fail at any one time. */
  ghost predicate Within(states: seq<Load>, k: nat, f: nat) {
    forall i :: 0 <= i < |states| ==> |states[i].clients| <= k && states[i].doomed <= f
  }

  lemma StartsBelow(store: map<Chunk, View>, files: set<FileId>, l: Limits, k: nat, f: nat)
    requires l.threshold > 0
    ensures BoundInv(Load(Initial(store, files), {}, multiset{}, 0, 0), l, k, f)
  {
  }

  lemma {:induction false} LoadRunInv(states: seq<Load>, moves: seq<Move>, store: map<Chunk, View>, files: set<FileId>,
                                      l: Limits, k: nat, f: nat, n: nat)
    requires IsLoadRun(states, moves, store, files, l) && Within(states, k, f) && l.threshold > 0 && n < |states|
    ensures BoundInv(states[n], l, k, f)
  {
    hide After, Allowed, BoundInv, Ready, Initial;
    if n == 0 {
      StartsBelow(store, files, l, k, f);
    } else {
      LoadRunInv(states, moves, store, files, l, k, f, n - 1);
      assert states[n] == After(states[n - 1], moves[n - 1], l) && |states[n].clients| <= k && states[n].doomed <= f;
      MoveKeeps(states[n - 1], moves[n - 1], l, k, f);
    }
  }

  /** The number of dirty pages never exceeds the threshold by more than the views that admitted
      writes may still mark, the flushes under way that fail and the marks no test holds back,
      however these interleave. */
  lemma DirtyPagesBounded(states: seq<Load>, moves: seq<Move>, store: map<Chunk, View>, files: set<FileId>,
                          l: Limits, k: nat, f: nat, n: nat)
    requires IsLoadRun(states, moves, store, files, l) && Within(states, k, f) && l.threshold > 0 && n < |states|
    ensures states[n].c.totalDirty < l.threshold + PAGES_PER_VIEW * (l.perWrite * k + f + states[n].untested)
  {
    hide IsLoadRun, Within;
    LoadRunInv(states, moves, store, files, l, k, f, n);
  }

  /** With writes of at most 256 KB, one at a time, and no flush failing, dirty pages exceed the
      threshold by less than two views, beyond what no test holds back. */
  lemma OneWriterAtATime(states: seq<Load>, moves: seq<Move>, store: map<Chunk, View>, files: set<FileId>, threshold: nat, n: nat)
    requires IsLoadRun(states, moves, store, files, Limits(threshold, ViewsOf(MAX_ZERO_LENGTH))) && Within(states, 1, 0)
    requires threshold > 0 && n < |states|
    ensures states[n].c.totalDirty < threshold + 128 + PAGES_PER_VIEW * states[n].untested
  {
    hide IsLoadRun, Within;
    DirtyPagesBounded(states, moves, store, files, Limits(threshold, ViewsOf(MAX_ZERO_LENGTH)), 1, 0, n);
  }
}
