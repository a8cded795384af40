/** The buffer control blocks of one file: CcMapData, CcPinRead, CcPinMappedData, CcRepinBcb and the
    calls that undo them, on top of the cache's views. */
module Pinning {
  import opened Collections
  import opened CacheState
  import opened CacheLists
  import opened CacheSteps
  import opened CacheDrop
  import opened CacheEvents
  import opened CacheManager

  type BcbId = nat

  /** Of INTERNAL_BCB: the mapped range, the view, and the two counts. */
  datatype Bcb = Bcb(offset: nat, length: nat, vacb: VacbId, pinCount: int, refCount: int)

  /** What a caller owes for a BCB it was given. */
  datatype Token = Mapped | Pinned | Repinned

  /** The BCB list, the tokens that are out, and the views held by calls that have looked for a BCB,
      found none and not yet put one on the list. */
  datatype Book = Book(list: seq<BcbId>, bcb: map<BcbId, Bcb>, next: BcbId, tokens: multiset<(BcbId, Token)>,
                       spare: multiset<VacbId>)

  /** RefCount counts all tokens, PinCount those of pins, and a BCB is not mapped and pinned at
      the same time. */
  ghost predicate Counted(k: Book, b: BcbId) {
    var maps, pins, repins := k.tokens[(b, Mapped)], k.tokens[(b, Pinned)], k.tokens[(b, Repinned)];
    if b in k.bcb then
      && k.bcb[b].refCount == maps + pins + repins > 0 && k.bcb[b].pinCount == pins && (maps > 0 ==> pins == 0)
    else maps + pins + repins == 0
  }

  ghost predicate BookLists(k: Book) {
    Distinct(k.list) && (forall b :: b in k.list <==> b in k.bcb) && (forall b :: b in k.bcb ==> b < k.next)
  }

  ghost predicate BookOk(k: Book) {
    BookLists(k) && forall b :: Counted(k, b)
  }

  /** The views the BCBs refer to, one reference each. */
  ghost function Owned(list: seq<BcbId>, bcb: map<BcbId, Bcb>): (vs: multiset<VacbId>)
    requires forall b :: b in list ==> b in bcb
  {
    if list == [] then multiset{} else multiset{bcb[list[0]].vacb} + Owned(list[1..], bcb)
  }

  /** A BCB lies inside the one chunk its view maps. */
  ghost predicate Inside(b: Bcb, c: Cache, file: FileId) {
    && b.vacb in c.h.linked && b.vacb in c.chunk && c.chunk[b.vacb] == Chunk(file, RoundDown(b.offset))
    && b.offset % GRANULARITY + b.length <= GRANULARITY
  }

  ghost predicate Anchored(k: Book, c: Cache, file: FileId)
    requires forall b :: b in k.list ==> b in k.bcb
  {
    && (forall b :: b in k.bcb ==> Inside(k.bcb[b], c, file)) && (forall v :: v in k.spare ==> v in c.h.linked)
    && c.h.writers + Owned(k.list, k.bcb) + k.spare <= c.h.holds
  }

  // ------------------------------------------------------------- the steps on the book

  function Bump(e: Bcb, t: Token, d: int): (e': Bcb) {
    e.(refCount := e.refCount + d, pinCount := e.pinCount + if t.Pinned? then d else 0)
  }

  /** One more token for a BCB. */
  function Give(k: Book, b: BcbId, t: Token): (k': Book)
    requires b in k.bcb
  {
    k.(bcb := k.bcb[b := Bump(k.bcb[b], t, 1)], tokens := k.tokens + multiset{(b, t)})
  }

  /** A new BCB with its first token. */
  function Add(k: Book, offset: nat, length: nat, v: VacbId, t: Token): (k': Book) {
    Book(k.list + [k.next], k.bcb[k.next := Bump(Bcb(offset, length, v, 0, 0), t, 1)], k.next + 1,
         k.tokens + multiset{(k.next, t)}, k.spare)
  }

  /** A token is given back; the BCB goes with its last. */
  function Take(k: Book, b: BcbId, t: Token): (k': Book)
    requires b in k.bcb
  {
    if k.bcb[b].refCount == 1 then
      Book(Without(k.list, b), k.bcb - {b}, k.next, k.tokens - multiset{(b, t)}, k.spare)
    else
      k.(bcb := k.bcb[b := Bump(k.bcb[b], t, -1)], tokens := k.tokens - multiset{(b, t)})
  }

  function Reserve(k: Book, v: VacbId): (k': Book) {
    k.(spare := k.spare + multiset{v})
  }

  function Unreserve(k: Book, v: VacbId): (k': Book) {
    k.(spare := k.spare - multiset{v})
  }

  lemma ReserveKeeps(k: Book, v: VacbId)
    requires BookOk(k)
    ensures BookOk(Reserve(k, v)) && BookOk(Unreserve(k, v))
  {
    forall b
      ensures Counted(Reserve(k, v), b) && Counted(Unreserve(k, v), b)
    {
      assert Counted(k, b);
    }
  }

  lemma GiveKeeps(k: Book, b: BcbId, t: Token)
    requires BookOk(k) && b in k.bcb && (t.Mapped? ==> k.bcb[b].pinCount == 0) && (t.Pinned? ==> k.bcb[b].pinCount > 0)
    ensures BookOk(Give(k, b, t))
  {
    var k' := Give(k, b, t);
    forall x
      ensures Counted(k', x)
    {
      assert Counted(k, x) && Counted(k, b);
    }
  }

  lemma AddKeeps(k: Book, offset: nat, length: nat, v: VacbId, t: Token)
    requires BookOk(k)
    ensures BookOk(Add(k, offset, length, v, t))
  {
    var k' := Add(k, offset, length, v, t);
    assert k.next !in k.bcb && k.next !in k.list;
    forall x
      ensures Counted(k', x)
    {
      assert Counted(k, x) && Counted(k, k.next);
    }
  }

  lemma TakeCounted(k: Book, b: BcbId, t: Token, x: BcbId)
    requires b in k.bcb && (b, t) in k.tokens && Counted(k, b) && Counted(k, x)
    ensures Counted(Take(k, b, t), x)
  {
    hide Without;
  }

  /** The test of CcUnpinData tells map and pin tokens apart. */
  lemma TakeKeeps(k: Book, b: BcbId, t: Token)
    requires BookOk(k) && (b, t) in k.tokens
    ensures b in k.bcb && BookOk(Take(k, b, t))
    ensures t.Pinned? ==> k.bcb[b].pinCount != 0
    ensures t.Mapped? ==> k.bcb[b].pinCount == 0
  {
    hide Without;
    assert Counted(k, b);
    WithoutDistinct(k.list, b);
    forall x
      ensures Counted(Take(k, b, t), x)
    {
      TakeCounted(k, b, t, x);
    }
    assert BookLists(Take(k, b, t));
  }

  // ------------------------------------------------------------- references to views

  lemma {:induction false} OwnedAppend(list: seq<BcbId>, bcb: map<BcbId, Bcb>, b: BcbId)
    requires b in bcb && forall x :: x in list ==> x in bcb
    ensures Owned(list + [b], bcb) == Owned(list, bcb) + multiset{bcb[b].vacb}
  {
    if list == [] {
      assert list + [b] == [b];
    } else {
      OwnedAppend(list[1..], bcb, b);
      assert (list + [b])[1..] == list[1..] + [b];
    }
  }

  lemma {:induction false} OwnedSame(list: seq<BcbId>, bcb: map<BcbId, Bcb>, bcb': map<BcbId, Bcb>)
    requires forall x :: x in list ==> x in bcb && x in bcb' && bcb'[x].vacb == bcb[x].vacb
    ensures Owned(list, bcb') == Owned(list, bcb)
  {
    if list == [] {
    } else {
      OwnedSame(list[1..], bcb, bcb');
    }
  }

  lemma {:induction false} OwnedWithout(list: seq<BcbId>, bcb: map<BcbId, Bcb>, b: BcbId)
    requires Distinct(list) && b in list && forall x :: x in list ==> x in bcb
    ensures Owned(Without(list, b), bcb) == Owned(list, bcb) - multiset{bcb[b].vacb}
    ensures bcb[b].vacb in Owned(list, bcb)
  {
    if list[0] == b {
      assert b !in list[1..];
      WithoutAbsent(list[1..], b);
    } else {
      OwnedWithout(list[1..], bcb, b);
      assert Without(list, b) == [list[0]] + Without(list[1..], b);
      assert ([list[0]] + Without(list[1..], b))[1..] == Without(list[1..], b);
    }
  }

  lemma {:induction false} WithoutAbsent(list: seq<BcbId>, b: BcbId)
    requires b !in list
    ensures Without(list, b) == list
  {
    if list == [] {
    } else {
      WithoutAbsent(list[1..], b);
    }
  }

  lemma GiveAnchored(k: Book, c: Cache, file: FileId, b: BcbId, t: Token)
    requires BookOk(k) && Anchored(k, c, file) && b in k.bcb
    ensures (forall x :: x in Give(k, b, t).list ==> x in Give(k, b, t).bcb) && Anchored(Give(k, b, t), c, file)
  {
    OwnedSame(k.list, k.bcb, Give(k, b, t).bcb);
  }

  /** A view is acquired, while others may have been evicted. */
  lemma ReserveAnchored(k: Book, c: Cache, d: Cache, file: FileId, offset: nat, v: VacbId)
    requires BookOk(k) && Anchored(k, c, file) && SameFile(c, d) && KeepsHeld(c, d) && Acquired(c, d, file, offset, v)
    ensures Anchored(Reserve(k, v), d, file)
  {
    hide SameFile, Counted, Owned;
    SameWriters(c, d);
    forall b | b in k.bcb
      ensures Inside(k.bcb[b], d, file)
    {
      OwnedHas(k.list, k.bcb, b);
    }
  }

  lemma AddLists(k: Book, offset: nat, length: nat, v: VacbId, t: Token)
    ensures var k' := Add(k, offset, length, v, t);
            && k'.list == k.list + [k.next] && k'.bcb == k.bcb[k.next := Bump(Bcb(offset, length, v, 0, 0), t, 1)]
            && k'.spare == k.spare
  {
  }

  lemma OwnedAfterAdd(k: Book, offset: nat, length: nat, v: VacbId, t: Token)
    requires BookLists(k)
    ensures var k' := Add(k, offset, length, v, t);
            (forall x :: x in k'.list ==> x in k'.bcb) && Owned(k'.list, k'.bcb) == Owned(k.list, k.bcb) + multiset{v}
  {
    hide Owned, Add;
    var k' := Add(k, offset, length, v, t);
    AddLists(k, offset, length, v, t);
    assert k.next !in k.bcb && k.next !in k.list;
    OwnedSame(k.list, k.bcb, k'.bcb);
    OwnedAppend(k.list, k'.bcb, k.next);
  }

  /** A BCB is added for a view that was acquired. */
  lemma AddAnchored(k: Book, c: Cache, file: FileId, offset: nat, length: nat, v: VacbId, t: Token)
    requires BookOk(k) && Anchored(k, c, file) && offset % GRANULARITY + length <= GRANULARITY
    requires v in k.spare && v in c.chunk && c.chunk[v] == Chunk(file, RoundDown(offset))
    ensures var k' := Add(Unreserve(k, v), offset, length, v, t);
            (forall x :: x in k'.list ==> x in k'.bcb) && Anchored(k', c, file)
  {
    hide Counted, Owned, Add;
    AddLists(Unreserve(k, v), offset, length, v, t);
    OwnedAfterAdd(Unreserve(k, v), offset, length, v, t);
  }

  /** A view that was acquired is given back. */
  lemma UnreserveAnchored(k: Book, c: Cache, file: FileId, v: VacbId)
    requires BookOk(k) && Anchored(k, c, file) && v in k.spare && Inv(c)
    ensures Releasable(c, v, false) && Accounted(c, v) && Anchored(Unreserve(k, v), Release(c, v, false), file)
  {
    hide Inv, Release, Counted, Owned;
    assert c.h.writers[v] + k.spare[v] <= (c.h.writers + Owned(k.list, k.bcb) + k.spare)[v] <= c.h.holds[v];
    ReleaseFacts(c, v);
  }

  lemma SameWriters(c: Cache, d: Cache)
    requires SameFile(c, d)
    ensures d.h.writers == c.h.writers
  {
  }

  /** Evictions leave the BCBs' views alone. */
  lemma StaysAnchored(k: Book, c: Cache, d: Cache, file: FileId)
    requires BookOk(k) && Anchored(k, c, file) && SameFile(c, d) && KeepsHeld(c, d) && d.h.holds == c.h.holds
    ensures Anchored(k, d, file)
  {
    forall b | b in k.bcb
      ensures Inside(k.bcb[b], d, file)
    {
      OwnedHas(k.list, k.bcb, b);
    }
  }

  lemma {:induction false} OwnedHas(list: seq<BcbId>, bcb: map<BcbId, Bcb>, b: BcbId)
    requires b in list && forall x :: x in list ==> x in bcb
    ensures bcb[b].vacb in Owned(list, bcb)
  {
    if list[0] == b {
    } else {
      OwnedHas(list[1..], bcb, b);
    }
  }

  /** A plain release of one reference to a view. */
  lemma ReleaseFacts(c: Cache, v: VacbId)
    requires Inv(c) && v in c.h.linked && c.h.writers[v] < c.h.holds[v]
    ensures Accounted(c, v) && Releasable(c, v, false) && Inv(Release(c, v, false))
    ensures var d := Release(c, v, false);
            && d.h == c.h.(holds := c.h.holds - multiset{v}) && d.chunk == c.chunk && d.lists == c.lists && d.data == c.data
            && d.store == c.store
  {
    hide Inv;
    ReleaseKeeps(c, v, false);
  }

  lemma OwnedView(k: Book, c: Cache, file: FileId, b: BcbId)
    requires BookOk(k) && Anchored(k, c, file) && b in k.bcb
    ensures var v := k.bcb[b].vacb; v in c.h.linked && c.h.writers[v] < c.h.holds[v]
  {
    OwnedHas(k.list, k.bcb, b);
  }

  lemma TakeOneAnchored(k: Book, c: Cache, file: FileId, b: BcbId, t: Token)
    requires BookOk(k) && Anchored(k, c, file) && b in k.bcb && k.bcb[b].refCount != 1
    ensures (forall x :: x in Take(k, b, t).list ==> x in Take(k, b, t).bcb) && Anchored(Take(k, b, t), c, file)
  {
    OwnedSame(k.list, k.bcb, Take(k, b, t).bcb);
  }

  lemma OwnedAfterTake(k: Book, b: BcbId, t: Token)
    requires BookLists(k) && b in k.bcb && k.bcb[b].refCount == 1
    ensures var k' := Take(k, b, t);
            && (forall x :: x in k'.list ==> x in k'.bcb)
            && Owned(k'.list, k'.bcb) == Owned(k.list, k.bcb) - multiset{k.bcb[b].vacb} && k'.bcb == k.bcb - {b}
            && k'.spare == k.spare
  {
    hide Without;
    OwnedWithout(k.list, k.bcb, b);
    OwnedSame(Without(k.list, b), k.bcb, k.bcb - {b});
  }

  lemma OneLess(writers: multiset<VacbId>, owned: multiset<VacbId>, spare: multiset<VacbId>, holds: multiset<VacbId>, v: VacbId)
    requires writers + owned + spare <= holds && v in owned
    ensures writers + (owned - multiset{v}) + spare <= holds - multiset{v}
  {
  }

  lemma TakeLastAnchored(k: Book, c: Cache, file: FileId, b: BcbId, t: Token)
    requires BookOk(k) && Anchored(k, c, file) && b in k.bcb && k.bcb[b].refCount == 1 && Inv(c)
    ensures forall x :: x in Take(k, b, t).list ==> x in Take(k, b, t).bcb
    ensures var v := k.bcb[b].vacb;
            Releasable(c, v, false) && Accounted(c, v) && Anchored(Take(k, b, t), Release(c, v, false), file)
  {
    hide Inv, Take, Release, Counted, Owned;
    OwnedView(k, c, file, b);
    OwnedAfterTake(k, b, t);
    OwnedHas(k.list, k.bcb, b);
    OneLess(c.h.writers, Owned(k.list, k.bcb), k.spare, c.h.holds, k.bcb[b].vacb);
    ReleaseFacts(c, k.bcb[b].vacb);
  }
}
