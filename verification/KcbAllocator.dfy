/** Key control blocks and delay items on top of the page pool: signatures, which catch a block freed
    twice or while in use, and the ring of recently released pages, frees into which are ignored. */
module KcbAllocator {
  import opened Collections
  import opened PagePool

  const RECENT: nat := 32

  datatype Signature = OnFreeList | InUse | Invalid

  datatype Outcome = Freed | Refused | Ignored

  /** Blocks on the free list say so; those held do not; ignored ones are still marked for freeing. */
  ghost predicate SignedOk(signature: map<Entry, Signature>, free: seq<Entry>, held: set<Entry>, leaked: set<Entry>) {
    && (forall e :: e in free ==> e in signature && signature[e] == OnFreeList)
    && (forall e :: e in held ==> e in signature && signature[e] != OnFreeList)
    && (forall e :: e in leaked ==> e in signature && signature[e] == Invalid)
  }

  class Kcbs {
    const pool: Pool
    const recent: array<Option<Page>>     // CmpFreedPageCache
    var index: nat                        // CmpFreedPageCacheIndex
    var signature: map<Entry, Signature>

    ghost predicate Valid()
      reads this, pool, recent
    {
      pool.Valid() && recent.Length == RECENT && SignedOk(signature, pool.free, pool.held, pool.leaked)
    }

    /** No live page is remembered as released. */
    ghost predicate NoneReused()
      reads pool, recent
    {
      forall p :: p in pool.count ==> Some(p) !in recent[..]
    }

    constructor (per: nat)
      requires per > 0
      ensures Valid() && NoneReused() && pool.held == {} && pool.leaked == {} && pool.free == [] && pool.count == map[] && pool.per == per
      ensures fresh(pool) && fresh(recent) && forall x :: x in recent[..] ==> x == None
    {
      pool := new Pool(per);
      recent := new Option<Page>[RECENT](i => None);
      index, signature := 0, map[];
    }

    /** CmpAllocateKeyControlBlock, with the caller's marking of the block as in use. */
    method Allocate(page: Option<Page>) returns (r: Option<Entry>)
      requires Valid() && (page.Some? ==> page.value !in pool.count)
      modifies this, pool
      ensures Valid() && pool.leaked == old(pool.leaked)
      ensures r.None? ==> old(pool.free) == [] && page.None? && pool.held == old(pool.held)
      ensures r.Some? ==> r.value !in old(pool.held) && pool.held == old(pool.held) + {r.value}
      ensures r.Some? ==> r.value in signature && signature[r.value] == InUse
      ensures r.Some? && old(pool.free) == [] ==> page.Some? && r.value == Entry(page.value, 0) && pool.free == Fill(page.value, pool.per)[1..]
                                                  && pool.count.Keys == old(pool.count).Keys + {page.value}
      ensures old(NoneReused()) && (page.Some? ==> page !in recent[..]) ==> NoneReused()
    {
      hide PoolOk, SignedOk;
      if pool.free == [] && page.Some? {
        FillSigned(pool, signature, page.value);
        signature := signature + map e | e in Fill(page.value, pool.per) :: OnFreeList;
      } else if pool.free != [] {
        PopSigned(pool, signature);
      }
      r := pool.TakeEntry(page);
      if r.Some? {
        signature := signature[r.value := InUse];
      }
    }

    /** CmpCleanUpKcbCacheWithLock marks a block before it is freed. */
    method Invalidate(e: Entry)
      requires Valid() && e in pool.held
      modifies this
      ensures Valid() && signature == old(signature)[e := Invalid]
    {
      assert Placed(pool.per, pool.count, pool.free, pool.held, pool.leaked, e);
      signature := signature[e := Invalid];
    }

    /** The search of CmpFreedPageCache. */
    method WasReleased(p: Page) returns (found: bool)
      requires recent.Length == RECENT
      ensures found <==> Some(p) in recent[..]
    {
      var j := 0;
      while j < RECENT
        invariant j <= RECENT && Some(p) !in recent[..j]
      {
        if recent[j] == Some(p) {
          return true;
        }
        assert recent[..j + 1] == recent[..j] + [recent[j]];
        j := j + 1;
      }
      assert recent[..] == recent[..RECENT];
      found := false;
    }

    /** CmpFreeKeyControlBlock for a block of a live page. A block that is on the free list or in
        use is left alone; one marked for freeing returns to the list exactly when its page's
        address is not that of a recently released page. */
    method Free(e: Entry) returns (outcome: Outcome)
      requires Valid() && e.page in pool.count && e.index < pool.per
      modifies this, pool, recent
      ensures Valid() && e in old(signature)
      ensures outcome == Refused <==> old(signature)[e] != Invalid
      ensures outcome == Ignored <==> old(signature)[e] == Invalid && Some(e.page) in old(recent[..])
      ensures outcome == Refused ==> Same(old(pool.free), old(pool.count), old(pool.held), old(pool.leaked)) && signature == old(signature)
      ensures outcome == Ignored ==> Same(old(pool.free), old(pool.count), old(pool.held) - {e}, old(pool.leaked) + {e})
      ensures outcome == Freed ==> pool.held == old(pool.held) - {e} && pool.leaked == old(pool.leaked) - {e}
      ensures outcome == Freed ==> (e.page !in pool.count <==> OthersFree(old(pool.free), e, pool.per))
      ensures outcome == Freed && e.page !in pool.count ==> pool.count.Keys == old(pool.count).Keys - {e.page}
      ensures outcome == Freed && e.page in pool.count ==> pool.free == old(pool.free) + [e] && recent[..] == old(recent[..])
      ensures outcome == Freed && e.page !in pool.count ==>
                && recent[..] == old(recent[..])[index % RECENT := Some(e.page)]
                && pool.free == Without(old(pool.free) + [e], e.page, pool.per)
                && (forall x :: x in pool.held || x in pool.leaked ==> x.page != e.page)
      ensures old(NoneReused()) ==> outcome != Ignored && NoneReused()
    {
      hide PoolOk, SignedOk;
      SignedOrNot(pool, signature, e);
      if signature[e] == OnFreeList {
        return Refused;
      }
      if signature[e] == InUse {
        return Refused;
      }
      var stale := WasReleased(e.page);
      if stale {
        IgnoredSigned(pool, signature, e);
        if e in pool.held {
          pool.Ignore(e);
        }
        return Ignored;
      }
      PutSigned(pool, signature, e);
      var released := pool.PutEntry(e);
      signature := signature[e := OnFreeList];
      if released {
        index := index + 1;
        recent[index % RECENT] := Some(e.page);
      }
      outcome := Freed;
    }

    ghost predicate Same(free: seq<Entry>, count: map<Page, nat>, held: set<Entry>, leaked: set<Entry>)
      reads pool
    {
      pool.free == free && pool.count == count && pool.held == held && pool.leaked == leaked
    }
  }

  /** All other entries of the page are free. */
  ghost predicate OthersFree(free: seq<Entry>, e: Entry, per: nat) {
    forall i: nat :: i < per && Entry(e.page, i) != e ==> Entry(e.page, i) in free
  }

  /** A block is allocated from a new page, freed, and allocated again when the kernel pool gives
      the same page; its second free is ignored. The block is in nobody's hands and on no list. */
  method IgnoredAfterReuse(per: nat, p: Page) returns (outcome: Outcome, k: Kcbs)
    requires per > 0
    ensures outcome == Ignored && k.Valid() && Entry(p, 0) in k.pool.leaked && Entry(p, 0) !in k.pool.free
  {
    hide PoolOk, SignedOk, Without;
    k := new Kcbs(per);
    var e := k.Allocate(Some(p));
    RestIsFree(p, per);
    k.Invalidate(e.value);
    outcome := k.Free(e.value);
    RestGoes(p, per);
    assert k.recent[k.index % RECENT] == Some(p);
    e := k.Allocate(Some(p));
    k.Invalidate(e.value);
    outcome := k.Free(e.value);
    LeakedIsNotFree(k.pool, Entry(p, 0));
  }

  lemma RestIsFree(p: Page, per: nat)
    requires per > 0
    ensures OthersFree(Fill(p, per)[1..], Entry(p, 0), per)
  {
    forall i: nat | i < per && Entry(p, i) != Entry(p, 0)
      ensures Entry(p, i) in Fill(p, per)[1..]
    {
      assert Fill(p, per)[1..][i - 1] == Entry(p, i);
    }
  }

  lemma RestGoes(p: Page, per: nat)
    requires per > 0
    ensures Without(Fill(p, per)[1..] + [Entry(p, 0)], p, per) == []
  {
    WithoutAll(Fill(p, per)[1..] + [Entry(p, 0)], p, per);
  }

  lemma {:induction false} WithoutAll(s: seq<Entry>, p: Page, n: nat)
    requires forall e :: e in s ==> e.page == p && e.index < n
    ensures Without(s, p, n) == []
  {
    if s == [] {
    } else {
      WithoutAll(s[1..], p, n);
    }
  }

  lemma LeakedIsNotFree(pool: Pool, e: Entry)
    requires pool.Valid() && e in pool.leaked
    ensures e !in pool.free
  {
    assert Placed(pool.per, pool.count, pool.free, pool.held, pool.leaked, e);
  }

  lemma SignedOrNot(pool: Pool, signature: map<Entry, Signature>, e: Entry)
    requires pool.Valid() && SignedOk(signature, pool.free, pool.held, pool.leaked) && e.page in pool.count && e.index < pool.per
    ensures e in signature && (signature[e] == OnFreeList <==> e in pool.free)
    ensures signature[e] == Invalid ==> e in pool.held || e in pool.leaked
  {
    assert Placed(pool.per, pool.count, pool.free, pool.held, pool.leaked, e);
  }

  lemma IgnoredSigned(pool: Pool, signature: map<Entry, Signature>, e: Entry)
    requires pool.Valid() && SignedOk(signature, pool.free, pool.held, pool.leaked)
    requires (e in pool.held || e in pool.leaked) && e in signature && signature[e] == Invalid
    ensures SignedOk(signature, pool.free, pool.held - {e}, pool.leaked + {e})
    ensures e in pool.leaked ==> pool.held - {e} == pool.held && pool.leaked + {e} == pool.leaked
  {
    assert Placed(pool.per, pool.count, pool.free, pool.held, pool.leaked, e);
  }

  lemma PutSigned(pool: Pool, signature: map<Entry, Signature>, e: Entry)
    requires pool.Valid() && SignedOk(signature, pool.free, pool.held, pool.leaked)
    requires (e in pool.held || e in pool.leaked) && e in signature && signature[e] == Invalid
    ensures SignedOk(signature[e := OnFreeList], pool.free + [e], pool.held - {e}, pool.leaked - {e})
    ensures SignedOk(signature[e := OnFreeList], Without(pool.free + [e], e.page, pool.per), pool.held - {e}, pool.leaked - {e})
  {
    forall x | x in Without(pool.free + [e], e.page, pool.per)
      ensures x in pool.free + [e]
    {
      WithoutMembers(pool.free + [e], e.page, pool.per, x);
    }
  }

  /** CmpFreeDelayItem: delay items have no signature, so a caller must own the item it frees; the
      ring is consulted, but a released page of items is not entered in it. */
  method FreeDelayItem(pool: Pool, recent: seq<Option<Page>>, e: Entry) returns (returned: bool, released: bool)
    requires pool.Valid() && e in pool.held
    modifies pool
    ensures pool.Valid() && pool.held == old(pool.held) - {e}
    ensures returned <==> Some(e.page) !in recent
    ensures released <==> returned && OthersFree(old(pool.free), e, pool.per)
    ensures !returned ==> !released && pool.leaked == old(pool.leaked) + {e} && pool.free == old(pool.free) && pool.count == old(pool.count)
    ensures returned && !released ==> pool.free == old(pool.free) + [e] && pool.count.Keys == old(pool.count).Keys
    ensures released ==> pool.count.Keys == old(pool.count).Keys - {e.page}
                         && forall x :: x in pool.held || x in pool.leaked || x in pool.free ==> x.page != e.page
  {
    if Some(e.page) in recent {
      pool.Ignore(e);
      return false, false;
    }
    released := pool.PutEntry(e);
    returned := true;
  }

  lemma PopSigned(pool: Pool, signature: map<Entry, Signature>)
    requires pool.Valid() && pool.free != [] && SignedOk(signature, pool.free, pool.held, pool.leaked)
    ensures SignedOk(signature[pool.free[0] := InUse], pool.free[1..], pool.held + {pool.free[0]}, pool.leaked)
  {
  }

  /** A new page's blocks are signed, and none of them was held or leaked. */
  lemma FillSigned(pool: Pool, signature: map<Entry, Signature>, p: Page)
    requires pool.Valid() && pool.free == [] && p !in pool.count && SignedOk(signature, [], pool.held, pool.leaked)
    ensures var fill := Fill(p, pool.per);
            SignedOk((signature + map e | e in fill :: OnFreeList)[Entry(p, 0) := InUse], fill[1..], pool.held + {Entry(p, 0)}, pool.leaked)
  {
    forall e | e in pool.held || e in pool.leaked
      ensures e.page != p
    {
      assert Placed(pool.per, pool.count, pool.free, pool.held, pool.leaked, e);
    }
  }
}
