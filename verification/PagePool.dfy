/** The registry's page-pooled allocators: key control blocks and delayed-close items are cut from
    pages, kept on a free list, and a page is given back when all its entries are free. */
module PagePool {
  import opened Collections

  type Page = nat

  /** Entry `index` of a page. */
  datatype Entry = Entry(page: Page, index: nat)

  ghost function FreeOf(free: seq<Entry>, p: Page): (es: set<Entry>) {
    set e | e in free && e.page == p
  }

  ghost function All(p: Page, n: nat): (es: set<Entry>) {
    set i | 0 <= i < n :: Entry(p, i)
  }

  /** An entry of a live page is in one place: free, held or leaked. */
  ghost predicate Placed(per: nat, count: map<Page, nat>, free: seq<Entry>, held: set<Entry>, leaked: set<Entry>, e: Entry) {
    && (e in free ==> e !in held && e !in leaked) && (e in held ==> e !in leaked)
    && (e in free || e in held || e in leaked <==> e.page in count && e.index < per)
  }

  /** A page's FreeCount is the number of its free entries, and not all of them. */
  ghost predicate Counted(per: nat, count: map<Page, nat>, free: seq<Entry>, p: Page) {
    p in count ==> count[p] == |FreeOf(free, p)| < per
  }

  ghost predicate PoolOk(per: nat, count: map<Page, nat>, free: seq<Entry>, held: set<Entry>, leaked: set<Entry>) {
    && Distinct(free)
    && (forall e :: Placed(per, count, free, held, leaked, e))
    && (forall p :: Counted(per, count, free, p))
  }

  // ------------------------------------------------------------- counting

  lemma {:induction false} AllSize(p: Page, n: nat)
    ensures |All(p, n)| == n
  {
    if n == 0 {
      assert All(p, 0) == {};
    } else {
      AllSize(p, n - 1);
      assert All(p, n) == All(p, n - 1) + {Entry(p, n - 1)};
    }
  }

  /** All entries of a page are free exactly when its count says so. */
  lemma FullPage(per: nat, free: seq<Entry>, p: Page)
    requires forall e :: e in free && e.page == p ==> e.index < per
    ensures |FreeOf(free, p)| <= per
    ensures |FreeOf(free, p)| == per ==> forall i: nat :: i < per ==> Entry(p, i) in free
  {
    AllSize(p, per);
    SubsetSize(FreeOf(free, p), All(p, per));
    if |FreeOf(free, p)| == per {
      forall i: nat | i < per
        ensures Entry(p, i) in free
      {
        assert Entry(p, i) in All(p, per);
      }
    }
  }

  lemma FreeOfAppend(free: seq<Entry>, e: Entry, p: Page)
    requires e !in free
    ensures FreeOf(free + [e], p) == if e.page == p then FreeOf(free, p) + {e} else FreeOf(free, p)
    ensures |FreeOf(free + [e], p)| == |FreeOf(free, p)| + if e.page == p then 1 else 0
  {
  }

  lemma FreeOfTail(free: seq<Entry>, p: Page)
    requires free != [] && Distinct(free)
    ensures FreeOf(free[1..], p) == if free[0].page == p then FreeOf(free, p) - {free[0]} else FreeOf(free, p)
    ensures |FreeOf(free[1..], p)| == |FreeOf(free, p)| - if free[0].page == p then 1 else 0
  {
  }

  // ------------------------------------------------------------- taking an entry off the list

  function Remove(s: seq<Entry>, e: Entry): (r: seq<Entry>) {
    if s == [] then [] else if s[0] == e then Remove(s[1..], e) else [s[0]] + Remove(s[1..], e)
  }

  /** The list without the entries of a page whose index is below `n`. */
  function Without(s: seq<Entry>, p: Page, n: nat): (r: seq<Entry>) {
    if s == [] then []
    else if s[0].page == p && s[0].index < n then Without(s[1..], p, n)
    else [s[0]] + Without(s[1..], p, n)
  }

  lemma {:induction false} WithoutMembers(s: seq<Entry>, p: Page, n: nat, e: Entry)
    ensures e in Without(s, p, n) <==> e in s && !(e.page == p && e.index < n)
  {
    if s == [] {
    } else {
      WithoutMembers(s[1..], p, n, e);
      assert s == [s[0]] + s[1..];
    }
  }

  lemma {:induction false} RemoveNext(s: seq<Entry>, p: Page, n: nat)
    ensures Remove(Without(s, p, n), Entry(p, n)) == Without(s, p, n + 1)
  {
    if s == [] {
    } else {
      RemoveNext(s[1..], p, n);
      if !(s[0].page == p && s[0].index < n) {
        var r := Without(s[1..], p, n);
        assert Without(s, p, n) == [s[0]] + r && ([s[0]] + r)[1..] == r;
      }
    }
  }

  lemma {:induction false} WithoutNone(s: seq<Entry>, p: Page)
    ensures Without(s, p, 0) == s
  {
    if s == [] {
    } else {
      WithoutNone(s[1..], p);
    }
  }

  lemma {:induction false} WithoutDistinct(s: seq<Entry>, p: Page, n: nat)
    requires Distinct(s)
    ensures Distinct(Without(s, p, n))
  {
    if s == [] {
    } else {
      WithoutDistinct(s[1..], p, n);
      WithoutMembers(s[1..], p, n, s[0]);
    }
  }

  // ------------------------------------------------------------- what the steps keep

  /** A new page, all free. */
  function Fill(p: Page, n: nat): (es: seq<Entry>)
    ensures |es| == n && forall i :: 0 <= i < n ==> es[i] == Entry(p, i)
  {
    seq(n, i requires 0 <= i => Entry(p, i))
  }

  lemma FillAll(p: Page, n: nat)
    ensures FreeOf(Fill(p, n), p) == All(p, n) && |FreeOf(Fill(p, n), p)| == n
  {
    forall i | 0 <= i < n
      ensures Entry(p, i) in Fill(p, n)
    {
      assert Fill(p, n)[i] == Entry(p, i);
    }
    AllSize(p, n);
  }

  /** The first free entry goes to a caller. */
  lemma PopKeeps(per: nat, count: map<Page, nat>, free: seq<Entry>, held: set<Entry>, leaked: set<Entry>)
    requires PoolOk(per, count, free, held, leaked) && free != []
    ensures free[0].page in count && count[free[0].page] > 0
    ensures var p := free[0].page; PoolOk(per, count[p := count[p] - 1], free[1..], held + {free[0]}, leaked)
  {
    var e := free[0];
    assert free == [e] + free[1..];
    assert Placed(per, count, free, held, leaked, e) && Counted(per, count, free, e.page) && e in FreeOf(free, e.page);
    var count' := count[e.page := count[e.page] - 1];
    forall p
      ensures Counted(per, count', free[1..], p)
    {
      assert Counted(per, count, free, p);
      FreeOfTail(free, p);
    }
    forall x
      ensures Placed(per, count', free[1..], held + {e}, leaked, x)
    {
      assert Placed(per, count, free, held, leaked, x);
    }
  }

  /** An entry comes back to a page that has others out. */
  lemma PushKeeps(per: nat, count: map<Page, nat>, free: seq<Entry>, held: set<Entry>, leaked: set<Entry>, e: Entry)
    requires PoolOk(per, count, free, held, leaked) && (e in held || e in leaked)
    ensures e.page in count && count[e.page] < per && e !in free
    ensures count[e.page] + 1 < per ==>
              PoolOk(per, count[e.page := count[e.page] + 1], free + [e], held - {e}, leaked - {e})
  {
    assert Placed(per, count, free, held, leaked, e) && Counted(per, count, free, e.page);
    if count[e.page] + 1 < per {
      var count' := count[e.page := count[e.page] + 1];
      forall p
        ensures Counted(per, count', free + [e], p)
      {
        assert Counted(per, count, free, p);
        FreeOfAppend(free, e, p);
      }
      forall x
        ensures Placed(per, count', free + [e], held - {e}, leaked - {e}, x)
      {
        assert Placed(per, count, free, held, leaked, x);
      }
    }
  }

  /** With the last entry back nobody holds any of the page, and it can go. */
  lemma ReleaseKeeps(per: nat, count: map<Page, nat>, free: seq<Entry>, held: set<Entry>, leaked: set<Entry>, e: Entry)
    requires PoolOk(per, count, free, held, leaked) && (e in held || e in leaked) && e.page in count && count[e.page] + 1 == per
    ensures PoolOk(per, count - {e.page}, Without(free + [e], e.page, per), held - {e}, leaked - {e})
    ensures forall x :: x in held - {e} || x in leaked - {e} ==> x.page != e.page
  {
    var p, free', held', leaked' := e.page, Without(free + [e], e.page, per), held - {e}, leaked - {e};
    assert Placed(per, count, free, held, leaked, e) && Counted(per, count, free, p);
    FreeOfAppend(free, e, p);
    forall x | x in free + [e] && x.page == p
      ensures x.index < per
    {
      assert Placed(per, count, free, held, leaked, x);
    }
    FullPage(per, free + [e], p);
    forall x
      ensures Placed(per, count - {p}, free', held', leaked', x) && (x in held' || x in leaked' ==> x.page != p)
    {
      assert Placed(per, count, free, held, leaked, x);
      WithoutMembers(free + [e], p, per, x);
    }
    WithoutDistinct(free + [e], p, per);
    forall q
      ensures Counted(per, count - {p}, free', q)
    {
      if q != p {
        assert Counted(per, count, free, q);
        FreeOfAppend(free, e, q);
        FreeOfOther(free + [e], p, per, q);
      }
    }
  }

  lemma FreeOfOther(s: seq<Entry>, p: Page, n: nat, q: Page)
    requires q != p
    ensures FreeOf(Without(s, p, n), q) == FreeOf(s, q)
  {
    forall e
      ensures e in Without(s, p, n) <==> e in s && !(e.page == p && e.index < n)
    {
      WithoutMembers(s, p, n, e);
    }
  }

  /** A new page comes in when no entry is free. */
  lemma FillKeeps(per: nat, count: map<Page, nat>, held: set<Entry>, leaked: set<Entry>, p: Page)
    requires PoolOk(per, count, [], held, leaked) && p !in count && per > 0
    ensures var rest := Fill(p, per)[1..]; PoolOk(per, count[p := per - 1], rest, held + {Entry(p, 0)}, leaked)
  {
    var free, count' := Fill(p, per), count[p := per - 1];
    assert free == [Entry(p, 0)] + free[1..];
    FillAll(p, per);
    forall q
      ensures Counted(per, count', free[1..], q)
    {
      assert Counted(per, count, [], q);
      FreeOfTail(free, q);
      if q != p {
        assert FreeOf(free, q) == {} == FreeOf([], q);
      }
    }
    var held' := held + {Entry(p, 0)};
    forall x
      ensures Placed(per, count', free[1..], held', leaked, x)
    {
      assert Placed(per, count, [], held, leaked, x);
      if x.page == p && 0 < x.index < per {
        assert free[1..][x.index - 1] == x;
      }
    }
  }

  // ------------------------------------------------------------- the pool

  class Pool {
    const per: nat
    var count: map<Page, nat>   // FreeCount of each live page
    var free: seq<Entry>        // the free list
    ghost var held: set<Entry>
    ghost var leaked: set<Entry>

    ghost predicate Valid()
      reads this
    {
      per > 0 && PoolOk(per, count, free, held, leaked)
    }

    constructor (n: nat)
      requires n > 0
      ensures Valid() && per == n && count == map[] && free == [] && held == {} && leaked == {}
    {
      per := n;
      count, free, held, leaked := map[], [], {}, {};
    }

    /** CmpAllocateKeyControlBlock and CmpAllocateDelayItem: the first free entry, from a new page
        if need be; `page` is what the kernel pool would give, if it has one. */
    method TakeEntry(page: Option<Page>) returns (r: Option<Entry>)
      requires Valid() && (page.Some? ==> page.value !in count)
      modifies this
      ensures Valid() && leaked == old(leaked)
      ensures r.None? <==> old(free) == [] && page.None?
      ensures r.None? ==> count == old(count) && free == old(free) && held == old(held)
      ensures r.Some? ==> r.value !in old(held) && r.value !in old(leaked) && held == old(held) + {r.value}
      ensures r.Some? && old(free) != [] ==> r.value == old(free)[0] && free == old(free)[1..] && count.Keys == old(count).Keys
      ensures r.Some? && old(free) == [] ==> r.value == Entry(page.value, 0) && free == Fill(page.value, per)[1..]
                                             && count.Keys == old(count).Keys + {page.value}
    {
      if free == [] {
        if page.None? {
          return None;
        }
        var p := page.value;
        FillKeeps(per, count, held, leaked, p);
        assert Placed(per, count, free, held, leaked, Entry(p, 0));
        count := count[p := per];
        var i := 0;
        while i < per
          invariant i <= per && free == Fill(p, i)
          invariant count == old(count)[p := per] && held == old(held) && leaked == old(leaked)
        {
          free := free + [Entry(p, i)];
          i := i + 1;
        }
      } else {
        PopKeeps(per, count, free, held, leaked);
        assert Placed(per, count, free, held, leaked, free[0]);
      }
      var e := free[0];
      free := free[1..];
      count := count[e.page := count[e.page] - 1];
      held := held + {e};
      r := Some(e);
      assert count == old(count)[e.page := count[e.page]];
    }

    /** The end of CmpFreeKeyControlBlock and CmpFreeDelayItem: the entry goes to the end of the
        free list; if that makes its page wholly free, the page is unlinked and released, and no
        entry of it is held by anyone. */
    method PutEntry(e: Entry) returns (released: bool)
      requires Valid() && (e in held || e in leaked)
      modifies this
      ensures Valid() && held == old(held) - {e} && leaked == old(leaked) - {e}
      ensures !released ==> free == old(free) + [e] && count.Keys == old(count).Keys
      ensures released ==> count.Keys == old(count).Keys - {e.page} && free == Without(old(free) + [e], e.page, per)
      ensures released ==> forall x :: x in held || x in leaked || x in free ==> x.page != e.page
      ensures released <==> forall i: nat :: i < per && Entry(e.page, i) != e ==> Entry(e.page, i) in old(free)
    {
      PushKeeps(per, count, free, held, leaked, e);
      ghost var free0, count0 := free, count;
      ReleasedExactly(per, count, free, held, leaked, e);
      free := free + [e];
      count := count[e.page := count[e.page] + 1];
      released := count[e.page] == per;
      if released {
        ReleaseKeeps(per, count0, free0, held, leaked, e);
        var i := 0;
        WithoutNone(free, e.page);
        while i < per
          invariant i <= per && free == Without(free0 + [e], e.page, i)
          invariant count == count0[e.page := per] && held == old(held) && leaked == old(leaked)
        {
          RemoveNext(free0 + [e], e.page, i);
          free := Remove(free, Entry(e.page, i));
          i := i + 1;
        }
        count := count - {e.page};
        assert count == count0 - {e.page};
      }
      held, leaked := held - {e}, leaked - {e};
      if released {
        assert forall x :: x in free ==> Placed(per, count, free, held, leaked, x);
      }
    }

    /** A free that the allocator ignores. */
    ghost method Ignore(e: Entry)
      requires Valid() && e in held
      modifies this`held, this`leaked
      ensures Valid() && held == old(held) - {e} && leaked == old(leaked) + {e}
    {
      IgnoreKeeps(per, count, free, held, leaked, e);
      held, leaked := held - {e}, leaked + {e};
    }
  }

  lemma IgnoreKeeps(per: nat, count: map<Page, nat>, free: seq<Entry>, held: set<Entry>, leaked: set<Entry>, e: Entry)
    requires PoolOk(per, count, free, held, leaked) && e in held
    ensures PoolOk(per, count, free, held - {e}, leaked + {e})
  {
    forall x
      ensures Placed(per, count, free, held - {e}, leaked + {e}, x)
    {
      assert Placed(per, count, free, held, leaked, x);
    }
  }

  lemma ReleasedExactly(per: nat, count: map<Page, nat>, free: seq<Entry>, held: set<Entry>, leaked: set<Entry>, e: Entry)
    requires PoolOk(per, count, free, held, leaked) && (e in held || e in leaked) && e.page in count
    ensures count[e.page] + 1 == per <==> forall i: nat :: i < per && Entry(e.page, i) != e ==> Entry(e.page, i) in free
  {
    var p := e.page;
    assert Placed(per, count, free, held, leaked, e) && Counted(per, count, free, p);
    FreeOfAppend(free, e, p);
    forall x | x in free + [e] && x.page == p
      ensures x.index < per
    {
      assert Placed(per, count, free, held, leaked, x);
    }
    FullPage(per, free + [e], p);
    if forall i: nat :: i < per && Entry(p, i) != e ==> Entry(p, i) in free {
      AllSize(p, per);
      SubsetSize(All(p, per), FreeOf(free + [e], p));
    }
  }
}
