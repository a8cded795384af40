/** HalpAllocPhysicalMemory: pages cut from the loader's memory descriptors before the memory manager
    runs. Descriptors only ever get split, so what they cover never changes. */
module PhysicalMemory {

  const DESCRIPTORS: nat := 64      // entries of HalpAllocationDescriptorArray
  const PAGE_SIZE: nat := 4096

  /** `Unset` is the type of a descriptor that nothing has assigned one. */
  datatype Kind = Free | FirmwareTemporary | HalCached | Unset | Other

  datatype Desc = Desc(base: nat, count: nat, kind: Kind)

  predicate Covers(d: Desc, p: nat) {
    d.base <= p < d.base + d.count
  }

  ghost predicate Apart(a: Desc, b: Desc) {
    a.base + a.count <= b.base || b.base + b.count <= a.base || a.count == 0 || b.count == 0
  }

  ghost predicate Disjoint(list: seq<Desc>) {
    forall i, j :: 0 <= i < j < |list| ==> Apart(list[i], list[j])
  }

  ghost predicate Covered(list: seq<Desc>, p: nat) {
    exists i :: 0 <= i < |list| && Covers(list[i], p)
  }

  predicate Usable(k: Kind) {
    k == Free || k == FirmwareTemporary
  }

  ghost predicate FreePage(list: seq<Desc>, p: nat) {
    exists i :: 0 <= i < |list| && Covers(list[i], p) && Usable(list[i].kind)
  }

  /** Pages to skip so that the next is a multiple of sixteen. */
  function Skip(base: nat, aligned: bool): (n: nat)
    ensures n < 16 && (aligned ==> (base + n) % 16 == 0) && (aligned && base % 16 == 0 ==> n == 0) && (!aligned ==> n == 0)
  {
    if aligned then (base + 15) / 16 * 16 - base else 0
  }

  predicate Suits(d: Desc, pages: nat, aligned: bool, max: nat, ignoreMax: bool) {
    var skip := Skip(d.base, aligned);
    Usable(d.kind) && d.base != 0 && d.count >= pages + skip && (ignoreMax || d.base + pages + skip < max)
  }

  function Low32(n: nat): (r: nat)
    ensures r <= n && (n < 0x1_0000_0000 ==> r == n)
  {
    n % 0x1_0000_0000
  }

  /** What takes the place of the descriptor the pages are cut from. */
  function Cut(d: Desc, pages: nat, skip: nat): (ds: seq<Desc>)
    requires d.count >= pages + skip
  {
    var got := Desc(d.base + skip, Low32(pages), HalCached);
    if skip > 0 then
      [Desc(d.base, skip, d.kind), got]
      + if d.count > pages + skip then [Desc(d.base + skip + Low32(pages), d.count - skip - Low32(pages), Unset)] else []
    else
      [got] + if d.count == Low32(pages) then [] else [Desc(d.base + Low32(pages), d.count - Low32(pages), d.kind)]
  }

  function Replaced(list: seq<Desc>, i: nat, ds: seq<Desc>): (r: seq<Desc>)
    requires i < |list|
  {
    list[..i] + ds + list[i + 1..]
  }

  // ------------------------------------------------------------- splitting one descriptor

  /** The parts of a descriptor lie in it, one behind the other. */
  ghost predicate PartsOf(d: Desc, ds: seq<Desc>) {
    && (forall k :: 0 <= k < |ds| ==> d.base <= ds[k].base && ds[k].base + ds[k].count <= d.base + d.count)
    && Disjoint(ds)
  }

  lemma CutIsParts(d: Desc, pages: nat, skip: nat)
    requires d.count >= pages + skip
    ensures PartsOf(d, Cut(d, pages, skip))
  {
  }

  /** No page of the descriptor is dropped, unless the number of pages was cut to 32 bits and the
      descriptor used up. */
  lemma CutCovers(d: Desc, pages: nat, skip: nat, p: nat)
    requires d.count >= pages + skip
    requires pages < 0x1_0000_0000 || skip == 0 || d.count > pages + skip
    ensures Covered(Cut(d, pages, skip), p) <==> Covers(d, p)
  {
    var ds := Cut(d, pages, skip);
    if Covers(d, p) {
      var got := if skip > 0 then 1 else 0;
      if p < d.base + skip {
        assert Covers(ds[0], p);
      } else if p < d.base + skip + Low32(pages) {
        assert Covers(ds[got], p);
      } else {
        assert Covers(ds[got + 1], p);
      }
    }
  }

  lemma ReplacedDisjoint(list: seq<Desc>, i: nat, ds: seq<Desc>)
    requires i < |list| && Disjoint(list) && PartsOf(list[i], ds)
    ensures Disjoint(Replaced(list, i, ds))
  {
  }

  /** The descriptor a position of the new list comes from. */
  ghost function Origin(list: seq<Desc>, i: nat, ds: seq<Desc>, a: nat): (x: nat)
    requires i < |list| && a < |Replaced(list, i, ds)|
    ensures x < |list| && (x != i ==> Replaced(list, i, ds)[a] == list[x])
    ensures x == i ==> i <= a < i + |ds| && Replaced(list, i, ds)[a] == ds[a - i]
  {
    if a < i then a else if a < i + |ds| then i else a - |ds| + 1
  }

  lemma ReplacedCovered(list: seq<Desc>, i: nat, ds: seq<Desc>, p: nat)
    requires i < |list|
    ensures Covered(Replaced(list, i, ds), p) <==> Covered(ds, p) || exists x :: 0 <= x < |list| && x != i && Covers(list[x], p)
  {
    var r := Replaced(list, i, ds);
    if a :| 0 <= a < |r| && Covers(r[a], p) {
      var x := Origin(list, i, ds, a);
      assert x != i || Covers(ds[a - i], p);
    }
    if k :| 0 <= k < |ds| && Covers(ds[k], p) {
      assert Covers(r[i + k], p);
    }
    if x :| 0 <= x < |list| && x != i && Covers(list[x], p) {
      assert Covers(r[if x < i then x else x - 1 + |ds|], p);
    }
  }

  lemma CoverageKept(list: seq<Desc>, i: nat, pages: nat, skip: nat, p: nat)
    requires i < |list| && list[i].count >= pages + skip
    requires pages < 0x1_0000_0000 || skip == 0 || list[i].count > pages + skip
    ensures Covered(Replaced(list, i, Cut(list[i], pages, skip)), p) <==> Covered(list, p)
  {
    CutCovers(list[i], pages, skip, p);
    ReplacedCovered(list, i, Cut(list[i], pages, skip), p);
  }

  /** If the count is cut to 32 bits and the descriptor is used up, a page drops out of the list. */
  lemma CoverageLost(list: seq<Desc>, i: nat, pages: nat, skip: nat)
    requires i < |list| && Disjoint(list) && list[i].count == pages + skip && skip > 0 && pages >= 0x1_0000_0000
    ensures var p := list[i].base + skip + pages - 1; Covered(list, p) && !Covered(Replaced(list, i, Cut(list[i], pages, skip)), p)
  {
  }

  /** The pages given, and, behind them in the descriptor when pages were skipped in front, the
      rest of it: these are no longer free. All others are as before. */
  predicate Taken(d: Desc, pages: nat, skip: nat, p: nat) {
    Covers(d, p) && d.base + skip <= p && (skip > 0 || p < d.base + Low32(pages))
  }

  lemma FreeAfter(list: seq<Desc>, i: nat, pages: nat, skip: nat, p: nat)
    requires i < |list| && Disjoint(list) && Usable(list[i].kind) && list[i].count >= pages + skip
    ensures FreePage(Replaced(list, i, Cut(list[i], pages, skip)), p) <==> FreePage(list, p) && !Taken(list[i], pages, skip, p)
  {
    var d, ds := list[i], Cut(list[i], pages, skip);
    var r := Replaced(list, i, ds);
    if Covers(d, p) {
      forall x | 0 <= x < |list| && x != i
        ensures !Covers(list[x], p)
      {
        assert Apart(list[if x < i then x else i], list[if x < i then i else x]);
      }
    }
    if a :| 0 <= a < |r| && Covers(r[a], p) && Usable(r[a].kind) {
      var x := Origin(list, i, ds, a);
      assert Covers(list[x], p) && Usable(list[x].kind);
    }
    if x :| 0 <= x < |list| && Covers(list[x], p) && Usable(list[x].kind) {
      if x != i {
        assert r[if x < i then x else x - 1 + |ds|] == list[x];
      } else if !Taken(d, pages, skip, p) {
        assert r[i + if skip > 0 then 0 else 1] == ds[if skip > 0 then 0 else 1];
      }
    }
  }

  // ------------------------------------------------------------- the allocator

  /** None of the pages of a block is free. */
  ghost predicate Withdrawn(list: seq<Desc>, g: Desc) {
    forall p: nat :: Covers(g, p) ==> !FreePage(list, p)
  }

  /** Pages given at once are recorded in full. */
  predicate Recorded(pages: nat, skip: nat) {
    pages < 0x1_0000_0000 || skip > 0
  }

  class MemoryMap {
    var list: seq<Desc>         // the loader's descriptor list
    var used: nat               // HalpUsedAllocDescriptors
    ghost var given: seq<Desc>  // what was allocated, in order
    ghost var sound: bool       // all of it was recorded in full

    ghost predicate Valid()
      reads this
    {
      && Disjoint(list) && used <= DESCRIPTORS
      && (sound ==> Disjoint(given) && forall g :: g in given ==> Withdrawn(list, g))
    }

    constructor (descriptors: seq<Desc>)
      requires Disjoint(descriptors)
      ensures Valid() && list == descriptors && used == 0 && given == [] && sound
    {
      list, used, given, sound := descriptors, 0, [], true;
    }

    /** One pass over the list. */
    method Find(pages: nat, aligned: bool, max: nat, ignoreMax: bool) returns (i: nat)
      ensures i <= |list| && (i < |list| ==> Suits(list[i], pages, aligned, max, ignoreMax))
      ensures forall j :: 0 <= j < i ==> !Suits(list[j], pages, aligned, max, ignoreMax)
      ensures i == |list| ==> NoneSuits(list, pages, aligned, max, ignoreMax)
    {
      i := 0;
      while i < |list| && !Suits(list[i], pages, aligned, max, ignoreMax)
        invariant i <= |list| && forall j :: 0 <= j < i ==> !Suits(list[j], pages, aligned, max, ignoreMax)
      {
        i := i + 1;
      }
    }

    /** HalpAllocPhysicalMemory: zero if the descriptors are used up or no block suits; otherwise
        pages that were free, aligned if asked for, and below the limit if any such block is. As long
        as no more than 2^32 - 1 pages are asked for at once, or some are skipped in front, they are
        not free afterwards, and apart from everything given before. */
    method Allocate(maxAddress: nat, pages: nat, aligned: bool) returns (address: nat, ghost i: nat)
      requires Valid()
      modifies this
      ensures Valid()
      ensures address == 0 <==> old(used) + 2 > DESCRIPTORS || NoneSuits(old(list), pages, aligned, maxAddress / PAGE_SIZE, true)
      ensures address == 0 ==> list == old(list) && given == old(given) && used == old(used) && sound == old(sound)
      ensures address != 0 ==>
                && i < |old(list)| && Suits(old(list)[i], pages, aligned, maxAddress / PAGE_SIZE, true)
                && (Suits(old(list)[i], pages, aligned, maxAddress / PAGE_SIZE, false)
                    || NoneSuits(old(list), pages, aligned, maxAddress / PAGE_SIZE, false))
      ensures address != 0 ==>
                var from, skip := old(list)[i], Skip(old(list)[i].base, aligned);
                && address == (from.base + skip) * PAGE_SIZE && from.count >= pages + skip
                && given == old(given) + [Desc(from.base + skip, pages, HalCached)]
                && sound == (old(sound) && Recorded(pages, skip))
                && used == old(used) + (if skip > 0 && from.count > pages + skip then 2 else 1)
                && list == Replaced(old(list), i, Cut(from, pages, skip)) && GrantedFrom(old(list), list, from, pages, skip)
    {
      hide Disjoint, GrantedFrom, Suits, Replaced, Cut, Withdrawn, Skip;
      i := 0;
      if used + 2 > DESCRIPTORS {
        return 0, i;
      }
      var max := maxAddress / PAGE_SIZE;
      var k := Find(pages, aligned, max, false);
      if k == |list| {
        k := Find(pages, aligned, max, true);
        if k == |list| {
          return 0, i;
        }
      }
      var d := list[k];
      var skip := Skip(d.base, aligned);
      SuitsMeans(d, pages, aligned, max);
      CutDisjoint(list, k, pages, skip);
      Granted(list, k, pages, skip);
      if sound && Recorded(pages, skip) {
        GivenStaysApart(list, k, given, pages, skip);
      }
      sound := sound && Recorded(pages, skip);
      given := given + [Desc(d.base + skip, pages, HalCached)];
      list := Replaced(list, k, Cut(d, pages, skip));
      used := used + if skip > 0 && d.count > pages + skip then 2 else 1;
      address, i := (d.base + skip) * PAGE_SIZE, k;
    }
  }

  /** With one free block of 2^32 pages, two requests for all of them are both granted, and get the
      same address. */
  method GivenTwice() returns (first: nat, second: nat)
    ensures first == second != 0
  {
    hide GrantedFrom, Disjoint, Withdrawn;
    OneBlock(Desc(1, 0x1_0000_0000, Free));
    var m := new MemoryMap([Desc(1, 0x1_0000_0000, Free)]);
    ghost var i;
    assert Suits(m.list[0], 0x1_0000_0000, false, 0, true);
    first, i := m.Allocate(0, 0x1_0000_0000, false);
    assert m.list == [Desc(1, 0, HalCached), Desc(1, 0x1_0000_0000, Free)];
    assert Suits(m.list[1], 0x1_0000_0000, false, 0, true);
    second, i := m.Allocate(0, 0x1_0000_0000, false);
  }

  lemma OneBlock(d: Desc)
    ensures Disjoint([d])
  {
  }

  ghost predicate NoneSuits(list: seq<Desc>, pages: nat, aligned: bool, max: nat, ignoreMax: bool) {
    forall j :: 0 <= j < |list| ==> !Suits(list[j], pages, aligned, max, ignoreMax)
  }

  /** A block that suits without the limit is big enough and not at page zero; and one that suits
      with the limit suits without. */
  lemma SuitsMeans(d: Desc, pages: nat, aligned: bool, max: nat)
    ensures Suits(d, pages, aligned, max, false) ==> Suits(d, pages, aligned, max, true)
    ensures Suits(d, pages, aligned, max, true) ==>
              Usable(d.kind) && d.base != 0 && d.count >= pages + Skip(d.base, aligned)
  {
  }

  /** The pages given were free. They are not free any more exactly if they were recorded in full;
      of the others only those behind them go, when pages were skipped. The list covers the same
      pages as before exactly if no block was used up by a request whose size does not fit. */
  ghost predicate GrantedFrom(before: seq<Desc>, after: seq<Desc>, from: Desc, pages: nat, skip: nat) {
    var got := Desc(from.base + skip, pages, HalCached);
    && (forall p: nat :: Covers(got, p) ==> FreePage(before, p))
    && (Withdrawn(after, got) <==> Recorded(pages, skip))
    && (forall p: nat :: FreePage(after, p) <==> FreePage(before, p) && !Taken(from, pages, skip, p))
    && ((forall p: nat :: Covered(after, p) <==> Covered(before, p))
        <==> pages < 0x1_0000_0000 || skip == 0 || from.count > pages + skip)
  }

  lemma CoverageExactly(list: seq<Desc>, i: nat, pages: nat, skip: nat)
    requires i < |list| && Disjoint(list) && list[i].count >= pages + skip
    ensures var after := Replaced(list, i, Cut(list[i], pages, skip));
            (forall p: nat :: Covered(after, p) <==> Covered(list, p))
            <==> pages < 0x1_0000_0000 || skip == 0 || list[i].count > pages + skip
  {
    hide Disjoint, Covered, Replaced, Cut;
    if pages < 0x1_0000_0000 || skip == 0 || list[i].count > pages + skip {
      forall p
        ensures Covered(Replaced(list, i, Cut(list[i], pages, skip)), p) <==> Covered(list, p)
      {
        CoverageKept(list, i, pages, skip, p);
      }
    } else {
      CoverageLost(list, i, pages, skip);
    }
  }

  lemma WithdrawnExactly(list: seq<Desc>, i: nat, pages: nat, skip: nat)
    requires i < |list| && Disjoint(list) && Usable(list[i].kind) && list[i].count >= pages + skip
    ensures Withdrawn(Replaced(list, i, Cut(list[i], pages, skip)), Desc(list[i].base + skip, pages, HalCached)) <==> Recorded(pages, skip)
  {
    hide Disjoint, FreePage, Replaced, Cut;
    var d, got := list[i], Desc(list[i].base + skip, pages, HalCached);
    if Recorded(pages, skip) {
      forall p: nat | Covers(got, p)
        ensures !FreePage(Replaced(list, i, Cut(d, pages, skip)), p)
      {
        FreeAfter(list, i, pages, skip, p);
      }
    } else {
      var p := d.base + Low32(pages);
      FreeOf(list, i, p);
      FreeAfter(list, i, pages, skip, p);
      assert Covers(got, p);
    }
  }

  lemma Granted(list: seq<Desc>, i: nat, pages: nat, skip: nat)
    requires i < |list| && Disjoint(list) && Usable(list[i].kind) && list[i].count >= pages + skip
    ensures GrantedFrom(list, Replaced(list, i, Cut(list[i], pages, skip)), list[i], pages, skip)
  {
    hide Disjoint, FreePage, Covered, Replaced, Cut, Withdrawn;
    var after := Replaced(list, i, Cut(list[i], pages, skip));
    forall p
      ensures FreePage(after, p) <==> FreePage(list, p) && !Taken(list[i], pages, skip, p)
    {
      FreeAfter(list, i, pages, skip, p);
    }
    CoverageExactly(list, i, pages, skip);
    WithdrawnExactly(list, i, pages, skip);
    forall p: nat | list[i].base + skip <= p < list[i].base + skip + pages
      ensures FreePage(list, p)
    {
      FreeOf(list, i, p);
    }
  }

  lemma FreeOf(list: seq<Desc>, i: nat, p: nat)
    requires i < |list| && Covers(list[i], p) && Usable(list[i].kind)
    ensures FreePage(list, p)
  {
  }

  /** Every page but those given stays free exactly when nothing was skipped or nothing is left
      behind the given pages. */
  lemma NothingElseTaken(d: Desc, pages: nat, skip: nat)
    requires d.count >= pages + skip && pages < 0x1_0000_0000
    ensures (forall p: nat :: Taken(d, pages, skip, p) ==> d.base + skip <= p < d.base + skip + pages)
            <==> skip == 0 || d.count == pages + skip
  {
    if skip > 0 && d.count > pages + skip {
      assert Taken(d, pages, skip, d.base + skip + pages);
    }
  }

  lemma CutDisjoint(list: seq<Desc>, i: nat, pages: nat, skip: nat)
    requires i < |list| && Disjoint(list) && list[i].count >= pages + skip
    ensures Disjoint(Replaced(list, i, Cut(list[i], pages, skip)))
  {
    hide Disjoint, Cut, Replaced;
    CutIsParts(list[i], pages, skip);
    ReplacedDisjoint(list, i, Cut(list[i], pages, skip));
  }

  /** What was given before was not free, so it is apart from what is given now, and stays so. */
  lemma GivenStaysApart(list: seq<Desc>, i: nat, given: seq<Desc>, pages: nat, skip: nat)
    requires i < |list| && Disjoint(list) && Usable(list[i].kind) && list[i].count >= pages + skip && Recorded(pages, skip)
    requires Disjoint(given) && forall g :: g in given ==> Withdrawn(list, g)
    ensures var got, r := Desc(list[i].base + skip, pages, HalCached), Replaced(list, i, Cut(list[i], pages, skip));
            Disjoint(given + [got]) && forall g :: g in given + [got] ==> Withdrawn(r, g)
  {
    hide Replaced, Cut, FreePage;
    var got, r := Desc(list[i].base + skip, pages, HalCached), Replaced(list, i, Cut(list[i], pages, skip));
    WithdrawnExactly(list, i, pages, skip);
    forall g | g in given
      ensures Withdrawn(r, g) && Apart(g, got)
    {
      forall p: nat | Covers(g, p)
        ensures !FreePage(r, p)
      {
        FreeAfter(list, i, pages, skip, p);
      }
      NotFreeIsApart(list, i, g, got);
    }
  }

  lemma NotFreeIsApart(list: seq<Desc>, i: nat, g: Desc, got: Desc)
    requires i < |list| && Usable(list[i].kind) && Withdrawn(list, g)
    requires list[i].base <= got.base && got.base + got.count <= list[i].base + list[i].count
    ensures Apart(g, got)
  {
    hide FreePage;
    if !Apart(g, got) {
      var p := if g.base < got.base then got.base else g.base;
      assert Covers(g, p) && Covers(list[i], p);
      FreeOf(list, i, p);
    }
  }
}
