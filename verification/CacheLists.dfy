/** What unlinking, sorted insertion and moving to the tail do to the cache manager's lists. */
module CacheLists {
  import opened Collections
  import opened CacheState

  /** Removing an element keeps the others in order. */
  lemma {:induction false} WithoutOrder(s: seq<VacbId>, v: VacbId, i: nat, j: nat) returns (a: nat, b: nat)
    requires i < j < |Without(s, v)|
    ensures a < b < |s| && s[a] == Without(s, v)[i] && s[b] == Without(s, v)[j]
  {
    var t := Without(s[1..], v);
    if s[0] == v {
      a, b := WithoutOrder(s[1..], v, i, j);
      a, b := a + 1, b + 1;
    } else if i > 0 {
      a, b := WithoutOrder(s[1..], v, i - 1, j - 1);
      a, b := a + 1, b + 1;
    } else {
      assert t[j - 1] in t;
      var k :| 0 <= k < |s[1..]| && s[1..][k] == t[j - 1];
      a, b := 0, k + 1;
    }
  }

  lemma {:induction false} WithoutLength(s: seq<VacbId>, v: VacbId)
    requires Distinct(s)
    ensures |Without(s, v)| == |s| - One(v in s)
  {
    if s == [] {
    } else {
      assert s == [s[0]] + s[1..];
      WithoutLength(s[1..], v);
      assert s[0] !in s[1..];
    }
  }

  lemma WithoutDistinct(s: seq<VacbId>, v: VacbId)
    requires Distinct(s)
    ensures Distinct(Without(s, v))
  {
    var r := Without(s, v);
    forall i, j | 0 <= i < j < |r|
      ensures r[i] != r[j]
    {
      var a, b := WithoutOrder(s, v, i, j);
    }
  }

  // ------------------------------------------------------------- the file list

  lemma WithoutListOk(list: seq<VacbId>, chunk: map<VacbId, Chunk>, file: FileId, linked: set<VacbId>, v: VacbId)
    requires ListOk(list, chunk, file, linked)
    ensures ListOk(Without(list, v), chunk, file, linked - {v})
  {
    var r := Without(list, v);
    forall i | 0 <= i < |r|
      ensures r[i] in linked - {v} && r[i] in chunk && chunk[r[i]].file == file
    {
      assert r[i] in r;
    }
    forall i, j | 0 <= i < j < |r|
      ensures chunk[r[i]].base < chunk[r[j]].base
    {
      var a, b := WithoutOrder(list, v, i, j);
    }
  }

  ghost predicate Ascending(list: seq<VacbId>, chunk: map<VacbId, Chunk>) {
    && (forall i :: 0 <= i < |list| ==> list[i] in chunk)
    && (forall i, j :: 0 <= i < j < |list| ==> chunk[list[i]].base < chunk[list[j]].base)
  }

  lemma PrependAscending(x: VacbId, list: seq<VacbId>, chunk: map<VacbId, Chunk>)
    requires x in chunk && Ascending(list, chunk)
    requires forall y :: y in list ==> y in chunk && chunk[x].base < chunk[y].base
    ensures Ascending([x] + list, chunk)
  {
  }

  lemma {:induction false} InsertAscending(list: seq<VacbId>, chunk: map<VacbId, Chunk>, v: VacbId)
    requires v in chunk && Ascending(list, chunk)
    requires forall y :: y in list ==> y in chunk && chunk[y].base != chunk[v].base
    ensures Ascending(InsertSorted(list, chunk, v), chunk)
  {
    if list == [] {
    } else {
      assert list == [list[0]] + list[1..];
      if chunk[list[0]].base > chunk[v].base {
        PrependAscending(v, list, chunk);
      } else {
        InsertAscending(list[1..], chunk, v);
        PrependAscending(list[0], InsertSorted(list[1..], chunk, v), chunk);
      }
    }
  }

  lemma InsertListOk(list: seq<VacbId>, chunk: map<VacbId, Chunk>, file: FileId, linked: set<VacbId>, v: VacbId)
    requires ListOk(list, chunk, file, linked) && v in chunk && chunk[v].file == file
    requires forall y :: y in list ==> y in chunk && chunk[y].base != chunk[v].base
    ensures ListOk(InsertSorted(list, chunk, v), chunk, file, linked + {v})
  {
    InsertAscending(list, chunk, v);
    var r := InsertSorted(list, chunk, v);
    forall i | 0 <= i < |r|
      ensures r[i] in linked + {v} && chunk[r[i]].file == file
    {
      assert r[i] in list || r[i] == v;
    }
  }

  /** At most one linked VACB per chunk. */
  lemma UniqueChunk(c: Cache, u: VacbId, v: VacbId)
    requires IndexOk(c.lists, c.chunk, c.h.linked) && u in c.h.linked && v in c.h.linked
    requires c.chunk[u] == c.chunk[v]
    ensures u == v
  {
  }

  /** The lookup finds the VACB of a chunk exactly when there is one. */
  lemma CoveringExact(c: Cache, file: FileId, offset: nat)
    requires AllocOk(c.chunk, c.refs, c.data, c.h) && IndexOk(c.lists, c.chunk, c.h.linked) && file in c.lists
    ensures var r := Covering(c.lists[file], c.chunk, offset);
            && (r.Some? ==> r.value in c.h.linked && c.chunk[r.value] == Chunk(file, RoundDown(offset)))
            && (r.None? <==> Uncovered(c, Chunk(file, RoundDown(offset))))
  {
  }

  // ------------------------------------------------------------- the LRU list

  lemma WithoutLruOk(lru: seq<VacbId>, linked: set<VacbId>, touched: map<VacbId, nat>, clock: nat, v: VacbId)
    requires LruOk(lru, linked, touched, clock)
    ensures LruOk(Without(lru, v), linked - {v}, touched, clock)
  {
    var r := Without(lru, v);
    forall i | 0 <= i < |r|
      ensures r[i] in touched && touched[r[i]] < clock
    {
      assert r[i] in lru;
    }
    forall i, j | 0 <= i < j < |r|
      ensures touched[r[i]] < touched[r[j]]
    {
      var a, b := WithoutOrder(lru, v, i, j);
    }
  }

  lemma TailLruOk(lru: seq<VacbId>, linked: set<VacbId>, touched: map<VacbId, nat>, clock: nat, v: VacbId)
    requires LruOk(lru, linked, touched, clock) && v !in linked
    ensures LruOk(lru + [v], linked + {v}, touched[v := clock], clock + 1)
  {
  }

  lemma TouchLruOk(lru: seq<VacbId>, linked: set<VacbId>, touched: map<VacbId, nat>, clock: nat, v: VacbId)
    requires LruOk(lru, linked, touched, clock) && v in linked
    ensures LruOk(Without(lru, v) + [v], linked, touched[v := clock], clock + 1)
  {
    WithoutLruOk(lru, linked, touched, clock, v);
    TailLruOk(Without(lru, v), linked - {v}, touched, clock, v);
    assert linked - {v} + {v} == linked;
  }

  // ------------------------------------------------------------- counting per file

  lemma {:induction false} CountAppend(s: seq<VacbId>, chunk: map<VacbId, Chunk>, file: FileId, v: VacbId)
    ensures CountIn(s + [v], chunk, file) == CountIn(s, chunk, file) + One(v in chunk && chunk[v].file == file)
  {
    if s == [] {
    } else {
      assert (s + [v])[1..] == s[1..] + [v];
      CountAppend(s[1..], chunk, file, v);
    }
  }

  lemma {:induction false} CountWithout(s: seq<VacbId>, chunk: map<VacbId, Chunk>, file: FileId, v: VacbId)
    requires Distinct(s)
    ensures CountIn(Without(s, v), chunk, file)
         == CountIn(s, chunk, file) - One(v in s && v in chunk && chunk[v].file == file)
  {
    if s == [] {
    } else {
      CountWithout(s[1..], chunk, file, v);
      assert s == [s[0]] + s[1..] && s[0] !in s[1..];
      var t := Without(s[1..], v);
      if s[0] != v {
        assert ([s[0]] + t)[1..] == t;
      }
    }
  }

  /** Only the entries of the counted VACBs matter. */
  lemma {:induction false} CountSame(s: seq<VacbId>, a: map<VacbId, Chunk>, b: map<VacbId, Chunk>, file: FileId)
    requires forall v :: v in s ==> (v in a <==> v in b) && (v in a ==> a[v] == b[v])
    ensures CountIn(s, a, file) == CountIn(s, b, file)
  {
    if s == [] {
    } else {
      CountSame(s[1..], a, b, file);
    }
  }
}
