/** CcRosDeleteFileCache: the last close of a file. */
module CacheTeardown {
  import opened CacheState
  import opened CacheSteps
  import opened CacheDrop
  import opened CacheRuns
  import opened CacheManager
  import opened FlushRange

  /** A view is written if need be, taken off its lists, and the list's reference given back. */
  function Closed(c: Cache, v: VacbId, r: Reply): (d: Cache)
    requires Accounted(c, v) && v in c.data && c.chunk[v].file in c.lists
  {
    Unhold(CloseView(c, v, r.ok, r.torn), v)
  }

  /** Of the views that are gone, those that clients hold are leaked: allocated, and on no list. */
  ghost predicate Leaks(c0: Cache, c: Cache) {
    forall v :: v in c0.h.linked && v !in c.h.linked ==>
      (v in c.refs <==> c0.h.holds[v] > 0) && (v in c.refs ==> c.refs[v] == c0.h.holds[v])
  }

  /** Of the first `n` views of the file, the chunks of those that were dirty and that Mm could not
      write, and of those that were abandoned. */
  ghost function Unsaved(c: Cache, file: FileId, script: seq<Reply>, n: nat): (ks: set<Chunk>)
    requires file in c.lists && n <= |c.lists[file]|
  {
    set i | 0 <= i < n && Fails(c, c.lists[file][i], ReplyAt(script, i)) :: ChunkOf(c, c.lists[file][i])
  }

  ghost predicate Fails(c: Cache, v: VacbId, r: Reply) {
    v in c.h.unsaved || (v in c.dirty && !r.ok)
  }

  ghost function ChunkOf(c: Cache, v: VacbId): (k: Chunk) {
    if v in c.chunk then c.chunk[v] else Chunk(0, 0)
  }

  /** The first `n` views of the file are gone, all others are as they were, and what could not be
      written is lost. */
  ghost predicate Closing(c0: Cache, c: Cache, file: FileId, script: seq<Reply>, n: nat) {
    && Inv(c) && c.lists.Keys == c0.lists.Keys && c.h.linked <= c0.h.linked
    && (forall v :: v in c0.h.linked && v in c0.chunk && c0.chunk[v].file != file ==> v in c.h.linked)
    && (forall v :: v in c.h.linked ==> v in c.chunk && v in c0.chunk && c.chunk[v] == c0.chunk[v])
    && (forall v :: v in c.h.linked ==> (v in c.dirty <==> v in c0.dirty) && (v in c.h.unsaved <==> v in c0.h.unsaved))
    && c.h.holds == c0.h.holds && c.h.writers == c0.h.writers
    && c.h.writes == c0.h.writes && c.h.initial == c0.h.initial && Leaks(c0, c)
    && file in c0.lists && n <= |c0.lists[file]| && c.lists[file] == c0.lists[file][n..]
    && c.h.lost == c0.h.lost + Unsaved(c0, file, script, n)
  }

  /** Nobody is in the middle of a write or a flush of a view of the file. */
  ghost predicate NotWritten(c: Cache, file: FileId) {
    forall v :: v in c.h.linked && v in c.chunk && c.chunk[v].file == file ==> c.h.writers[v] == 0
  }

  lemma CloseFacts(c: Cache, v: VacbId, r: Reply) returns (e: Cache)
    requires Structure(c) && Accounted(c, v) && v in c.data && c.chunk[v].file in c.lists && v in c.h.linked
    ensures e == CloseView(c, v, r.ok, r.torn)
    ensures e.chunk == c.chunk && e.refs == c.refs[v := 1 + c.h.holds[v]] && e.dirty == c.dirty - {v}
    ensures e.lists == c.lists[c.chunk[v].file := Without(c.lists[c.chunk[v].file], v)]
    ensures e.h == c.h.(linked := c.h.linked - {v}, unsaved := c.h.unsaved - {v}, holds := c.h.holds + multiset{v},
                        lost := if v in c.h.unsaved || (v in c.dirty && !r.ok) then c.h.lost + {c.chunk[v]} else c.h.lost)
  {
    hide Without;
    e := CloseView(c, v, r.ok, r.torn);
    assert PartOk(Refs, c) && PartOk(Writers, c);
  }

  /** What closing one view leaves, whether or not somebody holds it. */
  lemma ClosedFacts(c: Cache, v: VacbId, r: Reply) returns (d: Cache)
    requires Structure(c) && Accounted(c, v) && v in c.data && c.chunk[v].file in c.lists && v in c.h.linked
    ensures d == Closed(c, v, r)
    ensures d.h == c.h.(linked := c.h.linked - {v}, unsaved := c.h.unsaved - {v}, lost := d.h.lost)
    ensures v in d.refs <==> c.h.holds[v] > 0
    ensures v in d.refs ==> d.refs[v] == c.h.holds[v]
    ensures forall u :: u != v ==> (u in d.refs <==> u in c.refs) && (u in c.refs ==> d.refs[u] == c.refs[u])
    ensures forall u :: u != v ==> (u in d.chunk <==> u in c.chunk) && (u in c.chunk ==> d.chunk[u] == c.chunk[u])
    ensures d.lists == c.lists[c.chunk[v].file := Without(c.lists[c.chunk[v].file], v)] && d.dirty == c.dirty - {v}
    ensures d.h.lost == if v in c.h.unsaved || (v in c.dirty && !r.ok) then c.h.lost + {c.chunk[v]} else c.h.lost
  {
    hide Without, CloseView, Structure;
    var e := CloseFacts(c, v, r);
    d := Closed(c, v, r);
    assert c.h.holds + multiset{v} - multiset{v} == c.h.holds;
  }

  lemma ClosedKeeps(c: Cache, v: VacbId, r: Reply)
    requires Inv(c) && v in c.h.linked && c.h.writers[v] == 0
    ensures Accounted(c, v) && v in c.data && c.chunk[v].file in c.lists && Inv(Closed(c, v, r))
  {
    hide Inv, CloseView;
    CloseViewKeeps(c, v, r.ok, r.torn);
    CloseLeaves(c, v, r);
    UnholdKeeps(CloseView(c, v, r.ok, r.torn), v);
  }

  lemma CloseLeaves(c: Cache, v: VacbId, r: Reply)
    requires Accounted(c, v) && v in c.data && c.chunk[v].file in c.lists
    ensures var d := CloseView(c, v, r.ok, r.torn); v in d.refs && d.h.holds[v] > c.h.holds[v] && d.h.writers == c.h.writers
  {
  }

  lemma ClosingStarts(c: Cache, file: FileId, script: seq<Reply>)
    requires Inv(c) && file in c.lists
    ensures Closing(c, c, file, script, 0)
  {
    hide CleanOk, Coherent;
    assert PartOk(Alloc, c);
    assert c.lists[file][0..] == c.lists[file];
  }

  lemma UnsavedMore(c: Cache, file: FileId, script: seq<Reply>, n: nat)
    requires file in c.lists && n < |c.lists[file]|
    ensures var v := c.lists[file][n];
            Unsaved(c, file, script, n + 1) == Unsaved(c, file, script, n) + if Fails(c, v, ReplyAt(script, n)) then {ChunkOf(c, v)} else {}
  {
    hide Fails, ChunkOf;
  }

  /** With all dirty views written, nothing is lost of a chunk nobody is writing to. */
  lemma AllWritten(c: Cache, file: FileId, script: seq<Reply>, k: Chunk)
    requires Inv(c) && file in c.lists && Quiet(c, k) && forall i: nat :: i < |c.lists[file]| && c.lists[file][i] in c.dirty ==> ReplyAt(script, i).ok
    ensures k !in c.h.lost + Unsaved(c, file, script, |c.lists[file]|)
  {
    forall v | v in c.lists[file]
      ensures v in c.h.linked && v in c.chunk
    {
      Listed(c, file, v);
    }
  }

  /** The list has the file's views, and the views it has are the file's. */
  lemma Listed(c: Cache, file: FileId, v: VacbId)
    requires Inv(c) && file in c.lists && v in c.lists[file]
    ensures Structure(c) && v in c.h.linked && Accounted(c, v) && v in c.data && c.chunk[v].file == file
  {
    hide CleanOk, Coherent;
    assert PartOk(Index, c);
    assert ListOk(c.lists[file], c.chunk, file, c.h.linked);
    LinkedFacts(c, v);
  }

  lemma LeaksMore(c0: Cache, c: Cache, d: Cache, v: VacbId)
    requires Leaks(c0, c) && v in c.h.linked && c.h.holds == c0.h.holds && d.h.linked == c.h.linked - {v}
    requires (v in d.refs <==> c.h.holds[v] > 0) && (v in d.refs ==> d.refs[v] == c.h.holds[v])
    requires forall u :: u != v ==> (u in d.refs <==> u in c.refs) && (u in c.refs ==> d.refs[u] == c.refs[u])
    ensures Leaks(c0, d)
  {
  }

  /** The reply to the first view left is the one with its number. */
  lemma ClosingStep(c0: Cache, c: Cache, file: FileId, script: seq<Reply>, n: nat)
    requires Closing(c0, c, file, script, n) && NotWritten(c, file) && file in c.lists && c.lists[file] != []
    ensures var v := c.lists[file][0]; v in c.h.linked && Accounted(c, v) && v in c.data && c.chunk[v].file == file
    ensures var d := Closed(c, c.lists[file][0], ReplyAt(script, n));
            Closing(c0, d, file, script, n + 1) && NotWritten(d, file) && file in d.lists && |d.lists[file]| < |c.lists[file]|
  {
    hide Inv, Closed, Without, Structure, Leaks, Unsaved, ReplyAt;
    var v, r := c.lists[file][0], ReplyAt(script, n);
    Listed(c, file, v);
    ClosedKeeps(c, v, r);
    var d := ClosedFacts(c, v, r);
    LeaksMore(c0, c, d, v);
    UnsavedMore(c0, file, script, n);
    FirstGoes(c, file);
  }

  lemma {:induction false} WithoutAbsent(s: seq<VacbId>, v: VacbId)
    requires v !in s
    ensures Without(s, v) == s
  {
    if s == [] {
    } else {
      WithoutAbsent(s[1..], v);
      assert s == [s[0]] + s[1..];
    }
  }

  lemma FirstGoes(c: Cache, file: FileId)
    requires Inv(c) && file in c.lists && c.lists[file] != []
    ensures Without(c.lists[file], c.lists[file][0]) == c.lists[file][1..]
  {
    hide CleanOk, Coherent;
    assert PartOk(Index, c);
    assert ListOk(c.lists[file], c.chunk, file, c.h.linked);
    WithoutAbsent(c.lists[file][1..], c.lists[file][0]);
  }

  /** Frees one view of the file, writing it first if it is dirty. */
  method CloseOne(m: Manager, v: VacbId, r: Reply)
    requires Accounted(m.Snapshot(), v) && v in m.data && m.chunk[v].file in m.lists
    modifies m
    ensures m.Snapshot() == Closed(old(m.Snapshot()), v, r)
  {
    hide Without, Detach, UnmarkDirty, Unhold;
    ghost var c := m.Snapshot();
    SavedLeaves(c, v, r);
    if v in m.dirty {
      m.store := m.store[m.chunk[v] := if r.ok then m.data[v] else r.torn];
      if r.ok {
        m.Unmark(v);
      }
    }
    m.DropView(v);
  }

  lemma SavedLeaves(c: Cache, v: VacbId, r: Reply)
    requires Accounted(c, v) && v in c.data && c.chunk[v].file in c.lists
    ensures var s := Save(c, v, if r.ok then c.data[v] else r.torn);
            var u := UnmarkDirty(s, v); Accounted(u, v) && u.chunk[v].file in u.lists
  {
  }

  /** Once a file's views are gone, what was not lost is on disk. */
  lemma ClosedIsDurable(c: Cache, file: FileId)
    requires Inv(c) && file in c.lists && c.lists[file] == []
    ensures forall v :: v in c.h.linked && v in c.chunk ==> c.chunk[v].file != file
    ensures forall o: nat :: Chunk(file, RoundDown(o)) !in c.h.lost ==> Durable(c, file, o)
  {
    hide CleanOk, Coherent, FlatByte;
    assert PartOk(Index, c) && PartOk(Dirties, c) && PartOk(Alloc, c);
    forall o: nat | Chunk(file, RoundDown(o)) !in c.h.lost
      ensures Durable(c, file, o)
    {
      CleanIsDurable(c, file, o);
    }
  }

  /** CcRosDeleteFileCache: every view of the file is taken off all lists and its map removed, views
      of other files stay; a view somebody holds is leaked, with exactly those references. Exactly
      the chunks of the dirty views that Mm could not write, and of abandoned ones, are lost; all
      else of the file is on disk. */
  method DeleteFileCache(m: Manager, file: FileId, script: seq<Reply>)
    requires Inv(m.Snapshot()) && file in m.lists && NotWritten(m.Snapshot(), file)
    modifies m
    ensures Inv(m.Snapshot()) && m.lists.Keys == old(m.lists).Keys - {file}
    ensures forall v :: v in m.Snapshot().h.linked && v in m.chunk ==> m.chunk[v].file != file
    ensures forall v :: v in old(m.Snapshot().h.linked) && v in old(m.chunk) && old(m.chunk)[v].file != file ==>
              v in m.Snapshot().h.linked && v in m.chunk && m.chunk[v] == old(m.chunk)[v]
    ensures Leaks(old(m.Snapshot()), m.Snapshot())
    ensures m.Snapshot().h.writes == old(m.Snapshot().h.writes) && m.Snapshot().h.holds == old(m.Snapshot().h.holds)
    ensures m.Snapshot().h.lost == old(m.Snapshot().h.lost + Unsaved(m.Snapshot(), file, script, |m.lists[file]|))
    ensures forall o: nat :: Chunk(file, RoundDown(o)) !in m.Snapshot().h.lost ==> Durable(m.Snapshot(), file, o)
  {
    hide Inv, Closing, NotWritten, Closed, Durable, Without, Leaks, Unsaved, ReplyAt;
    ghost var c0 := m.Snapshot();
    var i := 0;
    ClosingStarts(c0, file, script);
    while m.lists[file] != []
      invariant Closing(c0, m.Snapshot(), file, script, i) && NotWritten(m.Snapshot(), file) && file in m.lists
      decreases |m.lists[file]|
    {
      ClosingStep(c0, m.Snapshot(), file, script, i);
      CloseOne(m, m.lists[file][0], ReplyAt(script, i));
      i := i + 1;
    }
    ghost var c := m.Snapshot();
    ClosingEnds(c0, c, file, script, i);
    m.lists := m.lists - {file};
    m.dirtyPages := m.dirtyPages - {file};
    RemovedKeeps(c0, c, m.Snapshot(), file);
  }

  lemma ClosingEnds(c0: Cache, c: Cache, file: FileId, script: seq<Reply>, n: nat)
    requires Closing(c0, c, file, script, n) && file in c.lists && c.lists[file] == []
    ensures Inv(c) && c.lists.Keys == c0.lists.Keys && c.h.writes == c0.h.writes && c.h.holds == c0.h.holds
    ensures forall v :: v in c0.h.linked && v in c0.chunk && c0.chunk[v].file != file ==>
              v in c.h.linked && v in c.chunk && c.chunk[v] == c0.chunk[v]
    ensures Leaks(c0, c) && file in c0.lists && c.h.lost == c0.h.lost + Unsaved(c0, file, script, |c0.lists[file]|)
  {
    hide Inv, Unsaved, Leaks;
    assert n == |c0.lists[file]|;
  }

  lemma RemovedKeeps(c0: Cache, c: Cache, d: Cache, file: FileId)
    requires Inv(c) && file in c.lists && c.lists[file] == [] && Leaks(c0, c)
    requires d == c.(lists := c.lists - {file}, dirtyPages := c.dirtyPages - {file})
    ensures Inv(d) && d.lists.Keys == c.lists.Keys - {file} && Leaks(c0, d)
    ensures forall v :: v in d.h.linked && v in d.chunk ==> d.chunk[v].file != file
    ensures forall o: nat :: Chunk(file, RoundDown(o)) !in d.h.lost ==> Durable(d, file, o)
  {
    hide Inv, FlatByte;
    ClosedIsDurable(c, file);
    FilesKeep(c, d, file);
    forall o: nat | Chunk(file, RoundDown(o)) !in d.h.lost
      ensures Durable(d, file, o)
    {
      assert Durable(c, file, o);
    }
  }
}
