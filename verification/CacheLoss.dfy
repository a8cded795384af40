/** That coherence needs its condition: purging a dirty view loses what was written. */
module CacheLoss {
  import opened CacheState
  import opened CacheEvents
  import opened CacheRuns
  import opened MarkRaces

  /** The one view of a file over an empty disk, after one byte was written through it. */
  ghost predicate OneByte(c: Cache, dirty: set<VacbId>, refs: int, holds: nat, writers: nat, marking: nat) {
    && c.h.linked == {0} && c.lists == map[0 := [0]] && c.chunk == map[0 := Chunk(0, 0)] && c.store == map[]
    && c.h.initial == map[] && c.h.writes == [Write(0, 0, [1])]
    && c.dirty == dirty && 0 in c.refs && c.refs[0] == refs && c.h.holds[0] == holds && c.h.writers[0] == writers
    && c.h.marking[0] == marking
  }

  lemma Written() returns (states: seq<Cache>, events: seq<Event>, c: Cache)
    ensures IsRun(states, events, map[], {0}) && Clear(states, events, |events|) && c == states[|events|]
    ensures OneByte(c, {}, 2, 1, 1, 0)
  {
    states, events, c := OneView();
    states, events, c := Extend(states, events, map[], {0}, c, Client(CopyIn(0, 0, [1])));
  }

  lemma Tested() returns (states: seq<Cache>, events: seq<Event>, c: Cache)
    ensures IsRun(states, events, map[], {0}) && Clear(states, events, |events|) && c == states[|events|]
    ensures OneByte(c, {}, 2, 1, 1, 1)
  {
    states, events, c := Written();
    states, events, c := Extend(states, events, map[], {0}, c, Client(FoundClean(0)));
  }

  lemma Marked() returns (states: seq<Cache>, events: seq<Event>, c: Cache)
    ensures IsRun(states, events, map[], {0}) && Clear(states, events, |events|) && c == states[|events|]
    ensures OneByte(c, {0}, 3, 1, 0, 0)
  {
    states, events, c := Tested();
    states, events, c := Extend(states, events, map[], {0}, c, Client(MarkNow(0, true)));
  }

  lemma Released() returns (states: seq<Cache>, events: seq<Event>, c: Cache)
    ensures IsRun(states, events, map[], {0}) && Clear(states, events, |events|) && c == states[|events|]
    ensures OneByte(c, {0}, 2, 0, 0, 0)
  {
    states, events, c := Marked();
    states, events, c := Extend(states, events, map[], {0}, c, Client(ReleaseIt(0)));
  }

  /** After the purge the byte reads as zero, while the flat file has a one. */
  lemma PurgeLoses() returns (states: seq<Cache>, events: seq<Event>, c: Cache)
    ensures IsRun(states, events, map[], {0}) && Clear(states, events, |events|) && c == states[|events|]
    ensures c.chunk.Keys == c.data.Keys
    ensures ReadByte(c, 0, 0) == 0 && FlatByte(c.h.initial, c.h.writes, 0, 0) == 1
  {
    states, events, c := Released();
    states, events, c := Extend(states, events, map[], {0}, c, Manager(Purge(0)));
  }
}
