# Verified models of the kernel's cache manager, boot driver order, interrupt translation and early allocators

The project models the parts of the kernel and HAL in which many steps have to fit together, and
proves what they keep over every input, every run and every interleaving.

**Cache manager** (`ntoskrnl/cc`). A file is cached in views of 256 KB (VACBs). A view sits on its
file's list, sorted by offset, on a global LRU list and, when dirty, on a global dirty list, and is
reference counted by the lists, by clients and by buffer control blocks.

- `CacheState`, `CacheLists`, `CacheSteps`, `CacheFlush`, `CacheDrop`: the state, its steps, and the
  invariant each step keeps, with the exact condition where it does not always. The flat file that a
  byte array given the same writes would be is part of the history the invariant speaks of.
- `CacheEvents`: the steps as events. An event is one locked section of the source, or what a thread
  does between two of them; its guard is what the code tests or its callers guarantee. A client that
  has written answers for the view until it marks it or gives up; those that answer are counted, not
  named, and a client says with its mark whether it has written, so that a mark by one that has not
  leaves the others' entries alone. What the assertions in CcRosMarkDirtyVacb and
  CcRosUnmarkDirtyVacb ask for is kept apart from the guards.
- `CacheRuns`, `CacheFreed`, `CacheLoss`, `MarkRaces`, `CacheAccounts`, `WriteThrottle`: theorems over
  all runs, that is, any interleaving by any number of clients of lookups, creations, copies, the test
  of Dirty and the marking that follows it, releases, picking a view and the two halves of its flush
  (also a failing one), evictions, purges, teardown and pages that Mm writes by itself. Most hold as
  long as neither assertion has been tripped; `MarkRaces` has the runs that trip them and says exactly
  when that happens.
- `CacheManager`, `CacheCopy`, `FlushRange`, `WriteThrough`, `CacheSweeps`, `LazyFlush`,
  `CacheTeardown`: the manager as a class whose methods walk and update the lists in place, each locked
  section proved equal to its step, and the calls built from them: copying in and out, flushing a
  range, writing through, purging, trimming, lazy flushing and teardown.
- `Pinning`, `BcbCalls`: the pinning interface on top of the manager.
- `DeferredWrites`: resuming throttled writes.

**Lazy writer** (`ntoskrnl/cc/lazywrite.c`). `WorkerPool` and `LazyWriter` are the worker threads, the
two queues, the throttle and the waiters as a state machine; `WorkQueues` has the queues and the list
of idle threads as linked lists that are changed in place.

**Registry** (`ntoskrnl/config`). `IntrusiveList` is the doubly linked list, with real links, which the
work queues use too;
`DriverOrderSpec`, `TagSort` and `DriverOrder` are the boot driver ordering that relinks it in place;
`PagePool` and `KcbAllocator` the page-pooled allocators; `KeyPath` the path of a key.

**HAL for ARM64** (`hal/halarm64`). `ItsRing` is the command ring shared by posting processors and the
Interrupt Translation Service; `ItsMapping` the protocol of MAPC, MAPD and MAPTI commands on top of it
(the commands are those of the "ITS commands" section of the Arm GIC architecture specification,
IHI 0069), and `ItsFailure` what becomes of a device whose MAPD was not confirmed; `PhysicalMemory` the page allocator used before the memory manager runs.

`Collections` holds the few values and facts all of them share.

What comes from outside is a parameter: answers of the memory manager and of file systems are scripts
(sequences of outcomes that may fail anywhere), addresses the kernel pool returns are arguments, and
scheduling is the choice of the next event.

## Results about the code that a reader may not expect

- Each of the assertions on Dirty can be tripped by two threads that both follow the code: a view
  picked by the lazy writer can be unmarked by CcFlushCache before the lazy writer unmarks it
  (`MarkRaces.UnmarkCanFindItClean`), a failed flush can find its view dirty again
  (`MarkRaces.RemarkCanFindItDirty`), and two clients that found a view clean both mark it
  (`MarkRaces.MarkCanFindItDirty`). Each happens exactly if the last to mark or unmark the view since
  the pick, the unmark or the test did the contrary (`MarkRaces.UnmarkTrips`, `MarkRaces.RemarkTrips`,
  `MarkRaces.MarkTrips`). The counts are wrong in the next state (`CacheDrop.MarkTwice`,
  `CacheDrop.UnmarkTwice`), and no other event of `CacheEvents` breaks them (`CacheRuns.StepExactly`).
- CcCopyRead of a cached file reports success with no bytes although Length is not zero exactly when
  the end of the range is no LONGLONG (`CacheCopy.CopyRead`).
- What CcCopyWrite reports does not depend on how its write-through flush ends: the bytes are flushed
  exactly if Mm can write every chunk of the range, and success is reported all the same
  (`WriteThrough.WriteFile`, `WriteThrough.SucceedsUnflushed`).
- When CcFlushCache breaks off, ValidDataLength runs ahead of what was flushed exactly if one of the
  chunks flushed had no dirty view at the call, and then covers the whole range
  (`FlushRange.ValidRunsAhead`, `FlushRange.ValidBeyondFlushed`).
- CcPurgeCacheSection leaves a view that ends exactly with the range: purging the first 256 KB of a
  file drops nothing and reports success (`CacheSweeps.PurgeFirstView`). When no view to be dropped is
  in use, no view is left inside exactly if none ended with the range (`CacheSweeps.Purge`).
- CcRosFlushDirtyPages asked for everything does not end while a dirty view belongs to a file it
  passes over, and ends otherwise once the disk stops failing (`LazyFlush.FlushDirtyPages`); such a
  state is reached (`LazyFlush.FlushAllCanSpin`).
- When there is no memory for a BCB the view is released twice, by a client that holds it once: its
  count is one too low, or it is freed while on its file's list (`BcbCalls.SecondReleaseBreaks`).
- The address computed from a BCB that passes the range test is right exactly when the range is not an
  empty one on the border of the BCB's chunk (`BcbCalls.CoveredShows`).
- Of a group order list of more than 32768 characters only a part from the front counts, or an
  assertion is tripped (`DriverOrder.SortDriverList`), as by one name of 40000 letters
  (`DriverOrder.LongNameTrips`).
- A single move of CmpOrderGroup can add an inversion (`TagSort.MoveCanMisplace`), yet the result is
  sorted.
- A post to the ITS ring can report a time-out for a command that was consumed
  (`ItsRing.ConsumedButTimedOut`). If that is the MAPD of a device, the device is given up although it
  is mapped (`ItsFailure.MappedButGivenUp`), and for good: no later caller for it succeeds
  (`ItsFailure.GivenUpForGood`).
- HalpAllocPhysicalMemory takes more pages out of use than it gives exactly when it skips pages for
  alignment and does not use up the block (`PhysicalMemory.NothingElseTaken`). A request for 2^32 pages
  or more without skipped pages leaves pages it gave free, and the next one can get the same address
  (`PhysicalMemory.WithdrawnExactly`, `PhysicalMemory.GivenTwice`); with skipped pages, and the block
  used up, pages drop out of the list (`PhysicalMemory.CoverageExactly`).
- A key control block is not returned to the free list when its page has the address of one of the
  last 32 pages released (`KcbAllocator.Kcbs.Free`, `KcbAllocator.IgnoredAfterReuse`).
- CcPostDeferredWrites keeps the order of the writes left exactly when no two writes of a pass have to
  wait (`DeferredWrites.OrderKept`, `DeferredWrites.TwoChangePlaces`).

## Model

| member | source | states |
|---|---|---|
| `CacheRuns.CacheIsCoherent` | ntoskrnl/cc/view.c:166-209 | over every interleaving of writes, marks, releases, flushes that may fail, writes by Mm itself, evictions, purges and teardowns in which no step drops unsaved bytes or leaves them unprotected and no assertion on Dirty is tripped, every byte reads as in a flat file given the same writes |
| `CacheRuns.NothingLost` | ntoskrnl/cc/view.c:741-798 | until an assertion is tripped, no bytes are lost or left unprotected unless a dirty view is purged, a dirty view that cannot be written is closed, or a write to a view that is not dirty is given up, whether or not the view is evicted later; evictions and failed flushes lose nothing |
| `CacheLoss.PurgeLoses` | ntoskrnl/cc/fs.c:245-272 | a run in which purging a dirty view makes a byte read differently from the flat file, so the condition is needed |
| `CacheRuns.ReadIsFlat` | ntoskrnl/cc/copy.c:564-604 | in every invariant state a chunk nothing was lost of reads like the flat file, through its view or from disk |
| `CacheRuns.RunInv` | ntoskrnl/cc/view.c:595-933 | every state reached without tripping an assertion on Dirty satisfies the whole invariant: index, LRU order, dirty list, reference counts, accounts, clean views equal to disk, coherence |
| `CacheRuns.RunExtends` | ntoskrnl/cc/view.c:595-933 | until then a run may go on with any event its last state allows, so runs exclude nothing else |
| `CacheRuns.StepExactly` | ntoskrnl/cc/view.c:595-933 | a step of whatever kind keeps the invariant exactly if it does not trip an assertion on Dirty |
| `CacheRuns.FirstTripBreaks` | ntoskrnl/cc/view.c:670-739 | in every run the first event to trip one breaks the invariant |
| `CacheRuns.RefsAreExact` | ntoskrnl/cc/view.c:66-101 | until an assertion is tripped, ReferenceCount is list membership plus dirtiness plus client references and never zero; linked means on the file's list and on the LRU list |
| `CacheFreed.FreedExactly` | ntoskrnl/cc/view.c:1056-1099 | in every run an event frees a VACB exactly if it gives back all the references the count shows; then the count was one, the VACB was on no list and is held by nobody, as CcRosInternalFreeVacb asserts |
| `CacheFreed.FreedOnce` | ntoskrnl/cc/view.c:1056-1099 | a VACB that was freed stays unallocated, on no list and held by nobody |
| `CacheRuns.IndexIsFaithful` | ntoskrnl/cc/view.c:626-668 | until an assertion is tripped: lists strictly increasing in aligned offsets, one view per chunk, and the search finds the covering view exactly when there is one |
| `CacheRuns.LruIsOrdered` | ntoskrnl/cc/view.c:1012-1020 | until an assertion is tripped, the LRU list is strictly ordered by last touch |
| `CacheRuns.InsertKeeps` | ntoskrnl/cc/view.c:865-933 | both outcomes of a creation race: the loser's view is freed and the winner's referenced, or the own view is linked |
| `CacheRuns.UnusedByCount` | ntoskrnl/cc/view.c:536-541 | a count below two means clean, unheld and exactly one, as the code asserts |
| `CacheLists.CoveringExact` | ntoskrnl/cc/view.c:641-662 | the covering view of an offset is the one linked view of its chunk, and there is none exactly if the chunk is uncovered |
| `CacheSteps.LinkKeeps` | ntoskrnl/cc/view.c:914-930 | linking the first view of a chunk keeps the invariant |
| `CacheSteps.UnholdKeeps` | ntoskrnl/cc/view.c:80-101 | giving a reference back keeps the invariant and never frees a linked view |
| `CacheSteps.MarkDirtyKeeps` | ntoskrnl/cc/view.c:670-704 | marking a clean view keeps the invariant |
| `CacheSteps.TouchKeeps` | ntoskrnl/cc/view.c:1012-1020 | moving a view to the LRU tail keeps the invariant |
| `CacheFlush.WriteKeeps` | ntoskrnl/cc/copy.c:690-701 | a copy into a held view is one write of the flat file, and its writer answers for it until the view is marked |
| `CacheFlush.WriteMoreKeeps` | ntoskrnl/cc/copy.c:690-701 | so is a further copy by a writer that has not marked the view yet |
| `CacheFlush.BeginFlushKeeps` | ntoskrnl/cc/view.c:175-187 | unmarking before the write keeps the invariant, with the flusher answering for the view |
| `CacheFlush.SaveKeeps` | ntoskrnl/cc/view.c:184-187 | Mm may write a view's bytes at any time, or a mix with older ones while the view is dirty, abandoned or answered for, without changing any reading |
| `CacheDrop.EndFlushKeeps` | ntoskrnl/cc/view.c:194-206 | the end of a flush keeps the invariant whatever happened to the view since it began: on disk, or dirty again |
| `CacheDrop.ReleaseKeeps` | ntoskrnl/cc/view.c:595-624 | a release keeps the invariant, keeps the VACB, and with Dirty leaves the view on the dirty list |
| `CacheDrop.AbandonKeeps` | ntoskrnl/cc/copy.c:703-714 | the exception path leaves the view readable and records that nothing protects its bytes |
| `CacheDrop.MarkExactly` | ntoskrnl/cc/view.c:670-704 | marking keeps the invariant exactly if the view is clean |
| `CacheDrop.MarkTwice` | ntoskrnl/cc/view.c:682-697 | marking a dirty view lists it twice, counts its pages twice and leaves its count one above its references |
| `CacheDrop.UnmarkExactly` | ntoskrnl/cc/view.c:706-739 | unmarking keeps lists and counts exactly if the view is dirty, and the invariant if its bytes are also on disk or answered for |
| `CacheDrop.UnmarkTwice` | ntoskrnl/cc/view.c:715-733 | unmarking a clean view leaves the account one view and its count one reference too low |
| `CacheDrop.BeginFlushExactly` | ntoskrnl/cc/view.c:175 | the first half of a flush keeps the invariant exactly if its view is dirty |
| `CacheDrop.EndFlushExactly` | ntoskrnl/cc/view.c:194-206 | the second half keeps it exactly if Mm succeeded or the view is clean |
| `CacheDrop.DetachCoherent` | ntoskrnl/cc/view.c:765-782 | taking a view nobody left unsaved off its lists changes no reading: it equals its chunk on disk |
| `CacheDrop.DropKeeps` | ntoskrnl/cc/view.c:765-795 | taking a view nobody is writing off all lists and giving the list's reference back keeps the invariant, records what only it held as lost, and frees it exactly if nobody holds it |
| `CacheDrop.CloseViewKeeps` | ntoskrnl/cc/view.c:249-269 | teardown of one view keeps the invariant |
| `MarkRaces.DirtyIsLastMark` | ntoskrnl/cc/view.c:670-739 | in every run a view is dirty exactly if the last event to mark or unmark it marked it |
| `MarkRaces.UnmarkTrips` | ntoskrnl/cc/view.c:346-394 | a view picked as dirty and unmarked later trips the assertion exactly if the last to mark or unmark it in between unmarked it |
| `MarkRaces.RemarkTrips` | ntoskrnl/cc/view.c:175-195 | a flush that fails trips it exactly if the last to mark or unmark the view since it began marked it |
| `MarkRaces.MarkTrips` | ntoskrnl/cc/view.c:607-610 | a client that found the view clean and marks it trips it exactly if the last to mark or unmark it in between marked it |
| `MarkRaces.UnmarkCanFindItClean` | ntoskrnl/cc/view.c:346-394 | a run in which the lazy writer unmarks a view that CcFlushCache has unmarked since it was picked |
| `MarkRaces.RemarkCanFindItDirty` | ntoskrnl/cc/view.c:194-195 | a run in which a failed flush marks a view that is already dirty |
| `MarkRaces.MarkCanFindItDirty` | ntoskrnl/cc/view.c:607-610 | a run in which two clients mark the view both found clean |
| `MarkRaces.ReleaseIsPath` | ntoskrnl/cc/view.c:595-624 | a release in one piece is its test, its mark and its dereference in a row, when nothing interferes |
| `CacheAccounts.AccountsAgree` | ntoskrnl/cc/view.c:682-694 | until an assertion is tripped, CcTotalDirtyPages is 64 per dirty view and the sum of all files' DirtyPages |
| `WriteThrottle.DirtyPagesBounded` | ntoskrnl/cc/copy.c:345-445 | with at most k admitted writes of at most n views each and f flushes bound to fail at once, dirty pages stay below threshold + 64 (n k + f + u) in every run, where u views were marked by writers no test holds back (write-through, remote files, pinned data) |
| `WriteThrottle.OneWriterAtATime` | ntoskrnl/cc/copy.c:378-440 | with writes of at most 256 KB one at a time and no failing flush, dirty pages stay below threshold + 128, beyond what no test holds back |
| `WriteThrottle.MoveWeight` | ntoskrnl/cc/view.c:682-732 | apart from admission only marks that no test holds back add to the dirty pages counted with those still to come |
| `WriteThrottle.MoveKeeps` | ntoskrnl/cc/copy.c:433-440 | the bound, counting marks still to come, is kept by admission, marking, leaving, both halves of a flush and everything else |
| `WriteThrottle.ViewsTouched` | ntoskrnl/cc/copy.c:669-673 | how many views a write of given length can touch |
| `CacheManager.Manager.Walk` | ntoskrnl/cc/view.c:641-662 | the walk that stops at the first view past the offset finds the covering view exactly, and otherwise the sorted place |
| `CacheManager.Manager.Lookup` | ntoskrnl/cc/view.c:626-668 | equals the lookup step: the covering view, referenced once more |
| `CacheManager.Manager.Insert` | ntoskrnl/cc/view.c:865-933 | equals the insertion step: link in order, or free the own view and take the one found |
| `CacheManager.Manager.FreeOneUnused` | ntoskrnl/cc/view.c:741-798 | frees the least recently touched of the clean unreferenced views, and none exactly if all are used |
| `CacheManager.FirstIsOldest` | ntoskrnl/cc/view.c:753-790 | the first unused view in LRU order was touched least recently |
| `CacheManager.Manager.Create` | ntoskrnl/cc/view.c:800-933 | however often mapping fails and views are evicted, the caller gets one reference to the one view of the chunk, or nothing and no reference changes; it gets nothing exactly if mapping fails more often than there are unused views |
| `CacheManager.Manager.Get` | ntoskrnl/cc/view.c:981-1030 | succeeds exactly if the chunk has a view or mapping fails at most as often as there are unused views; then as Create, the view is last in the LRU list, views in use stay, no write is affected |
| `CacheManager.Manager.Mark` | ntoskrnl/cc/view.c:670-704 | the marking step; lists, counts and bytes go on to agree exactly if the view was not dirty, as the code asserts |
| `CacheManager.Manager.Unmark` | ntoskrnl/cc/view.c:706-739 | the unmarking step; lists and counts go on to agree exactly if the view was dirty, as the code asserts, and the bytes too exactly if the store has them or somebody answers for them |
| `CacheManager.Manager.Release` | ntoskrnl/cc/view.c:595-624 | equals the release step and keeps the invariant |
| `CacheCopy.ViewReadsFlat` | ntoskrnl/cc/copy.c:584-587 | the part of a linked view at an offset holds the flat file's bytes |
| `CacheCopy.ReadPiece` | ntoskrnl/cc/copy.c:565-606 | one round of a read: the status is decided by whether a view can be had and by what Mm and the copy do; flat bytes on success and none otherwise, references as before |
| `CacheCopy.CopyRead` | ntoskrnl/cc/copy.c:533-633 | a finished read returns Length bytes of the flat file, or none if the end is no LONGLONG; a broken-off one a correct prefix; references as before; while there are unused views enough for the refusals to map, it finishes exactly if no chunk is refused, and otherwise reports the first refusal |
| `CacheCopy.NeverRefusedIsRoomy` | ntoskrnl/cc/view.c:837-855 | there are always views enough if Mm never refuses to map one |
| `CacheCopy.WriteInParts` | ntoskrnl/cc/copy.c:669-715 | a write done in two adjoining parts is the one write |
| `CacheCopy.WritePiece` | ntoskrnl/cc/copy.c:670-715 | one round of a write: the status is decided by whether a view can be had and by what Mm and the copy do; copied and on the dirty list, or refused with the bytes copied, or nothing; whatever the status, bytes are lost only of views abandoned before, and only a refused round abandons its view |
| `CacheCopy.CopyWrite` | ntoskrnl/cc/copy.c:638-716 | the copying of CcCopyWrite: wherever it stops, the flat file is that after one write of the bytes copied so far; all of them on success, none on overflow, which is always reported; bytes are lost only of views abandoned before, and only the last chunk copied to may be abandoned; while there are unused views enough for the refusals to map, it succeeds exactly if no chunk is refused |
| `CacheCopy.ReadBack` | ntoskrnl/cc/copy.c:533-722 | reading the range just written returns what was written |
| `FlushRange.CleanIsDurable` | ntoskrnl/cc/view.c:1154-1158 | a chunk nobody is writing to and nothing was lost of, without dirty view, is on disk |
| `FlushRange.FlushView` | ntoskrnl/cc/view.c:166-209 | an undisturbed flush is the two flush steps in a row |
| `FlushRange.FlushPiece` | ntoskrnl/cc/view.c:1160-1206 | one round goes through the view exactly if the chunk has a dirty one, and otherwise asks Mm; it leaves other chunks alone and on success no dirty view of its own |
| `FlushRange.MmLength` | ntoskrnl/cc/view.c:1190-1201 | the length asked of Mm ends at the range's or the chunk's end, whichever is first |
| `FlushRange.NextRound` | ntoskrnl/cc/view.c:1214-1221 | the overflow exit is taken only where the range ends in the last chunk a LONGLONG can address |
| `FlushRange.FlushCache` | ntoskrnl/cc/view.c:1101-1231 | the pieces tile the range as far as it got, each in one chunk, through a view exactly where that was dirty at the call, and every byte of them is on disk unless its chunk was being written; success exactly if the file is cached, the end does not overflow and Mm can write every chunk, and ValidDataLength then covers the range; exactly what it becomes otherwise; Information is the sum Mm reported; overflow is reported exactly when the end overflows |
| `FlushRange.ValidCovers` | ntoskrnl/cc/view.c:1208-1211 | ValidDataLength covers what was flushed |
| `FlushRange.ValidWhenBroken` | ntoskrnl/cc/view.c:1160-1211 | what ValidDataLength becomes when a flush breaks off: the whole range if a chunk flushed had no dirty view at the call, else the end of what was flushed, unless it was more before |
| `FlushRange.ValidRunsAhead` | ntoskrnl/cc/view.c:1208-1211 | in a flush that breaks off ValidDataLength exceeds both the chunks flushed and its old value exactly if one of these chunks had no dirty view at the call and the old value is short of the range |
| `FlushRange.ValidBeyondFlushed` | ntoskrnl/cc/view.c:1190-1211 | a flush of two chunks that writes the first, fails, and declares both valid |
| `WriteThrough.WriteFile` | ntoskrnl/cc/copy.c:638-723 | CcCopyWrite with the write-through flush: the status and the bytes that may be lost are those of the copying, whatever the flush does; the flush gets through exactly if Mm can write every chunk of the range, and then the bytes are on disk except where somebody else was writing to the chunk |
| `WriteThrough.SucceedsUnflushed` | ntoskrnl/cc/copy.c:717-721 | a write-through write that is reported as done although its flush failed |
| `CacheSweeps.Purge` | ntoskrnl/cc/fs.c:207-288 | drops exactly the views inside the range that do not end with it, in order of offset up to the first in use; succeeds exactly if none of them is in use and MmPurgeSegment succeeds, and names that one otherwise; with none in use no view is left inside exactly if none ended with the range; bytes lost are exactly those of dirty or abandoned views dropped |
| `CacheSweeps.NoneTaken` | ntoskrnl/cc/fs.c:232-243 | behind the first view that ends with the range or past it the code takes none |
| `CacheSweeps.PurgeFirstView` | ntoskrnl/cc/fs.c:232-243 | purging exactly the first 256 KB drops nothing and succeeds if MmPurgeSegment does |
| `CacheSweeps.TrimPass` | ntoskrnl/cc/view.c:486-558 | a pass frees exactly the views with a count below two and reports min(64 per view, target) |
| `LazyFlush.FlushDirtyPages` | ntoskrnl/cc/view.c:312-458 | spared files untouched, references given back; the views no longer dirty are exactly those tried that Mm could write, none is tried once the target is met, and the count is what the attempts report; when it ends nothing is dirty if all was asked, else the target is met or every view left is spared or was refused its lock since the last flush; it ends within a bound on rounds unless all is asked while a dirty view is spared, and does not while every attempt fails |
| `LazyFlush.FlushAllCanSpin` | ntoskrnl/cc/view.c:335-375 | a run after which flushing everything does not end |
| `LazyFlush.Trim` | ntoskrnl/cc/view.c:460-593 | exactly which views go: those unused at first and, if the flush reported pages, those it cleaned that nobody holds; exactly what is reported, never more than the target; the flush achieves what CcRosFlushDirtyPages does; references and writes untouched, bytes lost only of abandoned views; it ends exactly unless it has to flush everything while a dirty view is spared |
| `CacheTeardown.DeleteFileCache` | ntoskrnl/cc/view.c:211-310 | every view of the file off all lists, those of others kept; a view somebody holds is leaked with exactly those references, any other freed; lost are exactly the chunks of dirty views that Mm could not write and of abandoned ones, and every other byte of the file is on disk |
| `CacheTeardown.AllWritten` | ntoskrnl/cc/view.c:259-269 | if Mm could write all dirty views, nothing is lost of a chunk nobody is writing to and nobody has abandoned |
| `Pinning.GiveKeeps` | ntoskrnl/cc/pin.c:240-262 | one more token keeps RefCount and PinCount equal to the tokens out |
| `Pinning.TakeKeeps` | ntoskrnl/cc/pin.c:582-602 | giving a token back keeps the counts, and PinCount tells a map token from a pin token |
| `Pinning.AddAnchored` | ntoskrnl/cc/pin.c:106-208 | a new BCB lies inside its view and owns the reference acquired for it |
| `Pinning.ReserveAnchored` | ntoskrnl/cc/pin.c:375-383 | while a call has a view and no BCB yet, BCBs and views in hand stay, whatever was evicted meanwhile |
| `Pinning.TakeLastAnchored` | ntoskrnl/cc/pin.c:70-104 | the last token gives the BCB's reference to the view back, others keep theirs |
| `BcbCalls.CoveredShows` | ntoskrnl/cc/pin.c:53-59 | the address from a covering BCB shows the file's bytes exactly if the range is not empty on the chunk border |
| `BcbCalls.BorderIsMissed` | ntoskrnl/cc/pin.c:53-59 | such an empty range exists |
| `BcbCalls.BcbList.Find` | ntoskrnl/cc/pin.c:36-68 | finds a covering BCB of the kind asked for exactly when there is one |
| `BcbCalls.BcbList.Dereference` | ntoskrnl/cc/pin.c:70-104 | one token back; the BCB and its view reference go with the last |
| `BcbCalls.BcbList.Publish` | ntoskrnl/cc/pin.c:106-208 | whatever other calls did since the view was acquired: a token for a covering BCB, and the view owned by a new BCB or given back |
| `BcbCalls.BcbList.OutOfMemory` | ntoskrnl/cc/pin.c:121-125 | without memory for a BCB the view is released twice and the invariant of the counts is broken |
| `BcbCalls.SecondReleaseBreaks` | ntoskrnl/cc/pin.c:386-395 | the second release frees a view nobody else uses while it is listed, and leaves the count of any other one too low |
| `BcbCalls.BcbList.Map` | ntoskrnl/cc/pin.c:320-428 | the result is decided by whether a covering BCB exists, a view can be had, there is memory for a BCB and the data is resident; on success one map token for a BCB covering the cut range, at the right address unless the range is empty on the border; otherwise no BCB or token has changed, and the counts are wrong exactly if a view was had and there was no memory for a BCB |
| `BcbCalls.BcbList.Pin` | ntoskrnl/cc/pin.c:210-318 | as Map for pins, with refused locks and existing-only requests |
| `BcbCalls.BcbList.PinMapped` | ntoskrnl/cc/pin.c:430-473 | exactly when the pin succeeds, a map token is traded for a pin token; otherwise no token changes |
| `BcbCalls.BcbList.Unpin` | ntoskrnl/cc/pin.c:569-602 | takes back exactly the token given |
| `BcbCalls.BcbList.Repin` | ntoskrnl/cc/pin.c:604-617 | one repin token more |
| `BcbCalls.BcbList.UnpinRepinned` | ntoskrnl/cc/pin.c:619-681 | one repin token back; the branch for a BCB pinned at its last reference is dead; with WriteThrough it reports success exactly if the range does not overflow and Mm can write every chunk of it, and then every byte of the BCB's range that nobody is writing is on disk |
| `BcbCalls.BcbList.WritePinned` | ntoskrnl/cc/pin.c:545-567 | the file has the write, the view is dirty, pins and references unchanged |
| `DeferredWrites.Deferrals.PostDeferredWrites` | ntoskrnl/cc/copy.c:72-127 | every write is resumed or queued, once; what was put aside is in front, last first |
| `DeferredWrites.OrderKept` | ntoskrnl/cc/copy.c:108-126 | the writes left keep their order exactly if the answers make no two writes of the pass wait |
| `DeferredWrites.TwoChangePlaces` | ntoskrnl/cc/copy.c:108-126 | two writes that both have to wait change places |
| `WorkerPool.PostKeeps` | ntoskrnl/cc/lazywrite.c:53-92 | posting keeps the pool's invariant |
| `WorkerPool.TakeKeeps` | ntoskrnl/cc/lazywrite.c:266-311 | a worker taking an item, throttling or going idle keeps it |
| `WorkerPool.FinishKeeps` | ntoskrnl/cc/lazywrite.c:313-343 | a worker finishing an item keeps it |
| `WorkerPool.HandBarrier` | ntoskrnl/cc/lazywrite.c:298-311 | when a SetDone item is handed out all earlier ones are done |
| `WorkerPool.PoolNeverStuck` | ntoskrnl/cc/lazywrite.c:266-349 | idle plus active is the number of workers, and with work or throttle some worker can move |
| `LazyWriter.SetDoneIsABarrier` | ntoskrnl/cc/lazywrite.c:266-343 | in every run, when a SetDone event is set every earlier item, and every express item posted before it was taken, is done |
| `LazyWriter.WokenAfterWriteBehind` | ntoskrnl/cc/lazywrite.c:170-191 | a waiter is woken only after the write-behind of its scan is done |
| `LazyWriter.RunNeverStrands` | ntoskrnl/cc/lazywrite.c:266-349 | in every run queued work has an active worker, and a throttle has a pending SetDone or a worker about to drop it |
| `LazyWriter.HandledOnce` | ntoskrnl/cc/lazywrite.c:266-349 | an item is handled at most once, by one worker |
| `WorkQueues.Queues.PostWorkQueue` | ntoskrnl/cc/lazywrite.c:53-92 | on the linked lists: the item is behind all others of its queue, the longest idle thread is woken exactly if there is one and no throttle, and the pool's invariant is kept |
| `WorkQueues.Queues.NextItem` | ntoskrnl/cc/lazywrite.c:266-311 | on the linked lists: the thread gets the first express item, else the first regular one, or steps aside for a SetDone or for want of work and is last on the idle list; the pool's invariant is kept |
| `WorkQueues.Queues.ItemHandled` | ntoskrnl/cc/lazywrite.c:313-343 | a thread whose item was handled owes the pool a dropped throttle exactly after a SetDone; the pool's invariant is kept |
| `IntrusiveList.List.Remove` | ntoskrnl/config/cmboot.c:988-990 | unlinking one entry of the ring leaves the others in order |
| `IntrusiveList.List.InsertBefore` | ntoskrnl/config/cmboot.c:1001-1003 | linking an entry in front of another |
| `DriverOrderSpec.RankIsFirstMatch` | ntoskrnl/config/cmboot.c:825-881 | a driver's rank is the first listed position that matches its group |
| `DriverOrderSpec.RegroupSorts` | ntoskrnl/config/cmboot.c:825-881 | the sweeps permute, order by rank with unlisted groups last, and keep unlisted drivers in order |
| `DriverOrder.ScanFindsName` | ntoskrnl/config/cmboot.c:841-852 | the backward scan isolates each listed name, whatever precedes the buffer |
| `DriverOrder.ScanIsComplete` | ntoskrnl/config/cmboot.c:839-877 | it ends only when all names have been swept |
| `DriverOrder.DoSort` | ntoskrnl/config/cmboot.c:825-881 | always a permutation; on a well-formed list exactly the regrouping by the listed groups |
| `DriverOrder.ScanFirst` | ntoskrnl/config/cmboot.c:838-853 | a first scan that begins in the middle of a string finds the string before it, or no end exactly in the stated case |
| `DriverOrder.CutIsWellFormed` | ntoskrnl/config/cmboot.c:944-950 | a list cut at a NUL lists the names before it |
| `DriverOrder.ShortListIsWhole` | ntoskrnl/config/cmboot.c:944-950 | up to 32768 characters the whole list counts |
| `DriverOrder.LongNameTrips` | ntoskrnl/config/cmboot.c:838-853 | a well-formed list of one name of 40000 letters trips the assertion |
| `DriverOrder.SortDriverList` | ntoskrnl/config/cmboot.c:899-951 | refused exactly unless it is a terminated REG_MULTI_SZ; with the length cut to 16 bits, trips the assertion exactly if the first string found has no end, and otherwise regroups by the names listed up to there |
| `TagSort.MoveKeepsShape` | ntoskrnl/config/cmboot.c:976-1011 | a move keeps the run sorted but for one pair and makes progress |
| `TagSort.MoveCanMisplace` | ntoskrnl/config/cmboot.c:976-1011 | three tags for which a single move adds an inversion |
| `TagSort.OrderGroup` | ntoskrnl/config/cmboot.c:953-1015 | terminates with the segment a tag-sorted permutation of itself and nothing else moved |
| `DriverOrder.ResolveDriverDependencies` | ntoskrnl/config/cmboot.c:1027-1076 | every run of one group in tag order, no driver leaves its run |
| `DriverOrder.RunsAreSorted` | ntoskrnl/config/cmboot.c:1027-1076 | tag order of neighbours is tag order of whole runs |
| `DriverOrder.OrderBootDrivers` | ntoskrnl/config/cmboot.c:899-1076 | the final order: a permutation, by first listed group position with unlisted groups last, by tag within runs; all groups of the list count up to 32768 characters |
| `PagePool.PushKeeps` | ntoskrnl/config/cmalloc.c:198-212 | a returned entry keeps FreeCount equal to the page's free entries |
| `PagePool.ReleaseKeeps` | ntoskrnl/config/cmalloc.c:212-243 | a page released has no entry held or listed |
| `PagePool.Pool.TakeEntry` | ntoskrnl/config/cmalloc.c:250-325 | the first free entry, from a new page if need be; nobody else holds it |
| `PagePool.Pool.PutEntry` | ntoskrnl/config/cmalloc.c:198-247 | back on the list; the page goes exactly when all its other entries are free, and then nothing of it is held or listed |
| `KcbAllocator.Kcbs.Allocate` | ntoskrnl/config/cmalloc.c:250-339 | a block held by nobody, signed as in use |
| `KcbAllocator.Kcbs.Invalidate` | ntoskrnl/config/cmalloc.c:76-93 | marking a held block for freeing keeps the signatures right |
| `KcbAllocator.Kcbs.Free` | ntoskrnl/config/cmalloc.c:67-248 | for a block of a live page: refused exactly if not marked for freeing, ignored exactly if its page's address was recently released, otherwise returned, and the page released exactly if all its other blocks are free; a refused free changes nothing; nothing is ignored if no page address is reused too soon |
| `KcbAllocator.IgnoredAfterReuse` | ntoskrnl/config/cmalloc.c:184-196 | a block allocated, freed with its page and allocated again at the same address: its second free is ignored |
| `KcbAllocator.FreeDelayItem` | ntoskrnl/config/cmalloc.c:411-482 | ignored exactly if its page's address was recently released, otherwise returned, and the page released exactly if all its other items are free |
| `KeyPath.CountLength` | ntoskrnl/config/cmapi.c:1526-1540 | the first pass counts the path's bytes |
| `KeyPath.WritePath` | ntoskrnl/config/cmapi.c:1561-1605 | the backward fill writes exactly the path, ends at zero, and leaves the rest of the buffer alone |
| `KeyPath.QueryNameInformation` | ntoskrnl/config/cmapi.c:1515-1609 | the length is always reported; the statuses and what is written in each case |
| `KeyPath.TextIsWhole` | sdk/lib/cmlib/cmname.c:93-105 | a compressed name is in the path in full exactly if its length is below 32768 |
| `ItsRing.FillHitsFreeSlot` | hal/halarm64/halarm64.c:2345-2377 | the slot filled belongs to no outstanding command |
| `ItsRing.TargetMeansConsumed` | hal/halarm64/halarm64.c:2380-2396 | the read index at a poster's target means its command was consumed |
| `ItsRing.PollAnswers` | hal/halarm64/halarm64.c:2387-2412 | exactly when a poll answers TRUE: the number of commands consumed is the poster's own number, modulo the ring size |
| `ItsRing.ConsumedButTimedOut` | hal/halarm64/halarm64.c:2387-2412 | on every ring of two or more entries, a run in which a post reports a time-out although its command was consumed |
| `ItsRing.RunsAreSafe` | hal/halarm64/halarm64.c:2326-2413 | in every interleaving the consumed commands are a prefix of the posted, at most Entries - 1 are outstanding and intact, and TRUE means consumed |
| `ItsMapping.NextKeeps` | hal/halarm64/halarm64.c:2462-2629 | every step of a caller, poster or the ITS keeps the protocol's invariant |
| `ItsMapping.ConsumedInOrder` | hal/halarm64/halarm64.c:2505-2629 | in every run each MAPTI consumed or posted is preceded by its MAPC and MAPD, and no device is mapped twice |
| `ItsMapping.SuccessIsMapped` | hal/halarm64/halarm64.c:2926-2957 | a caller given its message has had MAPC, MAPD and MAPTI consumed in order |
| `ItsFailure.StaysGivenUp` | hal/halarm64/halarm64.c:2505-2602 | whatever anybody does next, a device given up stays given up |
| `ItsFailure.GivenUpForGood` | hal/halarm64/halarm64.c:2505-2602 | in every run, once a device is given up no caller for its requester gets its message that had not passed the test of the state |
| `ItsFailure.GivenUpExactly` | hal/halarm64/halarm64.c:2569-2601 | in every run a requester has a device at -1 exactly if its table could not be allocated or the post of its MAPD answered FALSE |
| `ItsFailure.MappedButGivenUp` | hal/halarm64/halarm64.c:2531-2601 | on every ring of two or more entries, a run in which the MAPD of a device is consumed and the device is given up |
| `PhysicalMemory.CutCovers` | hal/halarm64/halarm64.c:3121-3157 | the parts of a split descriptor cover what it covered |
| `PhysicalMemory.CoverageLost` | hal/halarm64/halarm64.c:3124-3140 | with skipped pages, a size that does not fit 32 bits and the block used up, a page drops out of the list |
| `PhysicalMemory.CoverageExactly` | hal/halarm64/halarm64.c:3121-3157 | exactly when the list covers the same pages as before |
| `PhysicalMemory.WithdrawnExactly` | hal/halarm64/halarm64.c:3121-3157 | the pages given are not free afterwards exactly if their number fits 32 bits or some were skipped |
| `PhysicalMemory.GivenTwice` | hal/halarm64/halarm64.c:3121-3157 | two requests for 2^32 pages get the same address |
| `PhysicalMemory.FreeAfter` | hal/halarm64/halarm64.c:3121-3157 | exactly which pages are free afterwards |
| `PhysicalMemory.NothingElseTaken` | hal/halarm64/halarm64.c:3133-3145 | only the pages given leave the free ones exactly if none were skipped or none are left behind |
| `PhysicalMemory.MemoryMap.Allocate` | hal/halarm64/halarm64.c:3039-3159 | over any sequence of calls: descriptors disjoint; the pages given were free, are aligned if asked, and, as long as each request is below 2^32 pages or skips some, not free afterwards and apart from all given before; zero exactly when nothing suits or descriptors run out; above the limit only if nothing below suits |

## Left out

- The second cache manager (`ntoskrnl/cache`): it has the same role.
- The memory manager behind the views: a view is a copy of its 256 KB of the store, loaded when it is linked; what Mm writes of it page by page, in a flush or by itself, is events of the runs, while the sequential calls have a flush write the view at one instant or tear the chunk; residency and MmPurgeSegment change no bytes.
- Steps inside a locked section are one step. After an assertion on Dirty has been tripped the source relinks an entry that is on the list, which the model's lists do not show; what is proved of runs ends there.
- File offsets are natural numbers; that the 64-bit addition in IsPointInRange (`ntoskrnl/include/internal/cc.h`) overflows in the last 256 KB a LONGLONG can address is not modelled.
- LazyFlush.FlushDirtyPages: which files are spared does not change during a call; the open count it holds on a file's map during a flush, and a teardown its release may cause, are not modelled.
- CacheCopy.CopyRead: where Mm refuses to map more often than there are unused views to evict, the result depends on which views are evicted on the way and is stated round by round (CacheCopy.ReadPiece) only.
- CacheCopy.CopyWrite: the same, with CacheCopy.WritePiece.
- WriteThrough.WriteFile: the same, for the copying.
- CacheSweeps.Purge: does not model the uninitialization of private cache maps; the answer of MmPurgeSegment is an argument.
- CacheTeardown.DeleteFileCache: requires that nobody is in the middle of a write or a flush of a view of the file, because it runs when the file's last handle is gone.
- BcbCalls.BcbList.Map: between its search for a BCB and the list it is put on nothing interferes; that other calls may is BcbCalls.BcbList.Acquire and BcbCalls.BcbList.Publish, which keep everything in any order.
- BcbCalls.BcbList.Pin: as Map; the BCB's lock is an argument, and that the loser of a creation race acquires its own lock instead of the winner's is not modelled.
- WriteThrottle.DirtyPagesBounded: 32-bit overflow of the page counts is not modelled.
- KeyPath.QueryNameInformation: requires the path's byte length to fit a ULONG, which the depth limit of the registry ensures.
- KcbAllocator.Kcbs.Free: requires the block's page to be live; what a stale pointer into a released page reads is not modelled, nor are blocks allocated one by one and the wrap-around of the ring's LONG index.
- The bit layout of ITS commands and the hash of requester ids beyond its being a function into the buckets: finite calculations.
- Liveness under a scheduler: timers, wait time-outs and fairness; apart from the loop of CcRosFlushDirtyPages the theorems are about safety.
- Read-ahead, CcZeroData, CcDeferWrite, structured exceptions other than the release they cause, tracing and assertions that only test the caller.
- MMIO, barriers and cache maintenance around the ITS; the ITS is a consumer of the ring. The stall bit of CREADR, which keeps a poll from ever matching its target, is not modelled.
- PhysicalMemory.MemoryMap.Allocate: page counts are natural numbers; that PageCount + Alignment can overflow 64 bits in HalpAllocPhysicalMemory is not modelled.
