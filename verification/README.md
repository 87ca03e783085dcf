# A model of the leveling driver

The driver puts a log-structured translation layer between a client and a flash medium. Writes of
512-byte sectors are collected in a cache and written as purges of 512 sectors, one after the other,
into chunks of 0x40000 sectors. A block map says where every 4 KB block is now. While one chunk fills,
the live blocks of the next one are moved out of it, so that it is empty when its turn comes. After a
restart the map is rebuilt from the control blocks of the chunks and the control sectors of the purges.

The project describes the driver on two levels.

*Values.* `Model` gives the context and the medium as one value, and every device operation and every
in-memory step as a function on it. `Invariant` says what holds between the steps: the map is the newest
view of the log (`LogOk`), the medium can tell recovery where the log ends (`Recorded`, `Finalised`,
`Entered`), the cache is an index of whole blocks (`CacheOk`), and relocation is on schedule (`RelocOk`).
`BlockLog`, `LogKeeping`, `DeviceKeeping`, `Capacity`, `CacheIndex`, `LogicalDisk`, `Relocation`,
`Completeness`, `Writing` and `Flushing` show what every step keeps; `Termination` that a write ends, and
`Pacing` how long relocation may hold it up; `Choice` which chunk is emptied next; `Reading` what a read
returns; `Recovery`, `Crash`, `TornPurge` and `TornControl` what a restart finds; `Format` and `Runs` put it
together: every run of writes, flushes, crashes, cut purges and broken control blocks from a formatted
medium behaves like an array of sectors with a second, durable copy, and `Wear` adds that the wear counters
count exactly the control blocks. `Salvage` says what a request leaves behind that
a failing device stops half way, and `Unflagged` which writes `CacheDirty` records and which it does not.
`Gate`, `Queues` and `Readers` add the scheduler, its queues and the read threads, over all interleavings;
`Unmarked`, `ChunkFill`, `MetReader` and `WornMedium` are about the one step there that marks nobody.

*Code.* `Context`, `Handlers`, `Rebuilding`, `Scheduler`, `Transfer`, `Rounds`, `Checksum`, `Pattern` and
`Setup` are the functions of the driver as they run: classes with the driver's fields and arrays, updated in
place, and the loops of the source. Each method is tied to the function of the value level that it
computes, so the theorems there are theorems about the methods.

A device request is one step. It succeeds, or the mode becomes ERROR and the handlers stop; a purge that
fails may have written any first part of its sectors.

## What does not hold, and when it does

* A write that stays inside one block fills the block from the medium and then overwrites it in the
  cache, and this path leaves `CacheDirty` clear (driver/vscsi.c:256-292). Behind any restart, such a write
  and a flush leave the medium as if neither had happened: `Unflagged.SubBlockWriteLost`, and
  `Format.FlushLosesWrite` for every freshly formatted medium. `Flushing.FlushDurableExactly` says for every
  context when a flush makes the logical disk durable. A write that fits in the empty cache sets the flag
  exactly if it does not stay inside one block: `Unflagged.FlagSetExactly`, and
  `Format.FlushKeepsWriteExactly` says what a restart finds behind it on every freshly formatted medium. A
  logical disk small enough to be cached as a whole with the flag clear is never stored again by any
  request: `Unflagged.WhollyCachedStays`.
* A finalising flush in that situation sends the control block through the cache memory and so replaces
  what was cached there (driver/vscsi.c:503). `Flushing.FlushKeepsExactly` says for every flush whether the
  client's sectors survive it: they do exactly if `CacheDirty` told the truth, or the flush does not
  finalise, or nothing was purged since the last control block, or what is cached happens to be the control
  block. `Format.FinaliseDamages` comes to the opposite from every freshly formatted medium.
* A finalising flush that finds the chunk full marks no read threads (driver/vflush.c:47-55), and no mark is
  out then (`Readers.FlushUnmarked`). `MetReader.UnmarkedSafeExactly`: all that follows is safe exactly if no
  device read of the next chunk is in flight at that moment. Otherwise `Unmarked.ReaderMet` and
  `MetReader.ReaderMetBy` give the further requests up to a purge that overlaps the read.
  `MetReader.FlushMeetsReader` gives the requests that lead there, and `WornMedium.UnmarkedFromFormat` a run
  from a freshly formatted medium to such an overlap.
* A control block that a power failure leaves broken (driver/vscsi.c:489-508) costs nothing if the chunk was
  entered from a full one, since that one leads to it and all its purges have their records. The first chunk
  after formatting has no such predecessor, and then everything stored is lost:
  `TornControl.TornControlExactly`, and `Format.FirstControlLost` for every freshly formatted medium.
* The flush handler does not look at the mode (driver/vflush.c:38-46): while the medium fails, it sends the
  same purge again and does not end. `Salvage.FailingFlush` shows that, and that a restart loses nothing more
  by it.
* A lower driver that reports success for a piece without moving a sector keeps a request going for ever
  (driver/vreq.c:90-92): `Transfer.EmptySuccessNeverEnds`. With finitely many such successes the request
  ends, within a number of attempts that `Transfer.RequestEnds` gives.
* The size check multiplies in 32 bits (driver/vgate.c:61), and the number of sectors is computed as
  `LastLBA + 1` in 32 bits (driver/config.c:5): `Setup.AcceptsExactly` says when the check means what it
  should. The range check of a request adds in 32 bits (driver/vscsi.c:23): `Handlers.AdmittedExactly`.

## Model

| member | source | states |
|---|---|---|
| BlockLog.UpdateMapCounts | driver/vscsi.c:400-422 | live-block conservation: after any list of entries each chunk's Used is the number of map entries that point into it, so the decrement never underflows |
| BlockLog.LatestExtend | driver/vscsi.c:400-422 | recording one more slot of a chunk keeps every block at its entry with the greatest (SCN, offset), in whatever order chunks are recorded, given distinct SCNs |
| BlockLog.LatestUpdateMap | driver/recovery.c:120-123 | the same for all entries of a control block |
| BlockLog.UpdateMapIsRemap | driver/vscsi.c:409-418 | while the writing chunk has the greatest SCN the skip branch never fires |
| BlockLog.LatestIsUnique | driver/recovery.c:91-128 | the log determines the map |
| CacheIndex.FindCachedIff | driver/vscsi.c:49-60 | a sector is found at a position exactly when it is cached there, and that is its only position |
| CacheIndex.BlockCachedIff | driver/vscsi.c:142-144 | the first sector of a block is cached exactly when any part of the block is |
| CacheIndex.PushOk | driver/vscsi.c:294-315 | appending sectors keeps the cache a set of distinct 8-aligned blocks with one unfinished block at the end |
| CacheIndex.PushFindsNew | driver/vscsi.c:304-311 | an appended sector is found, with its data |
| CacheIndex.PushFindsOld | driver/vscsi.c:304-311 | every other lookup is unchanged |
| LogicalDisk.PushStoredReads | driver/vscsi.c:347-398 | filling the cache from the medium changes no logical sector |
| LogicalDisk.HitReads | driver/vscsi.c:256-268 | overwriting cached sectors changes exactly those logical sectors |
| LogicalDisk.StoredElsewhere | driver/vscsi.c:456-457 | a purge writes where no live sector is stored |
| LogicalDisk.PurgeReads | driver/vscsi.c:424-487 | a purge changes no logical sector |
| LogKeeping.LocatedIn | driver/vscsi.c:476-482 | a mapped block lies in a chunk's data area, in front of PurgePos if the chunk is current, behind the first slot in chunk 0, never at a control sector, and its chunk's table names it there |
| LogKeeping.PurgeKeepsLog | driver/vscsi.c:441-482 | after a purge the map is the newest view of the extended log |
| LogKeeping.PurgeRemaps | driver/vscsi.c:478 | a purge moves exactly the cached blocks, each to its place in the slot |
| LogKeeping.SwitchKeepsLog | driver/vscsi.c:233-239 | nothing is lost when an empty chunk is reused |
| DeviceKeeping.PurgeKeepsRecords | driver/vscsi.c:435-454 | after a purge every slot since the last control block has its record, and no leftover record can be mistaken for one |
| DeviceKeeping.PurgeChunkKeepsDevice | driver/vscsi.c:494-502 | a written control block tells recovery all of the chunk so far |
| DeviceKeeping.EmptiedIsSuperseded | driver/recovery.c:133-146 | everything the emptied chunk's old control block names has a newer copy on record |
| DeviceKeeping.SwitchEnters | driver/vscsi.c:235-238 | a chunk entered from a full one can be found through it |
| Capacity.UsedTotal | driver/vscsi.c:400-422 | the Used counters add up to the mapped blocks |
| Capacity.PigeonholeBound | driver/vscsi.c:555-566 | with at least 7 chunks and SIZE_OF_MAP * 10 <= MAX_CHUNKS * SIZE_OF_CHUNK the least used other chunk holds at most 30583 blocks |
| Capacity.VictimFits | driver/vscsi.c:529-570 | the chosen chunk is not the current one and fits in what a fresh chunk takes at 63 blocks a purge |
| Capacity.VictimFitsAgain | driver/recovery.c:188 | the same for the choice after recovery, at any point of the chunk |
| Capacity.ScheduleKept | driver/vrelocation.c:64-80 | a purge full of relocated blocks keeps the relocation schedule |
| Capacity.ScheduleGivesRoom | driver/vrelocation.c:64-67 | a chunk on schedule is empty when the current one is full |
| Choice.ScoreIs | driver/vscsi.c:543-549 | where nothing exceeds 32 bits the score is Used * (1 + WEIGHT_SPEED) / 32 plus the wear, counted twice up to that of the current chunk, times (1 + WEIGHT_LIFE) |
| Choice.ScoreLevels | driver/vscsi.c:543-549 | the choice levels wear: of two chunks the less worn one scores lower if it holds no more blocks, and the one with 32 blocks less if it is not more worn |
| Choice.ChoiceExactly | driver/vscsi.c:529-566 | if another chunk holds less than 90 percent of what is left of the current one, the first of those with the lowest score is chosen, otherwise the first of the least used |
| Relocation.LiveIffMapped | driver/vrelocation.c:70-78 | a table entry is live exactly when the map points at it, so the forward cursor misses nothing |
| Relocation.UsedCoversCache | driver/vrelocation.c:62 | the next chunk's Used is at least the number of cached blocks, so the subtraction in the ratio test does not wrap |
| Relocation.RatioKeepsReloc | driver/vrelocation.c:64-67 | stopping because the ratio is met keeps the schedule |
| Relocation.FullKeepsReloc | driver/vrelocation.c:79-81 | stopping because the cache is full keeps the schedule |
| Relocation.EndKeepsReloc | driver/vrelocation.c:68-95 | stopping at the end of the scan keeps the schedule |
| Relocation.ScanKeepsReloc | driver/vrelocation.c:68-95 | the copying loop changes no logical sector, passes no live block, and stops early only for want of a window |
| Relocation.PurgeKeepsInv | driver/vscsi.c:424-487 | a purge keeps the whole invariant |
| Relocation.PurgeChunkKeepsInv | driver/vscsi.c:489-527 | finalising keeps the invariant, and every logical sector if nothing is cached |
| Relocation.SwitchKeepsInv | driver/vscsi.c:233-240 | when the chunk is full and finalised the next one holds no live block, the cache is empty, and moving on keeps the invariant and every sector |
| Relocation.PrepareKeepsInv | driver/vrelocation.c:5-52 | preparing keeps the invariant and every sector |
| Relocation.ReadKeepsInv | driver/vrelocation.c:100-128 | the window read holds the cursor's block |
| Relocation.WindowIsLongest | driver/vrelocation.c:108-120 | the window ends with a live block, where none begins within 32 sectors or it would exceed 512 sectors |
| Relocation.WindowGaps | driver/vrelocation.c:108-120 | inside the window the next live block begins within 32 sectors |
| Completeness.AtSlotIff | driver/vrelocation.c:31-39 | a live block of a chunk sits at slot k exactly when the chunk's table on the medium names it there |
| Completeness.RecountIsUsed | driver/vrelocation.c:29-42 | the debug recount of any chunk but the current one equals its Used |
| Writing.TransferKeepsInv | driver/vscsi.c:256-325 | each branch behind relocation keeps the invariant and changes exactly the sectors it reports as transferred |
| Writing.AppendIsLongest | driver/vscsi.c:296-303 | an append ends early only where the cache is full or in front of a cached block |
| Writing.StepKeepsInv | driver/vscsi.c:204-325 | so does every pass of the write handler |
| Termination.CleanLeavesRoom | driver/vrelocation.c:64-95 | purges of relocated blocks alone never use up a chunk |
| Termination.StepCloser | driver/vscsi.c:204-325 | every pass transfers client data or comes closer to it, by tiers of purges, relocation phase, scan position and padding |
| Termination.WriteCompletes | driver/vscsi.c:187-329 | with successful I/O every write ends, and replaces exactly the requested sectors |
| Pacing.StopsExactly | driver/vrelocation.c:64-95 | with the inequality of the source nothing is copied and the slot goes to client data; without it relocation is done only with a full cache, or when all that is left of the next chunk is cached |
| Pacing.RelocationPaced | driver/vrelocation.c:64-95 | at most ceil(64 * source / (63 * target - 64 * source)) purges of relocated blocks come before a slot of the same chunk takes client sectors |
| Pacing.ChunkPaced | driver/vrelocation.c:44-95 | the same for a chunk just entered or recovered, by what the next chunk holds and what is left of this one |
| Reading.DeviceRoundStored | driver/vscsi.c:133-149 | a coalesced device read covers live, uncached sectors only, each at its place |
| Reading.RoundDelivers | driver/vscsi.c:90-150 | each round delivers the logical contents of its sectors, and at least one |
| Reading.RoundIsLongest | driver/vscsi.c:105-145 | no round is shorter than it has to be: a copy ends where the cached run does, a device read in front of a block that is cached or not stored right behind |
| Reading.ReadReturnsContents | driver/vscsi.c:72-150 | the read ends with all sectors transferred and returns the logical contents |
| Recovery.AnyOrderScanned | driver/recovery.c:91-128 | a scan over all chunks, in any order, leaves every block at its entry with the greatest (SCN, offset) |
| Recovery.OrderIndependence | driver/recovery.c:91-128 | two orders give the same map, counters, SCNs and chosen chunk |
| Crash.EnterFinalised | driver/recovery.c:129-132 | a chunk that was finalised early is resumed behind its control block |
| Crash.EnterEntered | driver/recovery.c:133-147 | a chunk that was entered from a full one is found through it |
| Crash.ScanPurgesResumes | driver/recovery.c:148-180 | the record scan replays exactly the purges that were written |
| Crash.RecoveryRebuilds | driver/recovery.c:82-191 | recovery rebuilds the map, the Used counters, the position and the SCN of the context that wrote the medium, satisfies the invariant, and reads what was stored |
| Crash.RelocationNeverBroken | driver/recovery.c:136-139 | the branch for a broken relocation cannot be reached |
| TornPurge.TornPurgeRecovers | driver/vscsi.c:456-457 | after a purge cut at any sector recovery finds the state before it, or the state after it if the control sector was written |
| TornControl.TornControlRecovers | driver/vscsi.c:494-508 | in a chunk entered from a full one, recovery with the chunk's control block broken in any way finds the map, the position and all that was stored |
| TornControl.TornFirstLoses | driver/recovery.c:91-128 | in the first chunk after formatting it finds nothing |
| TornControl.TornControlExactly | driver/recovery.c:129-147 | so a broken control block loses nothing exactly if the chunk was entered from a full one, or nothing was stored |
| TornControl.RecoverTraced | driver/recovery.c:82-191 | recovery keeps what that rests on: a chunk entered from a full one has the record of each of its purges, and any other chunk is the first |
| Flushing.FlushEnds | driver/vflush.c:16-69 | a flush ends, and empties the cache exactly when it was empty or CacheDirty was set; then no sector changes |
| Flushing.FlushGoes | driver/vflush.c:38-55 | a flush purges once if CacheDirty was set and not at all otherwise, finalises exactly if asked to and something was purged since, and changes no other control block |
| Flushing.FlushIsDurable | driver/vflush.c:16-69 | such a flush leaves a medium from which recovery reproduces the logical disk; with Finalize everything is under the control block |
| Flushing.FlushDurableExactly | driver/vflush.c:38-46 | a flush makes the logical disk durable exactly when CacheDirty told the truth or nothing was pending |
| Flushing.UnflaggedIsLost | driver/vflush.c:38-46 | otherwise recovery brings back what was stored before |
| Flushing.FinaliseOverwritesCache | driver/vscsi.c:503 | after finalising over unflagged sectors the client reads those cached in the first 256 positions as parts of the control block, and all others as before |
| Flushing.FlushKeepsExactly | driver/vflush.c:47-55 | a flush keeps every logical sector exactly when CacheDirty told the truth, or it does not finalise, or FinalizedPos equals PurgePos, or the first 256 cached sectors are those of the control block already |
| Unflagged.SubBlockWriteUnflagged | driver/vscsi.c:256-292 | with whole blocks cached and CacheDirty clear, as every flush leaves it, any write inside one block completes and leaves CacheDirty clear over cached sectors, whatever relocation and purges it causes |
| Unflagged.SubBlockWriteLost | driver/vflush.c:38-46 | with nothing cached before, a restart behind such a write and any flush finds exactly the logical disk of before the write |
| Unflagged.FlagSetExactly | driver/vscsi.c:286-314 | a write that fits in the empty cache leaves CacheDirty telling the truth exactly when it does not stay inside one block |
| Unflagged.FlushStoresExactly | driver/vflush.c:38-46 | behind such a write, with nothing to relocate, and any flush a restart finds the data exactly then, and the disk of before the write otherwise |
| Unflagged.WhollyCachedStays | driver/vscsi.c:256-268 | once all blocks are cached with CacheDirty clear, every write hits the cache and no flush purges: whatever requests follow, that stays so, and what is stored stays as it was |
| Unflagged.FinaliseArises | driver/vflush.c:47-55 | a whole block written and flushed, then a write inside it, lead to a context in which a finalising flush changes what the client reads |
| Unflagged.BlockStaysFirst | driver/vscsi.c:494-508 | in the first chunk a block that was written and flushed is lost if the control block breaks |
| Runs.WriteTraced | driver/vscsi.c:204-325 | every pass of the write handler keeps what TornControl.TornControlRecovers needs |
| Runs.EventRefines | driver/vscsi.c:187-329 | one event of a run - a request, a pass, a crash, a cut purge, a control block left broken, a finalising flush over unflagged sectors - is one event of the array of sectors and its durable copy |
| Runs.RunRefines | driver/recovery.c:82-191 | so is every run |
| Format.FormattedDurable | driver/config.c:151-239 | formatting leaves what recovery needs, given a new CCN and a fresh Magic |
| Format.FormatThenRecover | driver/config.c:151-239 | format and restart give an empty map, but for block 0 on fixed media |
| Format.RunFromFormat | driver/config.c:151-239 | every run from a formatted medium behaves like the array that starts with the partition table and zeros |
| Format.FlushLosesWrite | driver/vscsi.c:256-292 | on every freshly formatted medium, any write inside one block and any flush behind it are gone after a restart, which finds the formatted disk |
| Format.FlushKeepsWriteExactly | driver/vscsi.c:286-314 | the same on every freshly formatted medium |
| Format.FlushLosesWriteExample | driver/vscsi.c:256-292 | a configuration, a medium and a sector for which it happens |
| Format.FinaliseDamages | driver/vflush.c:47-55 | on every freshly formatted medium, a whole block, a flush, a sector inside the block and a finalising flush end with a logical sector changed |
| Format.FirstControlLost | driver/vscsi.c:494-508 | on every freshly formatted medium, a block that was written and flushed is gone if the first control block breaks, with everything else |
| Wear.RecoveredWear | driver/recovery.c:103-145 | on any medium with distinct SCNs a restart finds each chunk as worn as its own control block says, or the newest one if that leads to it, whichever is more |
| Wear.RecoverWear | driver/recovery.c:103-145 | a restart finds the counters of the context that wrote the medium |
| Wear.BrokenWears | driver/recovery.c:143-145 | behind a broken control block the chunk is as worn as the full one that leads to it says, the others as before |
| Wear.EventWears | driver/vscsi.c:489-508 | every event of a run keeps what that rests on, and only writing a control block counts |
| Wear.RunWears | driver/vscsi.c:489-508 | over every run without a broken control block each counter goes up by the number of control blocks written to its chunk, whatever crashes come between |
| Wear.FormatWear | driver/config.c:152-165 | formatting counts as one control block of chunk 1, and leaves the other counters to what the medium says |
| Gate.CompleteReadKeeps | driver/vgate.c:329-386 | a read completion keeps pending == active + queued, the free list an acyclic list of exactly the idle threads, and ThreadsMarked the number of marks |
| Gate.CompleteOtherKeeps | driver/vgate.c:343-377 | so does the completion of the other thread |
| Gate.MarkReadersMarksBusy | driver/vgate.c:236-250 | afterwards exactly the threads that are executing a read are marked |
| Gate.WaitMarkedKeeps | driver/vgate.c:252-265 | the writer waits exactly when some thread is marked |
| Gate.CleanAllRefuses | driver/vgate.c:414-441 | after a mode change each queued request is refused once, in order, and only executing requests stay pending |
| Gate.ResumeIsOwed | driver/vgate.c:382-386 | each critical section resumes the writer exactly when it ends its wait |
| Gate.RunKeeps | driver/vgate.c:189-441 | over all interleavings the accounting holds, a non-empty queue means all workers are busy, and every wait gets one resume |
| Gate.InitialGateOk | driver/vgate.c:71-77 | the context starts that way |
| Queues.StepKeeps | driver/vgate.c:180-441 | every critical section keeps the law of the queues: taken requests are those that were started or refused off the queue, in order, followed by the queue; a thread is busy exactly when it serves one; the timer flags say whether the timer is set or its flush is owed |
| Queues.RunLaw | driver/vgate.c:180-441 | so does every run |
| Queues.ServedInOrder | driver/vgate.c:180-441 | over every interleaving from the initial state each dispatched request is turned away at once or taken, and reads and others are started or refused off the queue in the order they came, each once |
| Queues.DispatchDecides | driver/vgate.c:189-220 | a request is turned away exactly outside ACTIVE mode; a read is started, on an idle thread, exactly when there is one, and anything else exactly when the one thread for it is idle |
| Queues.CompletionDecides | driver/vgate.c:329-381 | a completing thread loses its mark and takes the next request of its kind in ACTIVE mode; with none, the writer flushes exactly when the timer has expired over a dirty cache, and else sets the timer exactly over a dirty cache that it does not watch |
| Queues.DirtyIsWatched | driver/vgate.c:355-376 | after a completion over a dirty cache with a timeout the writer goes on, flushes, or the timer is set |
| Queues.TimeoutDecides | driver/vgate.c:267-294 | the timer flushes a dirty cache at once if the writer is idle, and leaves it to the writer's completion if not |
| Queues.CleanDecides | driver/vgate.c:387-392 | outside ACTIVE mode the queues are cleaned exactly when the last thread completes |
| Readers.IssuedOp | driver/vscsi.c:133-149 | a device read is issued for sectors outside the unwritten part of the current chunk, and outside the next chunk once the current one is full |
| Readers.PurgeSpares | driver/vscsi.c:456-478 | a purge leaves the sectors of such a read as they were |
| Readers.NoOverlap | driver/vscsi.c:226-232 | while a purge is in flight no device read in flight overlaps it |
| Readers.FlushUnmarked | driver/vgate.c:236-265 | marks are out only from an unfinished write that finalises a full chunk until its wait is over, so a flush finds none |
| Readers.StepKeeps | driver/vgate.c:236-265 | marking, waiting, draining and all other steps keep that, if a flush finalises a full chunk only while no read of the next chunk is in flight |
| Readers.RunSafe | driver/vscsi.c:226-232 | so does every interleaving of readers, writer and scheduler in which that is so |
| Readers.SeenStays | driver/vscsi.c:147-149 | on such an interleaving a device read finds on the medium what it was issued for, however long it takes |
| Readers.IssuedExpects | driver/vscsi.c:133-149 | and that is the logical contents at the time of issue |
| MetReader.UnmarkedSafeExactly | driver/vflush.c:47-55 | when a flush finalises a full chunk, every continuation is safe exactly if no device read of the next chunk is in flight |
| Unmarked.ClearIsSafe | driver/vflush.c:47-55 | one direction, for a logical disk of any size |
| Unmarked.Rounds | driver/vscsi.c:204-325 | by large writes the writer comes to any purge slot in front of it, with the reads in flight untouched |
| Unmarked.ReaderMet | driver/vflush.c:47-55 | otherwise further writes bring a purge that overlaps the read |
| ChunkFill.FillTo | driver/vscsi.c:204-325 | by writes and flushes of one block the writer comes to any purge slot in front of it, whatever relocation there is, with the reads in flight untouched |
| ChunkFill.FillChunk | driver/vflush.c:38-55 | in that way a chunk is filled up to a flush that finalises it full, and blocks that were new stay so |
| MetReader.ReaderMetBy | driver/vflush.c:47-55 | that brings the purge on a logical disk of any size, if some block is not stored in the chunk after next |
| MetReader.FlushMeetsReader | driver/vflush.c:38-55 | from any driver that has just recovered, with a block in the next chunk and one elsewhere, a read, and writes and flushes of the other block, lead to a finalising flush with the read in flight |
| WornMedium.FirstIsNext | driver/vscsi.c:529-555 | with the other chunks worn more, the chunk just filled is the next to be emptied |
| WornMedium.UnmarkedFromFormat | driver/vflush.c:47-55 | a medium, formatted and recovered, and a run on it that ends with a purge in flight over the sectors of a read in flight |
| Readers.InitialSysOk | driver/recovery.c:189 | the driver starts safe |
| Context.LevelingCtx.constructor | driver/vgate.c:66-100 | the tables and positions before recovery |
| Context.LevelingCtx.GetCachedPos | driver/vscsi.c:49-60 | the loop computes the lookup that CacheIndex.FindCachedIff is about |
| Context.LevelingCtx.UpdateMap | driver/vscsi.c:400-422 | the loop updates Map and ChunkInfo as the log lemmas of BlockLog assume, and nothing else |
| Context.LevelingCtx.FindNextChunk | driver/vscsi.c:529-574 | the two loops compute the choice that Capacity.VictimFits is about, and end relocation |
| Context.LevelingCtx.ExecutePurgeCache | driver/vscsi.c:424-459 | builds the control sector and the table, and writes them; if the write fails a first part of it is on the medium |
| Context.LevelingCtx.PurgeCacheCompletion | driver/vscsi.c:461-487 | counts the blocks in from the control sector and begins the next slot |
| Context.LevelingCtx.Purge | driver/vscsi.c:424-487 | together they are the purge of Relocation.PurgeKeepsInv and LogicalDisk.PurgeReads |
| Context.LevelingCtx.ExecutePurgeChunk | driver/vscsi.c:489-527 | writes the control block through the cache memory; the step of Relocation.PurgeChunkKeepsInv |
| Context.LevelingCtx.EnterNextChunk | driver/vscsi.c:235-239 | the step of Relocation.SwitchKeepsInv |
| Context.LevelingCtx.PrepareRelocate | driver/vrelocation.c:5-52 | the step of Relocation.PrepareKeepsInv; the medium is only read |
| Context.LevelingCtx.RecountLive | driver/vrelocation.c:29-40 | the recount loop counts what Completeness.RecountIsUsed is about |
| Context.LevelingCtx.ExecuteRelocateCached | driver/vrelocation.c:54-98 | ratio test and copying loop in place; the step of Relocation.RelocateKeepsInv |
| Context.LevelingCtx.ExecuteRelocate | driver/vrelocation.c:100-141 | the window loop and the read; the step of Relocation.ReadKeepsInv |
| Context.LevelingCtx.CacheFillReadZero | driver/vscsi.c:347-363 | an unmapped block is filled with zeros |
| Context.LevelingCtx.ExecuteCacheFillRead | driver/vscsi.c:365-398 | a mapped block is filled from the medium |
| Context.LevelingCtx.WriteHit | driver/vscsi.c:257-266 | overwrites the longest run that is cached and continues the request |
| Context.LevelingCtx.WriteNew | driver/vscsi.c:294-314 | appends up to the first block that is cached already, and sets CacheDirty |
| Context.LevelingCtx.TransferPass | driver/vscsi.c:256-325 | the branches in their order are the step of Writing.TransferKeepsInv |
| Context.LevelingCtx.ReadSome | driver/vscsi.c:90-150 | one round of the read handler, as in Reading.RoundDelivers |
| Context.LevelingCtx.FlushPass | driver/vflush.c:23-56 | one pass of the flush handler, as in Flushing.FlushEnds |
| Salvage.PassWrites | driver/vscsi.c:204-325 | each pass keeps: the logical disk is the old one with the first transferred sectors, and the stored disk is the old stored one, or the old logical one with some of the first transferred sectors, without a gap |
| Salvage.FlushPassKeeps | driver/vflush.c:16-56 | each pass of a flush keeps the logical disk if CacheDirty tells the truth, and keeps what is stored or stores the logical disk |
| Salvage.FlushRecovers | driver/vflush.c:16-69 | a restart behind a flush finds the logical disk of before it, or what was stored if CacheDirty did not tell the truth |
| Salvage.FailingFlush | driver/vflush.c:38-46 | after any number of failed purges, cut anywhere, the next pass is the purge again, and a restart finds what was stored or what the client saw |
| Handlers.WritePass | driver/vscsi.c:204-325 | a pass is the step of Writing.StepKeepsInv, or the device failed and recovery finds the contents before or after |
| Handlers.ExecuteWriteHandler | driver/vscsi.c:187-329 | the loop ends; in ACTIVE mode the requested sectors and no others are replaced and the invariant holds; after a failure recovery finds all of what was stored before the request, or all of what the client saw before it with some of the data in place, from its start and without a gap |
| Handlers.ExecuteWrite | driver/vscsi.c:12-47 | a request is refused exactly by the 32-bit check, and changes nothing then; one that fits is carried out as above |
| Handlers.AdmittedExactly | driver/vscsi.c:23 | the check means what it should exactly when LBA + LEN does not wrap to the front of the disk |
| Handlers.WrappedRequestAdmitted | driver/vscsi.c:23 | LBA 0xffffffff with LEN 2 is let through on every disk |
| Handlers.ExecuteFlush | driver/vflush.c:3-69 | the loop ends with the effects of Flushing.FlushEnds and Salvage.FlushRecovers; after a failure recovery finds what was stored before the flush or, only if CacheDirty told the truth, what the client saw |
| Handlers.ExecuteReadHandler | driver/vscsi.c:62-185 | the client's buffer gets the logical contents and nothing behind it changes, or the request fails |
| Rebuilding.ScanControlBlocks | driver/recovery.c:91-128 | the loop fills Map, ChunkInfo and ChunkCtl as in Recovery.AnyOrderScanned |
| Rebuilding.EnterNewest | driver/recovery.c:129-147 | the position to resume at, as in Crash.EnterFinalised and EnterEntered |
| Rebuilding.ScanRecords | driver/recovery.c:148-180 | the loop replays the records as in Crash.ScanPurgesResumes |
| Rebuilding.DoRecovery | driver/recovery.c:82-191 | all of it computes the context of Crash.RecoveryRebuilds, up to what is left in the buffers; a read that fails leaves the mode inactive |
| Rebuilding.Restart | driver/recovery.c:82-191 | a new context on the medium of a durable one has its map, satisfies the invariant, and reads what it had stored |
| Scheduler.LevelingGate.constructor | driver/vgate.c:71-77 | the free list holds all threads |
| Scheduler.LevelingGate.LevelingDispatch | driver/vgate.c:180-220 | starts, queues or refuses in place, as in Gate.DispatchReadKeeps and DispatchOtherKeeps |
| Scheduler.LevelingGate.ReadCompletion | driver/vgate.c:329-392 | the critical section of Gate.CompleteReadKeeps |
| Scheduler.LevelingGate.OtherCompletion | driver/vgate.c:343-392 | the critical section of Gate.CompleteOtherKeeps |
| Scheduler.LevelingGate.LevelingFlushDpc | driver/vgate.c:279-294 | the critical section of the timer |
| Scheduler.LevelingGate.MarkReadingThreads | driver/vgate.c:236-250 | the loop of Gate.MarkReadersMarksBusy |
| Scheduler.LevelingGate.WaitMarkedThreads | driver/vgate.c:252-265 | the critical section of Gate.WaitMarkedKeeps |
| Scheduler.LevelingGate.LevelingCleanAfterModeChanged | driver/vgate.c:414-441 | the loop of Gate.CleanAllRefuses |
| Transfer.Request.ScsiCallRW | driver/vreq.c:132-144 | for any number of successes that move nothing: the pieces tile the request, the completion routine runs once, no piece exceeds MaximumTransferLength bytes and each is the rest of the request or as long as that allows, success means all sectors moved and both sides agree there, failure means RetryLimit + 1 failed attempts in a row, nothing outside the request changes, and the attempts are bounded as in RequestEnds |
| Transfer.Request.ScsiCallRWHandler | driver/vreq.c:146-210 | each further piece is as long as MaximumTransferLength allows, and re-entry after each attempt terminates by sectors left, empty successes left and retries left |
| Transfer.Request.ScsiCallCompletion | driver/vreq.c:72-122 | counts what an attempt moved, and goes on |
| Transfer.TilesLongest | driver/vreq.c:170 | whatever pieces tile a request, each is at most the limit in bytes, and is the rest of the request or one sector more would exceed it |
| Transfer.PiecesFollow | driver/vreq.c:150-170 | a piece begins where the last one ended, or repeats it exactly if it moved nothing |
| Transfer.SectorMovedOnce | driver/vreq.c:150-170 | no sector is moved by two pieces, and none in front of Transferred is left out |
| Transfer.RequestEnds | driver/vreq.c:155-169 | a bound on the attempts by the length, the retry limit and the number of successes that moved nothing |
| Transfer.EmptySuccessNeverEnds | driver/vreq.c:90-92 | without a bound on those there is none |
| Rounds.FirstWordIs | lib/common.c:24-30 | on any 32-bit machine words the lines for the first word, with their multipliers, shifts and constant written out, give the round's first word |
| Rounds.SecondWordIs | lib/common.c:31-37 | the same for the second word |
| Rounds.ThirdWordIs | lib/common.c:38-44 | the same for the third word |
| Rounds.FourthWordIs | lib/common.c:45-51 | the same for the fourth word, which takes the new first one |
| Rounds.RoundInjectiveInHash | lib/common.c:19-52 | a round with a fixed group is injective in the hash |
| Rounds.RoundInjectiveInGroup | lib/common.c:19-52 | a round with a fixed hash is injective in the group |
| Checksum.SumDetects | lib/common.c:1-57 | buffers that differ inside one aligned group in front of the checksum have different sums |
| Checksum.CorruptionDetected | lib/common.c:59-69 | so at most one of them verifies with the same checksum |
| Checksum.ForgeryDetected | lib/common.c:59-69 | a changed checksum alone does not verify |
| Checksum.ProducedIsValid | lib/common.c:53-56 | a produced checksum verifies |
| Checksum.OnlySumIsValid | lib/common.c:59-69 | and no other does |
| Checksum.SumOfZeros | lib/common.c:19-56 | the sum of one group of zeros, whatever the last four words hold, in numbers |
| Checksum.SumOfTwoGroups | lib/common.c:19-56 | the sum of a buffer of two groups that exercises every multiplier and rotation, whatever the last four words hold, in numbers |
| Checksum.SumOfUnevenBuffer | lib/common.c:5-23 | the sum of ten words, in numbers: the second group takes two of the zeroed words |
| Checksum.ProduceChecksum128 | lib/common.c:1-57 | the loop over the groups, with the last words zeroed, computes that sum in place and changes nothing else |
| Checksum.VerifyChecksum128 | lib/common.c:59-69 | true exactly for a valid buffer; the buffer is left as it was either way |
| Pattern.StarForgets | driver/registry.c:15-22 | once the text between two stars is found at its first place only the second star matters |
| Pattern.AtMismatch | driver/registry.c:29-36 | going back to the last star with the name one further loses no match |
| Pattern.PatternMatch | driver/registry.c:13-41 | terminates, and returns TRUE exactly when the name matches the pattern, a star standing for any run of characters |
| Setup.GetNewCCN | driver/config.c:29-66 | the number is taken by no control block: one more than the greatest, or the least free one if that wraps; fails if a read fails |
| Setup.AcceptsExactly | driver/vgate.c:61 | an accepted size has the properties the rest relies on exactly when no 32-bit product or sum wrapped |
| Setup.WrappedSizeAccepted | driver/vgate.c:61 | a size for which it does wrap and is accepted |

## Left out

- Handlers.ExecuteFlush: stops at the first request that fails for good. The driver's flush handler does not look at the mode and sends the same request again for as long as it fails (driver/vflush.c:38-46); Salvage.FailingFlush says what comes of that for purges, outside this method.
- Handlers.ExecuteReadHandler: runs a whole read without interruption; reads between the writer's steps are the subject of Readers. A read that races with an overwrite of the same cached sectors (driver/vscsi.c:264, outside the lock) is not specified.
- Readers.RunSafe: speaks about runs in which no flush finalises a full chunk while a read of the next chunk is in flight; Unmarked.ReaderMet shows what comes of the others. The other thread is taken to carry out requests one after the other while it is active; they are not tied to the entries of its queue.
- MetReader.UnmarkedSafeExactly: asks for a logical disk of at least 64 blocks (256 KB), or for a block that is not stored in the chunk after next. A smaller disk that is all in that chunk may be cached as a whole with CacheDirty clear, and then no request makes the writer purge (Unflagged.WhollyCachedStays), so the read is not met; Unmarked.ClearIsSafe holds without that.
- Runs.RunRefines: crashes come between device writes, cut a purge after any number of sectors, or leave the control block broken; the last only in a chunk that was entered from a full one, for the reason in TornControl.TornControlExactly. A control block that a failing device does not take (Handlers) is the old one or the new one.
- Format.FormattedDurable: assumes a Magic under which no old purge record passes; the driver takes it from its caller.
- Checksum.CorruptionDetected: corruption spread over several groups may go undetected, as with any 128-bit sum. In the other modules a control block or record whose checksum verifies is taken to be the one that was written.
- Transfer.Request.ScsiCallRW: needs a MaximumTransferLength of at least 512; with less the driver would send pieces of no sectors. A failed write may leave anything in its range, while the crash model for purges only allows a first part of the new sectors.
- SCN, WCN and the addresses are unbounded; the score of FindNextChunk is computed modulo 2^32, and Choice.ScoreLevels speaks about scores that do not wrap.
- Wear.RunWears: leaves out runs in which a control block breaks, since the count of that chunk then falls back to what the full chunk before it says (Wear.BrokenWears).
- Queues.ServedInOrder: a timer expires once after it was set, as KeSetTimer has it. A request that arrives between a mode change and the cleaning is turned away before the ones that are still queued.
- Handlers.ExecuteWrite: what the handler does to a request whose LBA + LEN wraps and is let through is not followed; it would index behind Map.
- The MBR and FAT templates, and the boot sectors beyond their not being purge records.
- IRPs, MDLs, SRBs, sense data, PnP, power, ioctl and SCSI dispatch, mode sense and capability handling (driver/vltl.c, most of driver/vgate.c from ExecuteThread on).
- FreeLevelingCtx, the lifetime of a context, and removal during recovery.
- Timers: the cache timeout appears only as the events of the scheduler that it causes.
- Tracing, name tables, the control tool, the application, tests and build scripts.
