// Moving live blocks out of the next chunk (driver/vrelocation.c): the copies read as the
// originals, no live block is missed, and the chunk is empty when the current one is full.
module Relocation {
  import opened Geometry
  import opened BlockLog
  import opened Model
  import opened Invariant
  import opened CacheIndex
  import opened LogKeeping
  import opened DeviceKeeping
  import opened LogicalDisk
  import opened Capacity

  // ---- A purge

  // The purge takes exactly the cached blocks of the victim out of it.
  lemma PurgeEmpties(s: Ctx)
    requires LogOk(s) && CacheOk(s.cache, s.cfg.SizeOfMap)
    requires s.purge < LAST_PURGE_POS && s.cache.pos % 8 == 0
    ensures PurgeCache(s).mi.info[s.next].Used == s.mi.info[s.next].Used - Outgoing(s)
  {
    PurgeKeepsLog(s);
    PurgeEntriesParts(s.cfg, s.cache);
    PurgeRemaps(s);
    RemapCount(s.mi.Map, Heads(s.cache), Plba(s.chunk, s.purge), s.chunk, s.next);
  }

  lemma PurgeMissesNone(s: Ctx)
    requires LogOk(s) && CacheOk(s.cache, s.cfg.SizeOfMap) && NoneMissed(s)
    requires s.purge < LAST_PURGE_POS && s.cache.pos % 8 == 0
    ensures forall b | 0 <= b < s.cfg.SizeOfMap :: !InVictim(s, PurgeCache(s).mi.Map[b], s.reloc.pos)
    ensures NoneMissed(PurgeCache(s))
  {
    hide LogOk, CacheOk, PurgeImage, FindCached;
    var s' := PurgeCache(s);
    forall b: nat | b < s.cfg.SizeOfMap ensures !InVictim(s, s'.mi.Map[b], s.reloc.pos) {
      PurgedMap(s, 8 * b);
      if FindCached(s.cache, 8 * b, 0) == NOT_MAPPED {
        BlockCachedIff(s.cache, s.cfg.SizeOfMap, 8 * b);
      } else {
        InChunkIff(s'.mi.Map[b], s.chunk);
        InChunkIff(s'.mi.Map[b], s.next);
      }
    }
    assert forall p: nat :: InVictim(s', p, s.reloc.pos) <==> InVictim(s, p, s.reloc.pos);
  }

  lemma PurgeKeepsWindow(s: Ctx)
    requires WindowOk(s) && s.purge < LAST_PURGE_POS
    ensures WindowOk(PurgeCache(s))
  {
    var s' := PurgeCache(s);
    var at := Plba(s.next, s.reloc.start);
    forall k: nat | k < s.reloc.end - s.reloc.start && at + k < |s'.disk.data|
      ensures s.reloc.mem[k] == s'.disk.data[at + k]
    {
      PurgeWrites(s, at + k);
      if s.next < s.chunk {
        ChunksApart(s.next, s.chunk);
      } else {
        ChunksApart(s.chunk, s.next);
      }
    }
  }

  // The schedule survives a purge, so the victim still fits behind it.
  lemma PurgeKeepsSchedule(s: Ctx)
    requires LogOk(s) && CacheOk(s.cache, s.cfg.SizeOfMap) && OnSchedule(s) && s.reloc.done
    requires s.purge < LAST_PURGE_POS && s.cache.pos % 8 == 0
    ensures OnSchedule(PurgeCache(s))
    ensures Room(PurgeCache(s).mi.info[s.next].Used, Remaining(PurgeCache(s)))
  {
    PurgeEmpties(s);
    PurgeKeepsLog(s);
    assert PurgeCache(s).mi.info[s.next].Used == CountIn(PurgeCache(s).mi.Map, s.next);
    ScheduleStep(s, PurgeCache(s));
  }

  lemma ScheduleStep(s: Ctx, s': Ctx)
    requires CacheOk(s.cache, s.cfg.SizeOfMap) && OnSchedule(s) && s.reloc.done
    requires s.purge < LAST_PURGE_POS && s'.purge == s.purge + 0x200 && s'.next == s.next
    requires s'.reloc == s.reloc.(done := false)
    requires 0 <= s'.mi.info[s.next].Used == s.mi.info[s.next].Used - Outgoing(s)
    requires CacheOk(s'.cache, s'.cfg.SizeOfMap)
    ensures OnSchedule(s') && Room(s'.mi.info[s.next].Used, Remaining(s'))
  {
    assert Remaining(s') == Remaining(s) - 64;
    ScheduleGivesRoom(s'.mi.info[s.next].Used, s.reloc.target, s.reloc.source, Remaining(s'));
  }

  lemma PurgeKeepsInv(s: Ctx)
    requires Inv(s) && s.reloc.done && s.cache.pos % 8 == 0
    ensures Inv(PurgeCache(s))
  {
    PurgeKeepsLog(s);
    PurgeKeepsRecords(s);
    PurgeKeepsAnchor(s);
    PurgeKeepsSchedule(s);
    PurgeMissesNone(s);
    PurgeKeepsWindow(s);
  }

  // ---- Finalising and switching chunks

  // The control block passes through CacheMem, so what is cached then is lost.
  lemma PurgeChunkKeepsInv(s: Ctx)
    requires Inv(s)
    ensures Inv(PurgeChunk(s))
    ensures s.cache.pos == 0 ==> SameContents(s, PurgeChunk(s))
  {
    PurgeChunkKeepsLog(s);
    PurgeChunkKeepsDevice(s);
    if s.cache.pos == 0 {
      EmptyCacheReads(s, PurgeChunk(s));
    }
    PurgeChunkKeepsReloc(s);
  }

  lemma PurgeChunkKeepsReloc(s: Ctx)
    requires CacheOk(s.cache, s.cfg.SizeOfMap) && RelocOk(s)
    ensures CacheOk(PurgeChunk(s).cache, s.cfg.SizeOfMap) && RelocOk(PurgeChunk(s))
  {
    var s' := PurgeChunk(s);
    SameIndexOk(s.cache, s'.cache, s.cfg.SizeOfMap);
    assert Heads(s.cache) == Heads(s'.cache);
    assert forall p: nat :: InVictim(s', p, s.reloc.pos) <==> InVictim(s, p, s.reloc.pos);
    assert forall b :: CachedBlock(s.cache, b) ==> CachedBlock(s'.cache, b);
    assert forall p | 0 <= p < s.cache.pos :: Relocated(s, p) ==> Relocated(s', p);
  }

  // Leaving a full chunk: the chunk being entered holds no live block.
  lemma SwitchKeepsInv(s: Ctx)
    requires Inv(s) && s.purge == LAST_PURGE_POS == s.finalized
    ensures s.mi.info[s.next].Used == 0 && s.cache.pos == 0
    ensures Inv(SwitchChunk(s))
    ensures SameContents(s, SwitchChunk(s))
  {
    assert Finalised(s);
    SwitchKeepsLog(s);
    SwitchKeepsRecords(s);
    SwitchEnters(s);
    VictimFits(s.cfg, SwitchChunk(s).mi, s.next);
    EmptyCacheReads(s, SwitchChunk(s));
  }

  lemma PrepareKeepsInv(s: Ctx)
    requires Inv(s) && !s.reloc.prepared && s.purge < LAST_PURGE_POS
    ensures Inv(PrepareRelocate(s))
    ensures SameContents(s, PrepareRelocate(s))
  {
    EmptyCacheReads(s, PrepareRelocate(s));
    DurableFrame(s, PrepareRelocate(s));
    PrepareStartsReloc(s);
  }

  lemma PrepareStartsReloc(s: Ctx)
    requires CacheOk(s.cache, s.cfg.SizeOfMap) && PhasesOk(s) && UsedCounts(s.mi)
    requires !s.reloc.prepared && s.purge < LAST_PURGE_POS
    requires Room(s.mi.info[s.next].Used, Remaining(s))
    ensures CacheOk(PrepareRelocate(s).cache, s.cfg.SizeOfMap) && RelocOk(PrepareRelocate(s))
  {
    assert Heads(PrepareRelocate(s).cache) == [];
  }

  // Recovery does not look at the cache or the relocation cursor.
  lemma DurableFrame(s: Ctx, s': Ctx)
    requires Durable(s)
    requires s' == s.(cache := s'.cache, reloc := s'.reloc, dirty := s'.dirty)
    ensures Durable(s')
  {
    assert Segs(s') == Segs(s);
    if Entered(s) {
      var p :| LeadsTo(s, p);
      assert LeadsTo(s', p);
    }
    assert forall q | s.finalized <= q < s.purge && q % 0x200 == 0 :: RecordAt(s, q) ==> RecordAt(s', q);
    assert forall c, q :: Dated(s, c, q) ==> Dated(s', c, q);
  }

  lemma LogFrame(s: Ctx, s': Ctx)
    requires LogOk(s)
    requires s' == s.(cache := s'.cache, reloc := s'.reloc, dirty := s'.dirty)
    ensures LogOk(s')
  {
    assert Segs(s') == Segs(s);
  }

  // ---- One purge's worth of relocation

  ghost predicate Relocating(s: Ctx) {
    && LogOk(s) && CacheOk(s.cache, s.cfg.SizeOfMap) && RelocOk(s)
    && s.reloc.prepared && !s.reloc.done && s.purge < LAST_PURGE_POS
  }

  function Finished(s: Ctx): Ctx {
    s.(reloc := s.reloc.(done := true))
  }

  lemma StagedOutgoing(s: Ctx)
    requires CacheOk(s.cache, s.cfg.SizeOfMap) && Staged(s)
    ensures Outgoing(s) == s.cache.pos / 8
  {
    HeadsInMap(s.cache, s.mi.Map);
    forall i | 0 <= i < |Heads(s.cache)| ensures InChunk(s.mi.Map[Heads(s.cache)[i] / 8], s.next) {
      assert Relocated(s, 8 * i);
    }
    DisplacedAll(s.mi.Map, Heads(s.cache), s.next);
  }

  // Before the ratio is looked at, every cached block is one of those that the next chunk still
  // counts, so the subtraction there does not wrap.
  lemma UsedCoversCache(s: Ctx)
    requires Relocating(s)
    ensures s.cache.pos / 8 <= s.mi.info[s.next].Used
  {
    StagedOutgoing(s);
    PurgeEmpties(s);
    PurgeKeepsLog(s);
    hide LogOk, Outgoing, RelocOk, CacheOk, PurgeCache;
    NoneNegative(PurgeCache(s).mi, s.next);
  }

  lemma NoneNegative(mi: MapInfo, c: nat)
    requires UsedCounts(mi) && c < |mi.info|
    ensures 0 <= mi.info[c].Used
  {
  }

  lemma DoneKeepsReloc(s: Ctx)
    requires Relocating(s)
    requires (s.mi.info[s.next].Used - Outgoing(s)) * s.reloc.target <= s.reloc.source * (Remaining(s) - 64)
    ensures RelocOk(Finished(s))
  {
    assert forall p: nat :: InVictim(Finished(s), p, s.reloc.pos) <==> InVictim(s, p, s.reloc.pos);
  }

  // Done because the ratio is met.
  lemma RatioKeepsReloc(s: Ctx)
    requires Relocating(s) && RatioMet(s)
    ensures RelocOk(Finished(s))
  {
    StagedOutgoing(s);
    assert (LAST_PURGE_POS - 0x200 - s.purge) / 8 == Remaining(s) - 64;
    DoneKeepsReloc(s);
  }

  // Done because the cache is full of relocated blocks.
  lemma FullKeepsReloc(s: Ctx)
    requires Relocating(s) && s.cache.pos >= LAST_CACHE_POS
    ensures RelocOk(Finished(s))
  {
    StagedOutgoing(s);
    ScheduleKept(s.mi.info[s.next].Used, s.reloc.target, s.reloc.source, Remaining(s));
    DoneKeepsReloc(s);
  }

  // What is left in the victim once the scan has reached the end is all cached.
  lemma EndIsOutgoing(s: Ctx)
    requires Relocating(s) && s.reloc.pos >= LAST_PURGE_POS
    ensures s.mi.info[s.next].Used == Outgoing(s)
  {
    var s' := PurgeCache(s);
    PurgeMissesNone(s);
    PurgeEmpties(s);
    PurgeKeepsLog(s);
    forall b: nat | b < s.cfg.SizeOfMap ensures !InChunk(s'.mi.Map[b], s.next) {
      assert !InVictim(s, s'.mi.Map[b], s.reloc.pos);
      if s'.mi.Map[b] != NOT_MAPPED {
        LocatedIn(s', b);
      }
    }
    CountZero(s'.mi.Map, s.next);
  }

  // Done because the scan has reached the end.
  lemma EndKeepsReloc(s: Ctx)
    requires Relocating(s) && s.reloc.pos >= LAST_PURGE_POS
    ensures RelocOk(Finished(s))
  {
    EndIsOutgoing(s);
    NoDemand(s.reloc.source, Remaining(s) - 64, s.reloc.target);
    DoneKeepsReloc(s);
  }

  lemma NoDemand(source: int, rest: int, target: int)
    requires 0 <= source && 0 <= rest
    ensures 0 * target <= source * rest
  {
  }

  // The live block of the victim at slot k is the one its table names there.
  lemma LiveIffMapped(s: Ctx, k: nat, b: nat)
    requires LogOk(s) && s.reloc.table == s.disk.ctl[s.next].LBA && k < TABLE_SIZE && b < s.cfg.SizeOfMap
    ensures s.mi.Map[b] != NOT_MAPPED && InChunk(s.mi.Map[b], s.next) && SlotOf(s.mi.Map[b]) == k
       <==> LiveSlot(s.mi.Map, s.reloc.table, s.next, k) && s.reloc.table[k] == 8 * b
  {
    if s.mi.Map[b] != NOT_MAPPED {
      LocatedIn(s, b);
      InChunkIff(s.mi.Map[b], s.next);
    }
    PlbaParts(s.next, k);
    if LiveSlot(s.mi.Map, s.reloc.table, s.next, k) && s.reloc.table[k] == 8 * b {
      assert s.mi.Map[b] == Plba(s.next, 8 * k) < 0x40000 * 500;
    }
  }

  function Skipped(s: Ctx): Ctx
    requires s.reloc.pos < LAST_PURGE_POS
  {
    s.(reloc := s.reloc.(pos := s.reloc.pos + 8))
  }

  lemma SkipKeepsReloc(s: Ctx)
    requires Relocating(s) && s.reloc.pos < LAST_PURGE_POS
    requires !LiveSlot(s.mi.Map, s.reloc.table, s.next, s.reloc.pos / 8)
    ensures Relocating(Skipped(s))
  {
    var s' := Skipped(s);
    LogFrame(s, s');
    forall b: nat | b < s.cfg.SizeOfMap && InVictim(s', s'.mi.Map[b], s'.reloc.pos) ensures CachedBlock(s.cache, b) {
      LiveIffMapped(s, s.reloc.pos / 8, b);
      assert InVictim(s, s.mi.Map[b], s.reloc.pos);
    }
    assert forall p | 0 <= p < s.cache.pos :: Relocated(s, p) ==> Relocated(s', p);
  }

  function Copied(s: Ctx): Ctx
    requires s.cache.pos % 8 == 0 && s.cache.pos < LAST_CACHE_POS && s.reloc.pos < LAST_PURGE_POS
    requires s.reloc.start <= s.reloc.pos < s.reloc.end
  {
    var r, at := s.reloc, s.reloc.pos - s.reloc.start;
    s.(cache := Push(s.cache, r.table[r.pos / 8], r.mem[at..at + 8]), reloc := r.(pos := r.pos + 8))
  }

  // The block the cursor stands on.
  ghost predicate AtLive(s: Ctx) {
    && s.reloc.pos < LAST_PURGE_POS && s.cache.pos < LAST_CACHE_POS
    && LiveSlot(s.mi.Map, s.reloc.table, s.next, s.reloc.pos / 8)
  }

  function CursorLba(s: Ctx): nat
    requires s.reloc.pos < LAST_PURGE_POS
  {
    s.reloc.table[s.reloc.pos / 8]
  }

  ghost predicate CursorBlock(s: Ctx)
    requires AtLive(s)
  {
    var lba := CursorLba(s);
    && lba % 8 == 0 && s.mi.Map[lba / 8] == Plba(s.next, s.reloc.pos)
    && s.mi.Map[lba / 8] != NOT_MAPPED && s.mi.Map[lba / 8] + 8 <= |s.disk.data|
    && InChunk(s.mi.Map[lba / 8], s.next) && 8 * SlotOf(s.mi.Map[lba / 8]) == s.reloc.pos
  }

  lemma LiveIsLocated(s: Ctx)
    requires LogOk(s) && s.reloc.table == s.disk.ctl[s.next].LBA && AtLive(s)
    ensures CursorBlock(s)
  {
    var b := CursorLba(s) / 8;
    PlbaParts(s.next, s.reloc.pos / 8);
    assert s.mi.Map[b] < 0x40000 * 500;
    LocatedIn(s, b);
    InChunkIff(s.mi.Map[b], s.next);
  }

  // A live block under the cursor is not yet cached.
  lemma LiveIsFresh(s: Ctx)
    requires Relocating(s) && AtLive(s)
    ensures CursorBlock(s) && Appendable(s.cache, s.cfg.SizeOfMap, CursorLba(s), 8)
  {
    LiveIsLocated(s);
    var b := CursorLba(s) / 8;
    forall p | 0 <= p < s.cache.pos ensures s.cache.lba[p] / 8 != b {
      assert Relocated(s, p);
    }
  }

  lemma WindowHolds(s: Ctx, i: nat)
    requires AtLive(s) && CursorBlock(s) && WindowOk(s)
    requires s.reloc.start <= s.reloc.pos < s.reloc.end && i < 8
    ensures s.reloc.mem[s.reloc.pos - s.reloc.start + i] == StoredAt(s, CursorLba(s) + i)
  {
    var k := s.reloc.pos - s.reloc.start + i;
    assert k < s.reloc.end - s.reloc.start;
    assert Plba(s.next, s.reloc.start) + k == Plba(s.next, s.reloc.pos) + i;
    assert (CursorLba(s) + i) / 8 == CursorLba(s) / 8 && (CursorLba(s) + i) % 8 == i;
  }

  lemma CopyMatches(s: Ctx)
    requires AtLive(s) && CursorBlock(s) && WindowOk(s) && s.reloc.start <= s.reloc.pos < s.reloc.end
    ensures var at := s.reloc.pos - s.reloc.start;
            s.reloc.mem[at..at + 8] == Stored(s, CursorLba(s), 8)
  {
    var data := s.reloc.mem[s.reloc.pos - s.reloc.start..s.reloc.pos - s.reloc.start + 8];
    forall i | 0 <= i < 8 ensures data[i] == Stored(s, CursorLba(s), 8)[i] {
      WindowHolds(s, i);
    }
  }

  lemma CopyReads(s: Ctx)
    requires CacheOk(s.cache, s.cfg.SizeOfMap) && WindowOk(s)
    requires AtLive(s) && CursorBlock(s) && Appendable(s.cache, s.cfg.SizeOfMap, CursorLba(s), 8)
    requires s.cache.pos % 8 == 0 && s.reloc.start <= s.reloc.pos < s.reloc.end
    ensures SameContents(s, Copied(s)) && CacheOk(Copied(s).cache, s.cfg.SizeOfMap)
  {
    var at := s.reloc.pos - s.reloc.start;
    CopyMatches(s);
    PushStoredReads(s, Copied(s), CursorLba(s), s.reloc.mem[at..at + 8]);
    PushOk(s.cache, s.cfg.SizeOfMap, CursorLba(s), s.reloc.mem[at..at + 8]);
  }

  lemma CopyStaged(s: Ctx)
    requires CacheOk(s.cache, s.cfg.SizeOfMap) && Staged(s) && AtLive(s) && CursorBlock(s)
    requires s.reloc.start <= s.reloc.pos < s.reloc.end
    requires CacheOk(Copied(s).cache, s.cfg.SizeOfMap)
    ensures Staged(Copied(s))
  {
    var s' := Copied(s);
    forall p | 0 <= p < s'.cache.pos ensures Relocated(s', p) {
      assert Placed(s'.cache, s.cfg.SizeOfMap, p);
      if p < s.cache.pos {
        assert Relocated(s, p);
      } else {
        assert s'.cache.lba[p] == CursorLba(s) + (p - s.cache.pos);
        assert s'.cache.lba[p] / 8 == CursorLba(s) / 8;
      }
    }
  }

  // A block becomes one the cursor has passed either long ago or by being copied now.
  lemma CopyPasses(s: Ctx, x: nat)
    requires LogOk(s) && s.reloc.table == s.disk.ctl[s.next].LBA && AtLive(s) && NoneMissed(s)
    requires s.cache.pos % 8 == 0 && s.reloc.start <= s.reloc.pos < s.reloc.end
    requires x < s.cfg.SizeOfMap && InVictim(Copied(s), s.mi.Map[x], Copied(s).reloc.pos)
    ensures CachedBlock(s.cache, x) || CursorLba(s) / 8 == x
  {
    if InVictim(s, s.mi.Map[x], s.reloc.pos) {
      assert CachedBlock(s.cache, x);
    } else {
      LiveIffMapped(s, s.reloc.pos / 8, x);
    }
  }

  lemma CopyMissesNone(s: Ctx)
    requires LogOk(s) && s.reloc.table == s.disk.ctl[s.next].LBA && AtLive(s) && NoneMissed(s)
    requires s.cache.pos % 8 == 0 && s.reloc.start <= s.reloc.pos < s.reloc.end
    ensures NoneMissed(Copied(s))
  {
    hide LogOk;
    var s' := Copied(s);
    forall x: nat | x < s.cfg.SizeOfMap && InVictim(s', s'.mi.Map[x], s'.reloc.pos) ensures CachedBlock(s'.cache, x) {
      CopyPasses(s, x);
      if CachedBlock(s.cache, x) {
        var p :| 0 <= p < s.cache.pos && s.cache.lba[p] / 8 == x;
        assert s'.cache.lba[p] / 8 == x;
      } else {
        assert s'.cache.lba[s.cache.pos] / 8 == x;
      }
    }
  }

  lemma CopyKeepsReloc(s: Ctx)
    requires Relocating(s) && AtLive(s) && s.reloc.start <= s.reloc.pos < s.reloc.end
    ensures Relocating(Copied(s)) && SameContents(s, Copied(s))
  {
    LiveIsFresh(s);
    CopyReads(s);
    CopyStaged(s);
    CopyMissesNone(s);
    LogFrame(s, Copied(s));
  }

  ghost predicate NeedsWindow(s: Ctx) {
    AtLive(s) && !(s.reloc.start <= s.reloc.pos < s.reloc.end)
  }

  lemma SameContentsJoin(s: Ctx, t: Ctx, u: Ctx)
    requires SameContents(s, t) && SameContents(t, u)
    ensures SameContents(s, u)
  {
  }

  lemma RelocatingWhole(s: Ctx)
    requires Relocating(s)
    ensures s.cache.pos % 8 == 0 && Staged(s) && Staged(Finished(s))
  {
    assert forall p | 0 <= p < s.cache.pos :: Relocated(s, p) ==> Relocated(Finished(s), p);
  }

  // The copying loop keeps every logical sector, and the schedule whichever way it ends.
  lemma {:induction false} ScanKeepsReloc(s: Ctx)
    requires Relocating(s)
    ensures var s' := RelocateScan(s);
            && CacheOk(s'.cache, s'.cfg.SizeOfMap) && RelocOk(s') && Staged(s') && SameContents(s, s')
            && (!s'.reloc.done ==> NeedsWindow(s'))
    decreases LAST_PURGE_POS - s.reloc.pos
  {
    hide LogOk, RelocOk, CacheOk, LiveSlot, Staged, SameContents;
    RelocatingWhole(s);
    SameReads(s, s);
    SameReads(s, Finished(s));
    if s.reloc.pos >= LAST_PURGE_POS {
      EndKeepsReloc(s);
    } else if !LiveSlot(s.mi.Map, s.reloc.table, s.next, s.reloc.pos / 8) {
      SkipKeepsReloc(s);
      ScanKeepsReloc(Skipped(s));
      SameReads(s, Skipped(s));
      SameContentsJoin(s, Skipped(s), RelocateScan(s));
    } else if s.cache.pos >= LAST_CACHE_POS {
      FullKeepsReloc(s);
    } else if s.reloc.start <= s.reloc.pos < s.reloc.end {
      CopyKeepsReloc(s);
      ScanKeepsReloc(Copied(s));
      SameContentsJoin(s, Copied(s), RelocateScan(s));
    }
  }

  lemma RelocateKeepsInv(s: Ctx)
    requires Inv(s) && s.reloc.prepared && !s.reloc.done && s.purge < LAST_PURGE_POS
    ensures var s' := RelocateCached(s);
            Inv(s') && Staged(s') && SameContents(s, s') && (!s'.reloc.done ==> NeedsWindow(s'))
  {
    RelocatingWhole(s);
    if RatioMet(s) {
      RatioKeepsReloc(s);
    } else {
      ScanKeepsReloc(s);
    }
    DurableFrame(s, RelocateCached(s));
  }

  // Reading the next window touches nothing else, and brings the cursor into it.
  lemma {:induction false} WindowEndPast(m: seq<nat>, table: Table, victim: nat, start: nat, i: nat, end: nat)
    requires start <= end <= LAST_PURGE_POS && end <= i && i % 8 == 0 && end % 8 == 0 && start % 8 == 0
    requires end - start <= 0x200
    requires i == start < LAST_PURGE_POS && LiveSlot(m, table, victim, i / 8)
    ensures start + 8 <= WindowEnd(m, table, victim, start, i, end)
  {
  }

  // Whether the slot at position p is live.
  predicate LiveAt(m: seq<nat>, table: Table, victim: nat, p: int) {
    0 <= p < LAST_PURGE_POS && p % 8 == 0 && LiveSlot(m, table, victim, p / 8)
  }

  // RELOCATION_READ_MAX_GAP: the window ends where no live slot begins within 32 sectors, or
  // where it would get too long, and it ends with a live slot.
  lemma {:induction false} WindowIsLongest(m: seq<nat>, table: Table, victim: nat, start: nat, i: nat, end: nat)
    requires start <= end <= LAST_PURGE_POS && end <= i && i % 8 == 0 && end % 8 == 0 && start % 8 == 0
    requires end - start <= 0x200
    requires forall p | end <= p < i :: !LiveAt(m, table, victim, p)
    ensures var r := WindowEnd(m, table, victim, start, i, end);
            && (forall p | r <= p < r + 32 && p < start + 0x200 :: !LiveAt(m, table, victim, p))
            && (r > end ==> LiveAt(m, table, victim, r - 8))
    decreases LAST_PURGE_POS - i
  {
    hide LiveSlot;
    if i < LAST_PURGE_POS && i < start + 0x200 && i < end + 32 {
      WindowIsLongest(m, table, victim, start, i + 8, if LiveSlot(m, table, victim, i / 8) then i + 8 else end);
    }
  }

  // Inside the window no gap between live slots is that long.
  lemma {:induction false} WindowGaps(m: seq<nat>, table: Table, victim: nat, start: nat, i: nat, end: nat, p: nat)
    requires start <= end <= LAST_PURGE_POS && end <= i && i % 8 == 0 && end % 8 == 0 && start % 8 == 0
    requires end - start <= 0x200 && i <= end + 32
    requires end <= p && p % 8 == 0 && p < WindowEnd(m, table, victim, start, i, end)
    requires p == end || LiveAt(m, table, victim, p - 8)
    ensures exists q :: p <= q < p + 32 && q < WindowEnd(m, table, victim, start, i, end) && LiveAt(m, table, victim, q)
    decreases LAST_PURGE_POS - i
  {
    hide LiveSlot;
    if i < LAST_PURGE_POS && i < start + 0x200 && i < end + 32 {
      var live := LiveSlot(m, table, victim, i / 8);
      if !live {
        WindowGaps(m, table, victim, start, i + 8, end, p);
      } else if p >= i + 8 {
        WindowGaps(m, table, victim, start, i + 8, i + 8, p);
      } else {
        assert LiveAt(m, table, victim, i);
      }
    }
  }

  lemma ReadKeepsInv(s: Ctx)
    requires Inv(s) && s.reloc.prepared && !s.reloc.done && NeedsWindow(s)
    ensures var s' := RelocateRead(s);
            && Inv(s') && SameContents(s, s')
            && s'.reloc.start <= s'.reloc.pos < s'.reloc.end
  {
    hide Durable, RelocOk, CacheOk;
    var s' := RelocateRead(s);
    WindowEndPast(s.mi.Map, s.reloc.table, s.next, s.reloc.pos, s.reloc.pos, s.reloc.pos);
    DurableFrame(s, s');
    ReadKeepsReloc(s);
  }

  lemma ReadKeepsReloc(s: Ctx)
    requires CacheOk(s.cache, s.cfg.SizeOfMap) && RelocOk(s) && s.reloc.prepared && !s.reloc.done
    ensures RelocOk(RelocateRead(s))
  {
    var s' := RelocateRead(s);
    assert forall p: nat :: InVictim(s', p, s.reloc.pos) <==> InVictim(s, p, s.reloc.pos);
    assert forall p | 0 <= p < s.cache.pos :: Relocated(s, p) ==> Relocated(s', p);
  }
}
