// ExecuteFlushHandler (driver/vflush.c): which flushes make the logical disk durable.
module Flushing {
  import opened Geometry
  import opened Model
  import opened Invariant
  import opened CacheIndex
  import opened LogicalDisk
  import opened Relocation
  import opened Writing
  import opened Recovery
  import opened Crash

  // One pass of the handler; the flag says that the flush is over.
  function FlushStep(s: Ctx, finalize: bool): (r: (Ctx, bool))
    requires Inv(s)
  {
    if s.cache.pos % 8 != 0 then (FillTail(s), false)
    else if s.dirty then (PurgeCache(s), false)
    else if finalize && s.finalized < s.purge then (PurgeChunk(s), false)
    else (s, true)
  }

  function FlushWork(s: Ctx, finalize: bool): nat {
    (if s.dirty then 4 else 0) + (if s.cache.pos % 8 != 0 then 2 else 0)
    + (if finalize && s.finalized < s.purge then 1 else 0)
  }

  // The unfinished block belongs to a write, so relocation is done for this purge.
  lemma UnalignedIsDone(s: Ctx)
    requires Inv(s) && s.cache.pos % 8 != 0
    ensures s.reloc.done
  {
  }

  lemma DirtyIsDone(s: Ctx)
    requires Inv(s) && s.dirty
    ensures s.reloc.done && s.purge < LAST_PURGE_POS && s.cache.pos > 0
  {
  }

  lemma FlushStepKeepsInv(s: Ctx, finalize: bool)
    requires Inv(s)
    ensures var (s', over) := FlushStep(s, finalize);
            Inv(s') && (!over ==> FlushWork(s', finalize) < FlushWork(s, finalize))
  {
    hide Durable, RelocOk, CacheOk;
    if s.cache.pos % 8 != 0 {
      UnalignedIsDone(s);
      FillTailKeepsInv(s);
    } else if s.dirty {
      DirtyIsDone(s);
      PurgeKeepsInv(s);
    } else if finalize && s.finalized < s.purge {
      PurgeChunkKeepsInv(s);
    }
  }

  function FlushRun(s: Ctx, finalize: bool): Ctx
    requires Inv(s)
    decreases FlushWork(s, finalize)
  {
    FlushStepKeepsInv(s, finalize);
    var (s', over) := FlushStep(s, finalize);
    if over then s' else FlushRun(s', finalize)
  }

  // What the flag CacheDirty is meant to say.
  predicate FlagTellsTruth(s: Ctx) {
    s.cache.pos == 0 || s.dirty
  }

  ghost predicate Flushed(s: Ctx, s': Ctx, finalize: bool) {
    && Inv(s') && s'.cfg == s.cfg
    && s'.cache.pos % 8 == 0 && !s'.dirty
    && (finalize ==> s'.finalized == s'.purge)
    && (s'.cache.pos == 0 <==> FlagTellsTruth(s))
    && (FlagTellsTruth(s) ==> SameContents(s, s'))
  }

  lemma FlushJoin(s: Ctx, t: Ctx, u: Ctx, finalize: bool)
    requires Flushed(t, u, finalize) && t.cfg == s.cfg
    requires FlagTellsTruth(s) <==> FlagTellsTruth(t)
    requires FlagTellsTruth(s) ==> SameContents(s, t)
    ensures Flushed(s, u, finalize)
  {
    if FlagTellsTruth(s) {
      SameContentsJoin(s, t, u);
    }
  }

  // A flush ends. It empties the cache exactly when the cache was empty or marked dirty,
  // and then every logical sector reads as before.
  lemma {:induction false} FlushEnds(s: Ctx, finalize: bool)
    requires Inv(s)
    ensures Flushed(s, FlushRun(s, finalize), finalize)
    decreases FlushWork(s, finalize)
  {
    hide Durable, RelocOk, CacheOk, SameContents, Flushed;
    FlushStepKeepsInv(s, finalize);
    var (t, over) := FlushStep(s, finalize);
    if over {
      FlushOver(s, finalize);
    } else {
      FlushEnds(t, finalize);
      if s.cache.pos % 8 != 0 {
        UnalignedIsDone(s);
        FillTailKeepsInv(s);
        FillTailFlag(s);
      } else if s.dirty {
        DirtyIsDone(s);
        PurgedFlag(s);
      } else {
        PurgeChunkKeepsInv(s);
        FinalisedFlag(s);
      }
      FlushJoin(s, t, FlushRun(t, finalize), finalize);
    }
  }

  lemma FlushOver(s: Ctx, finalize: bool)
    requires Inv(s) && FlushStep(s, finalize) == (s, true)
    ensures Flushed(s, s, finalize)
  {
    SameReads(s, s);
  }

  lemma FillTailFlag(s: Ctx)
    requires CacheOk(s.cache, s.cfg.SizeOfMap) && s.cache.pos % 8 != 0
    ensures FillTail(s).cfg == s.cfg && (FlagTellsTruth(FillTail(s)) <==> FlagTellsTruth(s))
  {
  }

  lemma PurgedFlag(s: Ctx)
    requires Inv(s) && s.dirty && s.purge < LAST_PURGE_POS && s.cache.pos % 8 == 0
    ensures PurgeCache(s).cfg == s.cfg && FlagTellsTruth(PurgeCache(s)) && SameContents(s, PurgeCache(s))
  {
    PurgeReads(s);
  }

  lemma FinalisedFlag(s: Ctx)
    ensures PurgeChunk(s).cfg == s.cfg && (FlagTellsTruth(PurgeChunk(s)) <==> FlagTellsTruth(s))
    ensures FlagTellsTruth(s) && !s.dirty ==> s.cache.pos == 0
  {
  }

  // Where a flush leaves the chunk: one purge further if the flag was set, and finalised there
  // if that was asked for; exactly then a control block is written, and the chunk's wear goes up.
  ghost predicate FlushedTo(s: Ctx, t: Ctx, finalize: bool) {
    && t.cfg == s.cfg && t.chunk == s.chunk && t.next == s.next
    && t.purge == s.purge + (if s.dirty then 0x200 else 0)
    && t.finalized == (if finalize then t.purge else s.finalized)
    && var stamped := finalize && s.finalized < t.purge;
       && t.mi.info[s.chunk].WCN == s.mi.info[s.chunk].WCN + (if stamped then 1 else 0)
       && (!stamped ==> t.disk.ctl == s.disk.ctl)
       && (forall c | 0 <= c < s.cfg.MaxChunks && c != s.chunk :: t.disk.ctl[c] == s.disk.ctl[c])
  }

  lemma PurgedTo(s: Ctx)
    requires s.purge < LAST_PURGE_POS
    ensures var t := PurgeCache(s);
            && t == s.(mi := t.mi, table := t.table, cache := t.cache, purge := s.purge + 0x200, reloc := t.reloc,
                       dirty := false, disk := s.disk.(data := t.disk.data))
            && forall c | 0 <= c < s.cfg.MaxChunks :: t.mi.info[c].WCN == s.mi.info[c].WCN
  {
    hide PurgeImage;
  }

  lemma TailTo(s: Ctx, u: Ctx, finalize: bool)
    requires CacheOk(s.cache, s.cfg.SizeOfMap) && s.cache.pos % 8 != 0 && FlushedTo(FillTail(s), u, finalize)
    ensures FlushedTo(s, u, finalize)
  {
    hide CacheOk;
  }

  lemma PurgeTo(s: Ctx, u: Ctx, finalize: bool)
    requires s.purge < LAST_PURGE_POS && s.dirty && FlushedTo(PurgeCache(s), u, finalize)
    ensures FlushedTo(s, u, finalize)
  {
    hide PurgeCache;
    PurgedTo(s);
  }

  lemma FinaliseTo(s: Ctx, u: Ctx)
    requires !s.dirty && s.finalized < s.purge && FlushedTo(PurgeChunk(s), u, true)
    ensures FlushedTo(s, u, true)
  {
  }

  lemma StayTo(s: Ctx, finalize: bool)
    requires !s.dirty && !(finalize && s.finalized < s.purge)
    ensures FlushedTo(s, s, finalize)
  {
  }

  lemma {:induction false} FlushGoes(s: Ctx, finalize: bool)
    requires Inv(s)
    ensures FlushedTo(s, FlushRun(s, finalize), finalize)
    decreases FlushWork(s, finalize)
  {
    hide Inv, CacheOk, PurgeCache, PurgeChunk, FillTail, FlushedTo, FlushWork;
    DirtyPurge(s);
    FlushStepKeepsInv(s, finalize);
    var (t, over) := FlushStep(s, finalize);
    if over {
      StayTo(s, finalize);
    } else {
      FlushGoes(t, finalize);
      if s.cache.pos % 8 != 0 {
        TailTo(s, FlushRun(t, finalize), finalize);
      } else if s.dirty {
        PurgeTo(s, FlushRun(t, finalize), finalize);
      } else {
        FinaliseTo(s, FlushRun(t, finalize));
      }
    }
  }

  lemma DirtyPurge(s: Ctx)
    requires Inv(s)
    ensures CacheOk(s.cache, s.cfg.SizeOfMap) && (s.dirty ==> s.purge < LAST_PURGE_POS)
  {
  }

  // With an empty cache, recovery brings back exactly the logical disk.
  lemma EmptyCacheIsDurable(s: Ctx)
    requires Inv(s) && s.cache.pos == 0
    ensures SameContents(s, Recover(s.cfg, s.disk))
  {
    RecoveryRebuilds(s);
  }

  // Flush durability: entered with a truthful flag, a flush leaves a device from which
  // recovery reproduces the logical disk as it was before the flush.
  lemma FlushIsDurable(s: Ctx, finalize: bool)
    requires Inv(s) && FlagTellsTruth(s)
    ensures var s' := FlushRun(s, finalize);
            && s'.cache.pos == 0 && SameContents(s, s') && SameContents(s, Recover(s'.cfg, s'.disk))
            && (finalize ==> s'.finalized == s'.purge)
  {
    hide Durable, RelocOk, CacheOk, SameContents;
    var s' := FlushRun(s, finalize);
    FlushEnds(s, finalize);
    EmptyCacheIsDurable(s');
    SameContentsJoin(s, s', Recover(s'.cfg, s'.disk));
  }

  // Entered with cached sectors that the flag does not admit to, a flush writes none of them.
  lemma {:induction false} FlushSkipsUnflagged(s: Ctx, finalize: bool)
    requires Inv(s) && !FlagTellsTruth(s)
    ensures var s' := FlushRun(s, finalize);
            s'.mi.Map == s.mi.Map && s'.disk.data == s.disk.data
    ensures forall x: nat | x / 8 < s.cfg.SizeOfMap ::
              StoredAt(FlushRun(s, finalize), x) == StoredAt(s, x)
    decreases FlushWork(s, finalize)
  {
    hide Durable, RelocOk, CacheOk;
    FlushStepKeepsInv(s, finalize);
    UnflaggedIsClean(s);
    var (t, over) := FlushStep(s, finalize);
    if !over {
      FlushSkipsUnflagged(t, finalize);
    }
  }

  // After such a flush, recovery brings back what was stored before it.
  lemma UnflaggedIsLost(s: Ctx, finalize: bool)
    requires Inv(s) && !FlagTellsTruth(s)
    ensures var s' := FlushRun(s, finalize);
            && s'.cfg == s.cfg && DiskFits(s.cfg, s'.disk) && Recover(s.cfg, s'.disk).cfg == s.cfg
            && forall x: nat | x / 8 < s.cfg.SizeOfMap :: ReadSector(Recover(s.cfg, s'.disk), x) == StoredAt(s, x)
  {
    hide Durable, RelocOk, CacheOk, Recover, SameContents;
    FlushEnds(s, finalize);
    FlushSkipsUnflagged(s, finalize);
    RecoveryRebuilds(FlushRun(s, finalize));
  }

  lemma UnflaggedIsClean(s: Ctx)
    requires Inv(s) && !FlagTellsTruth(s)
    ensures FlushStep(s, false).0.mi.Map == s.mi.Map && FlushStep(s, true).0.mi.Map == s.mi.Map
    ensures FlushStep(s, false).0.disk.data == s.disk.data && FlushStep(s, true).0.disk.data == s.disk.data
    ensures FlushStep(s, false).0.cfg == s.cfg && FlushStep(s, true).0.cfg == s.cfg
    ensures !FlagTellsTruth(FlushStep(s, false).0) && !FlagTellsTruth(FlushStep(s, true).0)
  {
    hide Durable, RelocOk, CacheOk;
  }

  // The cache holds nothing that is not stored as well.
  ghost predicate NothingPending(s: Ctx) {
    forall x: nat | x / 8 < s.cfg.SizeOfMap :: StoredAt(s, x) == ReadSector(s, x)
  }

  // Exactly when a flush makes the logical disk durable.
  lemma FlushDurableExactly(s: Ctx, finalize: bool)
    requires Inv(s)
    ensures var s' := FlushRun(s, finalize);
            SameContents(s, Recover(s'.cfg, s'.disk)) <==> FlagTellsTruth(s) || NothingPending(s)
  {
    hide Durable, RelocOk, CacheOk, Recover;
    FlushEnds(s, finalize);
    var s' := FlushRun(s, finalize);
    if FlagTellsTruth(s) {
      FlushIsDurable(s, finalize);
    } else {
      FlushSkipsUnflagged(s, finalize);
      RecoveryRebuilds(s');
    }
  }

  // ---- A finalising flush over cached sectors

  // The control block goes through the cache memory: it replaces what is cached in the first
  // 256 sectors.
  lemma FinaliseReads(s: Ctx, x: nat)
    requires x / 8 < s.cfg.SizeOfMap
    ensures var s', pos := PurgeChunk(s), FindCached(s.cache, x, 0);
            && s'.cfg == s.cfg
            && ReadSector(s', x) == if pos < 0x100 then Control(s'.disk.ctl[s.chunk], pos) else ReadSector(s, x)
  {
    SameIndexFinds(s.cache, PurgeChunk(s).cache, x, 0);
  }

  // The cache once its last block is complete.
  function Padded(s: Ctx): Ctx
    requires CacheOk(s.cache, s.cfg.SizeOfMap)
  {
    if s.cache.pos % 8 != 0 then FillTail(s) else s
  }

  lemma PaddedKeeps(s: Ctx)
    requires Inv(s)
    ensures var t := Padded(s);
            && Inv(t) && SameContents(s, t) && t.cache.pos % 8 == 0
            && t.dirty == s.dirty && t.finalized == s.finalized && t.purge == s.purge
            && t.chunk == s.chunk && t.cfg == s.cfg
            && s.cache.pos <= t.cache.pos
            && (s.cache.pos > 0 ==> t.cache.lba[0] == s.cache.lba[0] && t.cache.mem[0] == s.cache.mem[0])
  {
    hide Durable, RelocOk, CacheOk;
    SameReads(s, s);
    if s.cache.pos % 8 != 0 {
      UnalignedIsDone(s);
      FillTailKeepsInv(s);
    }
  }

  // Where a flush comes to that finds sectors the flag does not admit to.
  lemma UnflaggedRun(s: Ctx, finalize: bool)
    requires Inv(s) && !FlagTellsTruth(s)
    ensures FlushRun(s, finalize)
         == if finalize && s.finalized < s.purge then PurgeChunk(Padded(s)) else Padded(s)
  {
    hide Durable, RelocOk, CacheOk;
    PaddedKeeps(s);
    var t := Padded(s);
    if finalize && s.finalized < s.purge {
      PurgeChunkKeepsInv(t);
      assert FlushRun(PurgeChunk(t), finalize) == PurgeChunk(t);
      assert FlushRun(t, finalize) == PurgeChunk(t);
    } else {
      assert FlushRun(t, finalize) == t;
    }
  }

  // What the client reads after it.
  lemma FinaliseOverwritesCache(s: Ctx, x: nat)
    requires Inv(s) && !FlagTellsTruth(s) && s.finalized < s.purge && x / 8 < s.cfg.SizeOfMap
    ensures var s', pos := FlushRun(s, true), FindCached(Padded(s).cache, x, 0);
            && s'.cfg == s.cfg
            && ReadSector(s', x) == if pos < 0x100 then Control(s'.disk.ctl[s.chunk], pos) else ReadSector(s, x)
  {
    UnflaggedRun(s, true);
    PaddedKeeps(s);
    hide Inv, FlushRun, CacheOk, PurgeChunk, Padded;
    FinaliseReads(Padded(s), x);
  }

  lemma CachedReads(s: Ctx, p: nat)
    requires Inv(s) && p < s.cache.pos
    ensures CacheOk(s.cache, s.cfg.SizeOfMap)
    ensures s.cache.lba[p] / 8 < s.cfg.SizeOfMap && FindCached(s.cache, s.cache.lba[p], 0) == p
    ensures ReadSector(s, s.cache.lba[p]) == s.cache.mem[p]
  {
    hide Durable, RelocOk;
    assert Placed(s.cache, s.cfg.SizeOfMap, p);
    FindCachedIff(s.cache, s.cfg.SizeOfMap, s.cache.lba[p], p);
  }

  // What is cached in the first 256 positions is what the next control block would put there.
  predicate HoldsControl(s: Ctx)
    requires CacheOk(s.cache, s.cfg.SizeOfMap)
  {
    var t := Padded(s);
    forall p | 0 <= p < t.cache.pos && p < 0x100 :: t.cache.mem[p] == Control(PurgeChunk(t).disk.ctl[t.chunk], p)
  }

  // What the client reads behind such a flush, by the positions of the cache.
  lemma OverwrittenAt(s: Ctx, x: nat)
    requires Inv(s) && !FlagTellsTruth(s) && s.finalized < s.purge && x / 8 < s.cfg.SizeOfMap
    ensures CacheOk(s.cache, s.cfg.SizeOfMap) && Inv(Padded(s)) && Padded(s).cfg == s.cfg
    ensures var t, u := Padded(s), FlushRun(s, true);
            var pos := FindCached(t.cache, x, 0);
            && u.cfg == s.cfg && ReadSector(t, x) == ReadSector(s, x)
            && ReadSector(u, x)
            == if pos < 0x100 then Control(PurgeChunk(t).disk.ctl[t.chunk], pos) else ReadSector(s, x)
  {
    PaddedKeeps(s);
    UnflaggedRun(s, true);
    hide Inv, CacheOk, FlushRun, Padded, PurgeChunk, FindCached, ReadSector;
    FinaliseOverwritesCache(s, x);
  }

  lemma OverwritesExactly(s: Ctx)
    requires Inv(s) && !FlagTellsTruth(s) && s.finalized < s.purge
    ensures CacheOk(s.cache, s.cfg.SizeOfMap)
    ensures SameContents(s, FlushRun(s, true)) <==> HoldsControl(s)
  {
    hide Inv, CacheOk, FlushRun, Padded, PurgeChunk, FindCached, ReadSector;
    OverwrittenAt(s, 0);
    ControlFits(Padded(s));
    var t, u := Padded(s), FlushRun(s, true);
    if SameContents(s, u) {
      forall p | 0 <= p < t.cache.pos && p < 0x100
        ensures t.cache.mem[p] == Control(PurgeChunk(t).disk.ctl[t.chunk], p)
      {
        CachedReads(t, p);
        OverwrittenAt(s, t.cache.lba[p]);
      }
    }
    if HoldsControl(s) {
      forall x: nat | x / 8 < s.cfg.SizeOfMap ensures ReadSector(u, x) == ReadSector(s, x) {
        OverwrittenAt(s, x);
        PaddedAt(t, x);
      }
    }
  }

  lemma ControlFits(s: Ctx)
    ensures s.chunk < |PurgeChunk(s).disk.ctl|
  {
  }

  lemma PaddedAt(t: Ctx, x: nat)
    requires Inv(t) && x / 8 < t.cfg.SizeOfMap
    ensures var pos := FindCached(t.cache, x, 0);
            pos != NOT_MAPPED ==> pos < t.cache.pos && ReadSector(t, x) == t.cache.mem[pos]
  {
    hide Inv, FindCached;
  }

  // Exactly when a flush keeps every logical sector.
  lemma FlushKeepsExactly(s: Ctx, finalize: bool)
    requires Inv(s)
    ensures CacheOk(s.cache, s.cfg.SizeOfMap)
    ensures SameContents(s, FlushRun(s, finalize))
       <==> FlagTellsTruth(s) || !finalize || s.finalized == s.purge || HoldsControl(s)
  {
    hide Durable, RelocOk, CacheOk, FlushRun, Padded, SameContents, HoldsControl;
    if FlagTellsTruth(s) {
      FlushIsDurable(s, finalize);
    } else if finalize && s.finalized < s.purge {
      OverwritesExactly(s);
    } else {
      PaddedKeeps(s);
      UnflaggedRun(s, finalize);
    }
  }
}
