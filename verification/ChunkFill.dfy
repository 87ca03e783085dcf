// Filling a chunk by one block at a time: a write leaves the cache dirty, and the flush behind
// it purges a slot. The last of these flushes finalises, and then the chunk is full.
module ChunkFill {
  import opened Geometry
  import opened BlockLog
  import opened Model
  import opened Invariant
  import opened CacheIndex
  import opened LogicalDisk
  import opened Relocation
  import opened Writing
  import opened Termination
  import opened Flushing
  import opened Unflagged
  import opened Readers
  import opened Unmarked
  import Runs
  import Gate

  // ---- What stays as it was while a chunk fills

  // The block is neither stored nor cached.
  ghost predicate Untouched(s: Ctx, b: nat) {
    b < s.cfg.SizeOfMap && s.mi.Map[b] == NOT_MAPPED && !CachedBlock(s.cache, b)
  }

  // From s to t the same chunk has been filled, and of the blocks that were new only w was
  // written.
  ghost predicate Fills(s: Ctx, t: Ctx, w: nat) {
    && t.cfg == s.cfg && t.chunk == s.chunk && t.next == s.next && s.purge <= t.purge
    && (forall c | 0 <= c < s.cfg.MaxChunks :: t.mi.info[c].WCN == s.mi.info[c].WCN)
    && (forall b: nat | b != w && Untouched(s, b) :: Untouched(t, b))
  }

  lemma FillsOn(s: Ctx, t: Ctx, u: Ctx, w: nat)
    requires Fills(s, t, w) && Fills(t, u, w)
    ensures Fills(s, u, w)
  {
    hide Untouched;
  }

  lemma FillsNothing(s: Ctx, w: nat)
    ensures Fills(s, s, w)
  {
  }

  lemma SameIndexFills(s: Ctx, t: Ctx, w: nat)
    requires t.cfg == s.cfg && t.chunk == s.chunk && t.next == s.next && t.purge == s.purge && t.mi == s.mi
    requires t.cache.lba == s.cache.lba && t.cache.pos == s.cache.pos
    ensures Fills(s, t, w)
  {
    forall b: nat | Untouched(s, b) ensures Untouched(t, b) {
      forall p | 0 <= p < t.cache.pos ensures t.cache.lba[p] / 8 != b {
        assert s.cache.lba[p] / 8 != b;
      }
    }
  }

  // Relocated blocks are stored ones.
  lemma StagedFills(s: Ctx, t: Ctx, w: nat)
    requires t == s.(cache := t.cache, reloc := t.reloc) && CacheOk(t.cache, t.cfg.SizeOfMap) && Staged(t)
    ensures Fills(s, t, w)
  {
    hide CacheOk;
    forall b: nat | Untouched(s, b) ensures Untouched(t, b) {
      forall p | 0 <= p < t.cache.pos ensures t.cache.lba[p] / 8 != b {
        assert Relocated(t, p);
      }
    }
  }

  lemma PurgedInfo(s: Ctx)
    requires s.purge < LAST_PURGE_POS
    ensures var t := PurgeCache(s);
            && t.cfg == s.cfg && t.chunk == s.chunk && t.next == s.next && t.purge == s.purge + 0x200
            && t.cache.pos == 0
            && forall c | 0 <= c < s.cfg.MaxChunks :: t.mi.info[c].WCN == s.mi.info[c].WCN
  {
    hide PurgeImage;
  }

  // A block that is not cached stays where it is.
  lemma UncachedStays(s: Ctx, b: nat)
    requires Inv(s) && s.purge < LAST_PURGE_POS && s.cache.pos % 8 == 0
    requires b < s.cfg.SizeOfMap && !CachedBlock(s.cache, b)
    ensures PurgeCache(s).cfg == s.cfg && PurgeCache(s).mi.Map[b] == s.mi.Map[b]
  {
    hide Inv, LogOk, CacheOk, CachedBlock, FindCached, PurgeCache;
    InvParts(s);
    PurgedInfo(s);
    BlockCachedIff(s.cache, s.cfg.SizeOfMap, 8 * b);
    PurgedMap(s, 8 * b);
  }

  lemma PurgeFills(s: Ctx, w: nat)
    requires Inv(s) && s.purge < LAST_PURGE_POS && s.cache.pos % 8 == 0
    ensures Fills(s, PurgeCache(s), w)
  {
    PurgedInfo(s);
    hide Inv, PurgeCache;
    forall b: nat | Untouched(s, b) ensures Untouched(PurgeCache(s), b) {
      UncachedStays(s, b);
    }
  }

  // ---- The write of one block

  // One block, which the next chunk does not hold.
  predicate OneBlock(s: Ctx, j: Job) {
    && j.lba % 8 == 0 && |j.data| == 8 && j.lba / 8 < s.cfg.SizeOfMap && j.done <= 8
    && !InChunk(s.mi.Map[j.lba / 8], s.next)
  }

  // The write has not come to its data.
  ghost predicate Waits(s: Ctx, j: Job) {
    && Inv(s) && s.purge < LAST_PURGE_POS && !s.dirty
    && Clean(s) && OneBlock(s, j) && j.done == 0 && !CachedBlock(s.cache, j.lba / 8)
  }

  // Its data is in the cache.
  ghost predicate Arrived(s: Ctx, j: Job) {
    && Inv(s) && s.purge < LAST_PURGE_POS && s.dirty && s.cache.pos % 8 == 0
    && j.done == |j.data| == 8 && j.lba % 8 == 0 && j.lba / 8 < s.cfg.SizeOfMap
    && CachedBlock(s.cache, j.lba / 8)
  }

  lemma StagedWaits(s: Ctx, j: Job)
    requires Inv(s) && s.purge < LAST_PURGE_POS && !s.dirty
    requires CacheOk(s.cache, s.cfg.SizeOfMap) && Staged(s) && OneBlock(s, j) && j.done == 0
    ensures Waits(s, j)
  {
    StagedOutgoing(s);
    hide Inv, CacheOk;
    forall p | 0 <= p < s.cache.pos ensures s.cache.lba[p] / 8 != j.lba / 8 {
      assert Relocated(s, p);
    }
  }

  lemma EmptyWaits(s: Ctx, j: Job)
    requires Inv(s) && s.purge < LAST_PURGE_POS && !s.dirty && s.cache.pos == 0
    requires OneBlock(s, j) && j.done == 0
    ensures Waits(s, j)
  {
    Runs.InvCache(s);
    hide Inv, CacheOk, Outgoing;
    EmptyIsClean(s);
  }

  lemma RelocateWaits(s: Ctx, j: Job)
    requires Waits(s, j) && s.reloc.prepared && !s.reloc.done
    ensures s.cache.pos % 8 == 0
    ensures var t := RelocateCached(s);
            var u := if t.reloc.done then t else RelocateRead(t);
            Waits(u, j) && Fills(s, u, j.lba / 8)
  {
    hide Durable, RelocOk, CacheOk, Fills;
    RelocateKeepsInv(s);
    var t := RelocateCached(s);
    Runs.InvCache(t);
    StagedFills(s, t, j.lba / 8);
    if t.reloc.done {
      StagedWaits(t, j);
    } else {
      ReadKeepsInv(t);
      var u := RelocateRead(t);
      StagedNow(u);
      StagedWaits(u, j);
      SameIndexFills(t, u, j.lba / 8);
      FillsOn(s, t, u, j.lba / 8);
    }
  }

  lemma PrepareWaits(s: Ctx, j: Job)
    requires Waits(s, j) && !s.reloc.prepared
    ensures Waits(PrepareRelocate(s), j) && Fills(s, PrepareRelocate(s), j.lba / 8)
  {
    hide Durable, RelocOk, CacheOk, Fills, Clean;
    UnpreparedIsEmpty(s);
    PrepareKeepsInv(s);
    EmptyWaits(PrepareRelocate(s), j);
    SameIndexFills(s, PrepareRelocate(s), j.lba / 8);
  }

  // The cache is full of relocated blocks: a purge comes first, and never of the last slot.
  lemma PurgeWaits(s: Ctx, j: Job)
    requires Waits(s, j) && s.reloc.done && s.cache.pos >= LAST_CACHE_POS
    ensures JobFits(s.cfg, j) && WriteStep(s, j) == (PurgeCache(s), j)
    ensures Waits(PurgeCache(s), j) && Fills(s, PurgeCache(s), j.lba / 8)
  {
    hide Inv, CacheOk, CachedBlock, Outgoing, Transfer, WriteStep, PurgeCache, Fills, FindCached;
    CleanLeavesRoom(s);
    DoneTransfers(s, j);
    BlockCachedIff(s.cache, s.cfg.SizeOfMap, j.lba);
    Runs.FullPurges(s, j);
    PurgeKeepsInv(s);
    PurgedAt(s);
    UncachedStays(s, j.lba / 8);
    EmptyWaits(PurgeCache(s), j);
    PurgeFills(s, j.lba / 8);
  }

  lemma BlockAppends(s: Ctx, j: Job)
    requires s.cache.pos % 8 == 0 && s.cache.pos < LAST_CACHE_POS && OneBlock(s, j) && j.done == 0
    ensures var (t, r) := Append(s, j);
            && r == j.(done := 8) && t == s.(cache := Push(s.cache, j.lba, j.data), dirty := true)
            && t.cache.pos == s.cache.pos + 8
  {
    AllFit(s.cache, j.lba, 8, 1);
    hide AppendLen, Push;
    assert j.data[0..8] == j.data;
  }

  // Only the one block comes in.
  lemma PushedBlock(c: Cache, lba: nat, data: seq<Sector>, b: nat)
    requires c.pos + 8 <= LAST_CACHE_POS && |data| == 8 && lba % 8 == 0
    ensures CachedBlock(Push(c, lba, data), b) <==> CachedBlock(c, b) || b == lba / 8
  {
    var c' := Push(c, lba, data);
    assert c'.lba[c.pos] == lba;
    if CachedBlock(c, b) {
      var p :| 0 <= p < c.pos && c.lba[p] / 8 == b;
      assert c'.lba[p] / 8 == b;
    }
    if CachedBlock(c', b) {
      var p :| 0 <= p < c'.pos && c'.lba[p] / 8 == b;
      assert p < c.pos ==> c.lba[p] / 8 == b;
      assert c.pos <= p ==> c'.lba[p] == lba + (p - c.pos);
    }
  }

  lemma PushFills(s: Ctx, t: Ctx, lba: nat, data: seq<Sector>)
    requires s.cache.pos + 8 <= LAST_CACHE_POS && |data| == 8 && lba % 8 == 0
    requires t == s.(cache := Push(s.cache, lba, data), dirty := true)
    ensures Fills(s, t, lba / 8)
  {
    hide Push, CachedBlock;
    forall b: nat | b != lba / 8 && Untouched(s, b) ensures Untouched(t, b) {
      PushedBlock(s.cache, lba, data, b);
    }
  }

  lemma TransferAppends(s: Ctx, j: Job)
    requires CacheOk(s.cache, s.cfg.SizeOfMap) && s.purge < LAST_PURGE_POS && s.cache.pos % 8 == 0
    requires s.cache.pos < LAST_CACHE_POS && JobFits(s.cfg, j) && j.done < |j.data| && NextLba(j) % 8 == 0
    requires FindCached(s.cache, NextLba(j), 0) == NOT_MAPPED
    ensures Transfer(s, j) == Append(s, j)
  {
    hide CacheOk, FindCached, Append, HitWrite, PurgeCache, FillTail, FillHead;
  }

  lemma WriteArrives(s: Ctx, j: Job)
    requires Waits(s, j) && s.reloc.done && s.cache.pos < LAST_CACHE_POS
    ensures JobFits(s.cfg, j)
    ensures var (t, r) := WriteStep(s, j);
            Arrived(t, r) && r == j.(done := 8) && Fills(s, t, j.lba / 8)
  {
    hide Inv, CacheOk, CachedBlock, Outgoing, Transfer, Append, WriteStep, Push, Fills, FindCached;
    DoneTransfers(s, j);
    BlockCachedIff(s.cache, s.cfg.SizeOfMap, j.lba);
    TransferAppends(s, j);
    BlockAppends(s, j);
    StepKeepsInv(s, j);
    PushedBlock(s.cache, j.lba, j.data, j.lba / 8);
    PushFills(s, WriteStep(s, j).0, j.lba, j.data);
  }

  // A pass of such a write.
  lemma WaitsOn(s: Ctx, j: Job)
    requires Waits(s, j)
    ensures Inv(s) && JobFits(s.cfg, j) && j.done < |j.data| && s.purge < LAST_PURGE_POS
    ensures var (t, r) := WriteStep(s, j);
            && Fills(s, t, j.lba / 8)
            && ((r == j && Waits(t, j)) || (r == j.(done := 8) && Arrived(t, r)))
  {
    if s.reloc.done {
      if s.cache.pos >= LAST_CACHE_POS {
        PurgeWaits(s, j);
      } else {
        WriteArrives(s, j);
      }
      hide Inv, Clean, CachedBlock, Fills, WriteStep, PurgeCache, Arrived;
    } else {
      PhaseFacts(s);
      assert Inv(s) && JobFits(s.cfg, j);
      hide Inv, Clean, CachedBlock, Fills, RelocateCached, RelocateRead, PrepareRelocate;
      if s.reloc.prepared {
        RelocateWaits(s, j);
      } else {
        PrepareWaits(s, j);
      }
    }
  }

  // ---- The flush of one block

  // The purge stores the block in the chunk, and the next write of it can begin.
  lemma ArrivedPurges(s: Ctx, j: Job)
    requires Arrived(s, j)
    ensures s.reloc.done
    ensures var t := PurgeCache(s);
            && Inv(t) && Fills(s, t, j.lba / 8) && t.purge == s.purge + 0x200
            && t.cache.pos == 0 && !t.dirty && !t.reloc.done
            && t.mi.Map[j.lba / 8] != NOT_MAPPED && InChunk(t.mi.Map[j.lba / 8], t.chunk)
  {
    hide Inv, LogOk, CacheOk, CachedBlock, PurgeCache, Fills, FindCached;
    DirtyIsDone(s);
    InvParts(s);
    PurgedAt(s);
    PurgedInfo(s);
    PurgeKeepsInv(s);
    PurgeFills(s, j.lba / 8);
    BlockCachedIff(s.cache, s.cfg.SizeOfMap, j.lba);
    PurgedMap(s, j.lba);
    SlotInChunk(s, FindCached(s.cache, j.lba, 0));
  }

  lemma SlotInChunk(s: Ctx, pos: nat)
    requires s.purge < LAST_PURGE_POS && pos < 0x200
    ensures InChunk(Plba(s.chunk, s.purge) + pos, s.chunk) && Plba(s.chunk, s.purge) + pos < NOT_MAPPED
  {
    ChunksApart(s.chunk, s.cfg.MaxChunks);
  }

  // ---- The driver fills the chunk

  // The run from sys to t consists of such writes and flushes.
  ghost predicate Filled(sys: Sys, t: Sys, w: nat) {
    Undisturbed(t) && t.gate == sys.gate && t.ops == sys.ops && Fills(sys.m.ctx, t.m.ctx, w)
  }

  lemma FilledOn(sys: Sys, t: Sys, u: Sys, w: nat)
    requires Filled(sys, t, w) && Filled(t, u, w)
    ensures Filled(sys, u, w)
  {
    hide Undisturbed, Fills;
    FillsOn(sys.m.ctx, t.m.ctx, u.m.ctx, w);
  }

  lemma FilledSame(sys: Sys, t: Sys, w: nat)
    requires Undisturbed(t) && t.gate == sys.gate && t.ops == sys.ops && t.m.ctx == sys.m.ctx
    ensures Filled(sys, t, w)
  {
    hide Undisturbed;
    FillsNothing(sys.m.ctx, w);
  }

  lemma WaitPasses(sys: Sys, j: Job)
    requires Undisturbed(sys) && sys.m.activity == Runs.Write(j) && Waits(sys.m.ctx, j)
    ensures SysFits(sys) && Inv(sys.m.ctx) && JobFits(sys.m.ctx.cfg, j) && !FinalisesUnmarked(sys)
    ensures var (s, r) := WriteStep(sys.m.ctx, j);
            var t := After(sys, Pass);
            && Filled(sys, t, j.lba / 8) && t.m == Runs.Machine(s, Runs.Write(r))
            && ((r == j && Waits(s, j)) || (r == j.(done := 8) && Arrived(s, r)))
            && (j.done < r.done || (r == j && CacheOk(s.cache, s.cfg.SizeOfMap) && Closer(sys.m.ctx, s, j)))
  {
    hide SysFits, After, WriteStep, Waits, Arrived, Inv, Fills, CacheOk, Closer;
    WaitsOn(sys.m.ctx, j);
    WritePasses(sys, j);
    StepCloser(sys.m.ctx, j);
  }

  lemma WaitingFits(sys: Sys, j: Job)
    requires Undisturbed(sys) && Waits(sys.m.ctx, j)
    ensures SysFits(sys) && CacheOk(sys.m.ctx.cache, sys.m.ctx.cfg.SizeOfMap) && j.done == 0 && |j.data| == 8
  {
    hide SysFits;
    Runs.InvCache(sys.m.ctx);
    hide Inv;
  }

  // From a write that waits to the end of it.
  lemma {:induction false} WriteToEnd(sys: Sys, j: Job) returns (events: seq<Event>)
    requires Undisturbed(sys) && sys.m.activity == Runs.Write(j) && Waits(sys.m.ctx, j)
    ensures SysFits(sys) && ClearAlways(sys, events)
    ensures var t := AnyRun(sys, events);
            Filled(sys, t, j.lba / 8) && t.m.activity.Idle? && Arrived(t.m.ctx, j.(done := 8))
    decreases Tier(sys.m.ctx, j), Phase(sys.m.ctx), ScanLeft(sys.m.ctx), Unaligned(sys.m.ctx)
  {
    hide SysFits, AnyRun, ClearAlways, After, Tier, Phase, ScanLeft, Unaligned, WriteStep, Waits, Arrived, Filled;
    hide FinalisesUnmarked, Undisturbed, CacheOk, Inv;
    WaitingFits(sys, j);
    WaitPasses(sys, j);
    var t := After(sys, Pass);
    FilledAt(sys, t, j.lba / 8);
    if Arrived(t.m.ctx, j.(done := 8)) && t.m.activity == Runs.Write(j.(done := 8)) {
      ArrivedEnds(t, j.(done := 8));
      var u := After(t, Pass);
      FilledOn(sys, t, u, j.lba / 8);
      events := [Pass] + ([Pass] + []);
      OneStep(sys, Pass, [Pass] + []);
      OneStep(t, Pass, []);
      NothingMore(u);
    } else {
      var rest := WriteToEnd(t, j);
      events := [Pass] + rest;
      OneStep(sys, Pass, rest);
      FilledOn(sys, t, AnyRun(t, rest), j.lba / 8);
    }
  }

  lemma FilledAt(sys: Sys, t: Sys, w: nat)
    requires Filled(sys, t, w)
    ensures Undisturbed(t) && SysFits(t) && t.gate == sys.gate && t.ops == sys.ops && Fills(sys.m.ctx, t.m.ctx, w)
  {
    hide SysFits, Fills;
  }

  lemma ArrivedEnds(sys: Sys, j: Job)
    requires Undisturbed(sys) && sys.m.activity == Runs.Write(j) && Arrived(sys.m.ctx, j)
    ensures SysFits(sys) && !FinalisesUnmarked(sys)
    ensures var t := After(sys, Pass);
            Filled(sys, t, j.lba / 8) && t.m == Runs.Machine(sys.m.ctx, Runs.Idle)
  {
    hide SysFits, After, FinalisesUnmarked, Filled;
    WriteEnds(sys, j);
    FilledSame(sys, After(sys, Pass), j.lba / 8);
  }

  lemma FlushBegins(sys: Sys, finalize: bool)
    requires Undisturbed(sys) && sys.m.activity.Idle?
    ensures var t := After(sys, Begin(Runs.BeginFlush(finalize)));
            && Undisturbed(t) && t == MovedTo(sys, sys.m.ctx, Runs.Flush(finalize))
  {
    hide Inv, Gate.GateOk, MarksOut;
    StepFits(sys, Begin(Runs.BeginFlush(finalize)));
  }

  // The first pass of the flush purges.
  lemma FlushPasses(sys: Sys, finalize: bool, j: Job)
    requires Undisturbed(sys) && sys.m.activity == Runs.Flush(finalize) && Arrived(sys.m.ctx, j)
    ensures SysFits(sys) && !FinalisesUnmarked(sys)
    ensures var t := After(sys, Pass);
            t == MovedTo(sys, PurgeCache(sys.m.ctx), Runs.Flush(finalize)) && Filled(sys, t, j.lba / 8)
  {
    hide Inv, Gate.GateOk, MarksOut, PurgeCache, Fills, CachedBlock;
    StepFits(sys, Pass);
    ArrivedPurges(sys.m.ctx, j);
    DirtyIsDone(sys.m.ctx);
  }

  // A flush that need not finalise is over then.
  lemma FlushLeaves(sys: Sys)
    requires Undisturbed(sys) && sys.m.activity == Runs.Flush(false) && sys.m.ctx.cache.pos == 0 && !sys.m.ctx.dirty
    ensures SysFits(sys) && !FinalisesUnmarked(sys)
    ensures After(sys, Pass) == MovedTo(sys, sys.m.ctx, Runs.Idle) && Undisturbed(After(sys, Pass))
  {
    hide Inv, Gate.GateOk, MarksOut;
    StepFits(sys, Pass);
  }

  lemma ChunkOrNext(s: Ctx, p: nat)
    requires InChunk(p, s.chunk)
    ensures !InChunk(p, s.next)
  {
  }

  // The block can be written again.
  lemma PurgedWaits(s: Ctx, j: Job)
    requires Arrived(s, j.(done := 8)) && j.done == 0 && s.purge + 0x200 < LAST_PURGE_POS
    ensures s.reloc.done && Waits(PurgeCache(s), j)
  {
    hide Inv, PurgeCache, CachedBlock, Fills, Clean;
    ArrivedPurges(s, j.(done := 8));
    PurgedInfo(s);
    ChunkOrNext(PurgeCache(s), PurgeCache(s).mi.Map[j.lba / 8]);
    EmptyWaits(PurgeCache(s), j);
  }

  lemma WaitsFit(s: Ctx, j: Job)
    requires Waits(s, j)
    ensures JobFits(s.cfg, j) && s.cache.pos % 8 == 0
  {
    hide Inv, CachedBlock;
  }

  // The flush behind the write, and the next write of the block.
  lemma Round(sys: Sys, j: Job) returns (events: seq<Event>)
    requires Undisturbed(sys) && sys.m.activity.Idle? && Arrived(sys.m.ctx, j.(done := 8)) && j.done == 0
    requires sys.m.ctx.purge + 0x200 < LAST_PURGE_POS
    ensures SysFits(sys) && ClearAlways(sys, events)
    ensures var t := AnyRun(sys, events);
            && Filled(sys, t, j.lba / 8) && t.m.activity == Runs.Write(j) && Waits(t.m.ctx, j)
            && t.m.ctx.purge == sys.m.ctx.purge + 0x200
  {
    hide SysFits, AnyRun, ClearAlways, After, Waits, Arrived, Fills, FinalisesUnmarked, Inv, PurgeCache;
    var b, e := Begin(Runs.BeginFlush(false)), Begin(Runs.BeginWrite(j.lba, j.data));
    FlushBegins(sys, false);
    var sys1 := After(sys, b);
    FlushPasses(sys1, false, j.(done := 8));
    PurgedWaits(sys.m.ctx, j);
    ArrivedPurges(sys.m.ctx, j.(done := 8));
    var sys2 := After(sys1, Pass);
    FlushLeaves(sys2);
    var sys3 := After(sys2, Pass);
    WaitsFit(sys3.m.ctx, j);
    Begins(sys3, j);
    var t := After(sys3, e);
    events := [b] + ([Pass] + ([Pass] + ([e] + [])));
    OneStep(sys, b, [Pass] + ([Pass] + ([e] + [])));
    OneStep(sys1, Pass, [Pass] + ([e] + []));
    OneStep(sys2, Pass, [e] + []);
    OneStep(sys3, e, []);
    NothingMore(t);
  }

  // The flush that takes the last slot goes on to finalise.
  lemma LastRound(sys: Sys, j: Job) returns (events: seq<Event>)
    requires Undisturbed(sys) && sys.m.activity.Idle? && Arrived(sys.m.ctx, j)
    requires sys.m.ctx.purge + 0x200 == LAST_PURGE_POS
    ensures SysFits(sys) && ClearAlways(sys, events)
    ensures var t := AnyRun(sys, events);
            && Filled(sys, t, j.lba / 8) && FinalisesUnmarked(t) && j.lba / 8 < t.m.ctx.cfg.SizeOfMap
            && t.m.ctx.mi.Map[j.lba / 8] != NOT_MAPPED && InChunk(t.m.ctx.mi.Map[j.lba / 8], t.m.ctx.chunk)
  {
    hide SysFits, AnyRun, ClearAlways, After, Fills, Inv, PurgeCache, CachedBlock;
    var b := Begin(Runs.BeginFlush(true));
    FlushBegins(sys, true);
    var sys1 := After(sys, b);
    FlushPasses(sys1, true, j);
    ArrivedPurges(sys.m.ctx, j);
    PurgedAt(sys.m.ctx);
    Positions(sys.m.ctx);
    var t := After(sys1, Pass);
    events := [b] + ([Pass] + []);
    OneStep(sys, b, [Pass] + []);
    OneStep(sys1, Pass, []);
    NothingMore(t);
  }

  // Round after round until the chunk is full and about to be finalised by a flush.
  lemma {:induction false} FillChunk(sys: Sys, j: Job) returns (events: seq<Event>)
    requires Undisturbed(sys) && sys.m.activity == Runs.Write(j) && Waits(sys.m.ctx, j)
    ensures SysFits(sys) && ClearAlways(sys, events)
    ensures var t := AnyRun(sys, events);
            && Filled(sys, t, j.lba / 8) && FinalisesUnmarked(t) && j.lba / 8 < t.m.ctx.cfg.SizeOfMap
            && t.m.ctx.mi.Map[j.lba / 8] != NOT_MAPPED && InChunk(t.m.ctx.mi.Map[j.lba / 8], t.m.ctx.chunk)
    decreases LAST_PURGE_POS - sys.m.ctx.purge
  {
    hide SysFits, AnyRun, ClearAlways, After, Waits, Arrived, FinalisesUnmarked, Filled, Undisturbed;
    WaitingFits(sys, j);
    var write := WriteToEnd(sys, j);
    var t := AnyRun(sys, write);
    FilledAt(sys, t, j.lba / 8);
    ArrivedAt(t.m.ctx, j.(done := 8));
    var rest;
    if t.m.ctx.purge + 0x200 < LAST_PURGE_POS {
      var round := Round(t, j);
      var u := AnyRun(t, round);
      FilledAt(t, u, j.lba / 8);
      var more := FillChunk(u, j);
      FilledOn(t, u, AnyRun(u, more), j.lba / 8);
      RunOn(t, round, more);
      rest := round + more;
    } else {
      rest := LastRound(t, j.(done := 8));
    }
    FilledOn(sys, t, AnyRun(t, rest), j.lba / 8);
    RunOn(sys, write, rest);
    events := write + rest;
  }

  lemma ArrivedAt(s: Ctx, j: Job)
    requires Arrived(s, j)
    ensures s.purge + 0x200 <= LAST_PURGE_POS
  {
    hide Inv;
  }

  // ---- The same, up to a given slot

  // A pass of the waiting write comes no further than slot q, if it does not purge that.
  lemma WaitsBelow(s: Ctx, j: Job, q: nat)
    requires Waits(s, j) && s.purge <= q < LAST_PURGE_POS && q % 0x200 == 0
    requires !(Runs.Purging(Runs.Machine(s, Runs.Write(j))) && s.purge == q)
    ensures Inv(s) && JobFits(s.cfg, j) && j.done < |j.data| && WriteStep(s, j).0.purge <= q
  {
    hide Inv, WriteStep, PurgeCache, Runs.Purging, Clean, CachedBlock;
    WaitsFit(s, j);
    if Runs.Purging(Runs.Machine(s, Runs.Write(j))) {
      Runs.WritePurges(s, j);
      PurgedAt(s);
      NextSlot(s, q);
    } else {
      StaysInPlace(s, j);
    }
  }

  lemma {:induction false} WriteTo(sys: Sys, j: Job, q: nat) returns (events: seq<Event>)
    requires Undisturbed(sys) && sys.m.activity == Runs.Write(j) && Waits(sys.m.ctx, j)
    requires sys.m.ctx.purge <= q < LAST_PURGE_POS && q % 0x200 == 0
    ensures SysFits(sys) && ClearAlways(sys, events) && AnyRun(sys, events).ops == sys.ops
    ensures var t := AnyRun(sys, events);
            || (t.m.activity.Write? && Meets(t, sys.m.ctx.chunk, q))
            || (t.m.activity.Idle? && Filled(sys, t, j.lba / 8) && Arrived(t.m.ctx, j.(done := 8))
                && t.m.ctx.purge <= q)
    decreases Tier(sys.m.ctx, j), Phase(sys.m.ctx), ScanLeft(sys.m.ctx), Unaligned(sys.m.ctx)
  {
    hide SysFits, AnyRun, ClearAlways, After, Tier, Phase, ScanLeft, Unaligned, WriteStep, Waits, Arrived, Filled;
    hide FinalisesUnmarked, Undisturbed, CacheOk, Inv, Runs.Purging, Meets, Fills;
    WaitingFits(sys, j);
    if Runs.Purging(sys.m) && sys.m.ctx.purge == q {
      MeetsHere(sys, sys.m.ctx.chunk, q);
      NothingMore(sys);
      return [];
    }
    WaitsBelow(sys.m.ctx, j, q);
    WaitPasses(sys, j);
    var t := After(sys, Pass);
    FilledAt(sys, t, j.lba / 8);
    FillsChunk(sys.m.ctx, t.m.ctx, j.lba / 8);
    if Arrived(t.m.ctx, j.(done := 8)) && t.m.activity == Runs.Write(j.(done := 8)) {
      ArrivedEnds(t, j.(done := 8));
      var u := After(t, Pass);
      FilledAt(t, u, j.lba / 8);
      FilledOn(sys, t, u, j.lba / 8);
      events := [Pass] + ([Pass] + []);
      OneStep(sys, Pass, [Pass] + []);
      OneStep(t, Pass, []);
      NothingMore(u);
    } else {
      var rest := WriteTo(t, j, q);
      events := [Pass] + rest;
      OneStep(sys, Pass, rest);
      if AnyRun(t, rest).m.activity.Idle? {
        FilledOn(sys, t, AnyRun(t, rest), j.lba / 8);
      }
    }
  }

  lemma FillsChunk(s: Ctx, t: Ctx, w: nat)
    requires Fills(s, t, w)
    ensures t.chunk == s.chunk && t.cfg == s.cfg
  {
    hide Untouched;
  }

  // The flush of an arrived block is about to purge.
  lemma FlushMeets(sys: Sys, j: Job)
    requires Undisturbed(sys) && sys.m.activity.Idle? && Arrived(sys.m.ctx, j)
    ensures SysFits(sys)
    ensures var t := After(sys, Begin(Runs.BeginFlush(false)));
            t.ops == sys.ops && Meets(t, sys.m.ctx.chunk, sys.m.ctx.purge)
  {
    FlushBegins(sys, false);
    hide After, Inv, CachedBlock, Gate.GateOk, WriterOk;
  }

  // By writes and flushes of one block, the writer comes to any slot in front of it.
  lemma {:induction false} FillTo(sys: Sys, j: Job, q: nat) returns (events: seq<Event>)
    requires Undisturbed(sys) && sys.m.activity == Runs.Write(j) && Waits(sys.m.ctx, j)
    requires sys.m.ctx.purge <= q < LAST_PURGE_POS && q % 0x200 == 0
    ensures SysFits(sys) && ClearAlways(sys, events) && AnyRun(sys, events).ops == sys.ops
    ensures Meets(AnyRun(sys, events), sys.m.ctx.chunk, q)
    decreases q - sys.m.ctx.purge
  {
    hide SysFits, AnyRun, ClearAlways, After, Waits, Arrived, Filled, Undisturbed, Meets, Fills, FinalisesUnmarked;
    WaitingFits(sys, j);
    var c := sys.m.ctx.chunk;
    var write := WriteTo(sys, j, q);
    var t := AnyRun(sys, write);
    if t.m.activity.Write? {
      return write;
    }
    FilledAt(sys, t, j.lba / 8);
    FillsChunk(sys.m.ctx, t.m.ctx, j.lba / 8);
    FillsUp(sys.m.ctx, t.m.ctx, j.lba / 8);
    var rest;
    if t.m.ctx.purge == q {
      FlushMeets(t, j.(done := 8));
      rest := [Begin(Runs.BeginFlush(false))] + [];
      OneStep(t, Begin(Runs.BeginFlush(false)), []);
      NothingMore(After(t, Begin(Runs.BeginFlush(false))));
    } else {
      NextSlot(t.m.ctx, q);
      var round := Round(t, j);
      var u := AnyRun(t, round);
      FilledAt(t, u, j.lba / 8);
      FillsChunk(t.m.ctx, u.m.ctx, j.lba / 8);
      var more := FillTo(u, j, q);
      RunOn(t, round, more);
      rest := round + more;
    }
    RunOn(sys, write, rest);
    events := write + rest;
  }

  lemma FillsUp(s: Ctx, t: Ctx, w: nat)
    requires Fills(s, t, w)
    ensures s.purge <= t.purge
  {
    hide Untouched;
  }
}
