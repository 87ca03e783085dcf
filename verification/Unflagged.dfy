// Sectors in the cache that CacheDirty does not admit to (driver/vscsi.c, driver/vflush.c):
// how they come about, and what the following flush does to them.
module Unflagged {
  import opened Geometry
  import opened Model
  import opened Invariant
  import opened CacheIndex
  import opened LogicalDisk
  import opened Relocation
  import opened Writing
  import opened Termination
  import opened Flushing
  import opened Recovery
  import opened TornControl
  import opened Runs
  import opened Salvage

  // ---- A write inside one block

  // The request begins behind the first sector of a block and ends in front of its last.
  predicate InsideBlock(j: Job) {
    j.data != [] && j.lba % 8 != 0 && (j.lba + |j.data|) / 8 == j.lba / 8
  }

  // The cache holds whole blocks, and the flag is clear: as every flush leaves it.
  predicate Calm(s: Ctx) {
    s.cache.pos % 8 == 0 && !s.dirty
  }

  // The pass cannot append, since it never stands at the start of a block.
  ghost predicate InsideSoFar(s0: Ctx, s: Ctx, j: Job) {
    && Inv(s) && s.cfg == s0.cfg && JobFits(s.cfg, j) && InsideBlock(j) && Calm(s)
    && (Kept(s) == Kept(s0) || Kept(s) == Shown(s0))
    && (j.done == 0 ==> Shown(s) == Shown(s0))
    && (j.done > 0 ==> s.reloc.done && CachedBlock(s.cache, j.lba / 8))
  }

  lemma InsideAt(j: Job)
    requires InsideBlock(j) && j.done < |j.data|
    ensures NextLba(j) / 8 == j.lba / 8 == (j.lba + |j.data|) / 8 && NextLba(j) % 8 != 0
  {
  }

  lemma PurgedAt(s: Ctx)
    requires s.purge < LAST_PURGE_POS
    ensures var t := PurgeCache(s);
            && t.cfg == s.cfg && t.next == s.next && t.purge == s.purge + 0x200 && t.finalized == s.finalized
            && t.cache.pos == 0 && !t.dirty && !t.reloc.done
  {
    hide PurgeImage;
  }

  // A pass behind relocation that finds the cache calm.
  lemma CalmHit(s: Ctx, j: Job)
    requires CacheOk(s.cache, s.cfg.SizeOfMap) && s.purge < LAST_PURGE_POS && Calm(s)
    requires JobFits(s.cfg, j) && j.done < |j.data| && FindCached(s.cache, NextLba(j), 0) != NOT_MAPPED
    ensures var t := Transfer(s, j).0;
            && Calm(t) && t.cache.lba == s.cache.lba && t.cache.pos == s.cache.pos
            && t.reloc == s.reloc && t.mi == s.mi && t.disk == s.disk
  {
    hide CacheOk, FindCached, HitLen;
  }

  lemma CalmMiss(s: Ctx, j: Job)
    requires CacheOk(s.cache, s.cfg.SizeOfMap) && s.purge < LAST_PURGE_POS && Calm(s)
    requires JobFits(s.cfg, j) && InsideBlock(j) && j.done < |j.data|
    requires FindCached(s.cache, NextLba(j), 0) == NOT_MAPPED
    ensures Calm(Transfer(s, j).0) && Transfer(s, j).1 == j
  {
    hide CacheOk, FindCached, PurgeCache, HitWrite, Append, FillTail;
    InsideAt(j);
    PurgedAt(s);
  }

  lemma CalmTransfer(s: Ctx, j: Job)
    requires CacheOk(s.cache, s.cfg.SizeOfMap) && s.purge < LAST_PURGE_POS && Calm(s)
    requires JobFits(s.cfg, j) && InsideBlock(j) && j.done < |j.data|
    ensures Calm(Transfer(s, j).0)
    ensures FindCached(s.cache, NextLba(j), 0) == NOT_MAPPED ==> Transfer(s, j).1 == j
  {
    hide CacheOk, FindCached, Transfer;
    if FindCached(s.cache, NextLba(j), 0) == NOT_MAPPED {
      CalmMiss(s, j);
    } else {
      CalmHit(s, j);
    }
  }

  lemma CalmStep(s: Ctx, j: Job)
    requires Inv(s) && JobFits(s.cfg, j) && InsideBlock(j) && j.done < |j.data| && Calm(s)
    ensures Calm(WriteStep(s, j).0)
    ensures !s.reloc.done ==> WriteStep(s, j).1 == j
  {
    InvCache(s);
    PhaseFacts(s);
    hide Durable, RelocOk, CacheOk, Transfer;
    if s.purge < LAST_PURGE_POS && s.reloc.prepared {
      if s.reloc.done {
        CalmTransfer(s, j);
      } else {
        RelocateKeepsInv(s);
      }
    }
  }

  lemma HitKeepsBlock(s: Ctx, j: Job)
    requires Inv(s) && s.reloc.done && Calm(s) && JobFits(s.cfg, j) && InsideBlock(j) && j.done < |j.data|
    requires FindCached(s.cache, NextLba(j), 0) != NOT_MAPPED
    ensures var t := WriteStep(s, j).0;
            t.reloc.done && CachedBlock(t.cache, j.lba / 8) && t.mi == s.mi && t.disk == s.disk
  {
    InvCache(s);
    DoneWithin(s);
    InsideAt(j);
    hide Inv, CacheOk, Transfer, FindCached;
    CalmHit(s, j);
    var pos := FindCached(s.cache, NextLba(j), 0);
    FindCachedFrom(s.cache, s.cfg.SizeOfMap, NextLba(j), 0);
    assert Transfer(s, j).0.cache.lba[pos] / 8 == j.lba / 8;
    assert WriteStep(s, j) == Transfer(s, j) by {
      PhaseFacts(s);
    }
  }

  lemma BlockIsHit(s: Ctx, j: Job)
    requires CacheOk(s.cache, s.cfg.SizeOfMap) && Calm(s) && CachedBlock(s.cache, j.lba / 8)
    requires InsideBlock(j) && j.done < |j.data|
    ensures FindCached(s.cache, NextLba(j), 0) != NOT_MAPPED
  {
    InsideAt(j);
    hide FindCached, CacheOk;
    var p :| 0 <= p < s.cache.pos && s.cache.lba[p] / 8 == j.lba / 8;
    WholeBlockCached(s.cache, s.cfg.SizeOfMap, p, NextLba(j));
  }

  // The first sectors of the request go in.
  lemma Enters(s: Ctx, j: Job)
    requires Inv(s) && Calm(s) && JobFits(s.cfg, j) && InsideBlock(j) && j.done < |j.data|
    ensures var (t, r) := WriteStep(s, j);
            j.done < r.done ==> t.reloc.done && CachedBlock(t.cache, j.lba / 8) && t.mi == s.mi && t.disk == s.disk
  {
    InvCache(s);
    CalmStep(s, j);
    if s.reloc.done {
      DoneWithin(s);
      CalmTransfer(s, j);
      assert WriteStep(s, j) == Transfer(s, j) by {
        PhaseFacts(s);
        hide Inv, CacheOk, Transfer;
      }
      hide Inv, CacheOk, Transfer, FindCached;
      if FindCached(s.cache, NextLba(j), 0) != NOT_MAPPED {
        HitKeepsBlock(s, j);
      }
    }
  }

  lemma StillInside(j: Job, r: Job)
    requires InsideBlock(j) && r == j.(done := r.done)
    ensures InsideBlock(r)
  {
  }

  // Once the first sectors are in, the rest hits the cached block.
  lemma InsideMore(s0: Ctx, s: Ctx, j: Job)
    requires InsideSoFar(s0, s, j) && 0 < j.done < |j.data|
    ensures InsideSoFar(s0, WriteStep(s, j).0, WriteStep(s, j).1)
  {
    hide Inv, CacheOk, WriteStep, Kept, Shown, CachedBlock, Written, FindCached, InsideBlock, Calm;
    InvCache(s);
    StepKeepsInv(s, j);
    CalmStep(s, j);
    BlockIsHit(s, j);
    HitKeepsBlock(s, j);
    var (t, r) := WriteStep(s, j);
    SameIsKept(s, t);
    StillInside(j, r);
  }

  lemma InsideFirst(s0: Ctx, s: Ctx, j: Job)
    requires InsideSoFar(s0, s, j) && j.done == 0 < |j.data|
    ensures InsideSoFar(s0, WriteStep(s, j).0, WriteStep(s, j).1)
  {
    hide Inv, CacheOk, WriteStep, Kept, Shown, CachedBlock, Written, FindCached, InsideBlock, Calm;
    StepKeepsInv(s, j);
    CalmStep(s, j);
    Enters(s, j);
    PassKeeps(s, j);
    var (t, r) := WriteStep(s, j);
    StillInside(j, r);
    if r.done == 0 {
      assert j.data[0..0] == [];
      WrittenNothing(s, t, NextLba(j));
    }
  }

  lemma InsidePass(s0: Ctx, s: Ctx, j: Job)
    requires InsideSoFar(s0, s, j) && j.done < |j.data|
    ensures Inv(s) && JobFits(s.cfg, j)
    ensures InsideSoFar(s0, WriteStep(s, j).0, WriteStep(s, j).1)
  {
    if j.done == 0 {
      InsideFirst(s0, s, j);
    } else {
      InsideMore(s0, s, j);
    }
    hide Inv, WriteStep, CacheOk, Kept, Shown, CachedBlock;
  }

  lemma WrittenNothing(s: Ctx, t: Ctx, lba: nat)
    requires Written(s, t, lba, [])
    ensures Shown(t) == Shown(s)
  {
    SameIsShown(s, t);
  }

  lemma {:induction false} InsideRun(s0: Ctx, s: Ctx, j: Job)
    requires InsideSoFar(s0, s, j)
    ensures InsideSoFar(s0, WriteRun(s, j).0, j.(done := |j.data|))
    decreases |j.data| - j.done, Tier(s, j), Phase(s), ScanLeft(s), Unaligned(s)
  {
    hide Inv, Tier, Phase, ScanLeft, Unaligned, WriteStep, InsideSoFar;
    InsideFacts(s0, s, j);
    if j.done < |j.data| {
      StepKeepsInv(s, j);
      StepCloser(s, j);
      InsidePass(s0, s, j);
      InsideFacts(s0, WriteStep(s, j).0, WriteStep(s, j).1);
      InsideRun(s0, WriteStep(s, j).0, WriteStep(s, j).1);
    }
  }

  lemma InsideFacts(s0: Ctx, s: Ctx, j: Job)
    requires InsideSoFar(s0, s, j)
    ensures Inv(s) && s.cfg == s0.cfg && JobFits(s.cfg, j)
  {
    hide Inv, CacheOk;
  }

  // Behind a flush or a restart, such a write completes and leaves what it wrote in the
  // cache, and the flag clear.
  lemma SubBlockWriteUnflagged(s: Ctx, j: Job)
    requires Inv(s) && Calm(s) && JobFits(s.cfg, j) && j.done == 0 && InsideBlock(j)
    ensures var t := WriteRun(s, j).0;
            && Inv(t) && t.cfg == s.cfg && Written(s, t, j.lba, j.data)
            && Calm(t) && !FlagTellsTruth(t)
            && (Kept(t) == Kept(s) || Kept(t) == Shown(s))
  {
    hide Inv, Written, WriteRun;
    InsideRun(s, s, j);
    WriteCompletes(s, j);
    assert j.data[0..] == j.data;
  }

  // With nothing else in the cache before, neither that write nor any flush behind it
  // reaches the device: a restart finds the logical disk of before the write.
  lemma SubBlockWriteLost(s: Ctx, j: Job, finalize: bool)
    requires Inv(s) && s.cache.pos == 0 && JobFits(s.cfg, j) && j.done == 0 && InsideBlock(j)
    ensures var t := WriteRun(s, j).0;
            && Inv(t) && t.cfg == s.cfg && Written(s, t, j.lba, j.data)
            && Recovers(s.cfg, FlushRun(t, finalize).disk, Shown(s))
  {
    EmptyIsCalm(s);
    NothingCached(s);
    Is(Kept(s), s);
    hide Inv, Written, WriteRun, FlushRun, Recovers, Kept, Shown;
    SubBlockWriteUnflagged(s, j);
    FlushRecovers(WriteRun(s, j).0, finalize);
  }

  lemma EmptyIsCalm(s: Ctx)
    requires Inv(s) && s.cache.pos == 0
    ensures Calm(s)
  {
  }

  // ---- A finalising flush over such a block

  // Nothing has to be relocated: the write handler comes to the transfer at once.
  lemma SettlesPrepared(s: Ctx, j: Job)
    requires Inv(s) && s.reloc.prepared && !s.reloc.done && s.purge < LAST_PURGE_POS && s.cache.pos == 0
    requires s.mi.info[s.next].Used == 0 && JobFits(s.cfg, j) && j.done < |j.data|
    ensures var t := s.(reloc := s.reloc.(done := true));
            Inv(t) && WriteRun(s, j) == WriteRun(t, j)
  {
    hide CacheOk, RelocateScan, Durable;
    PhaseFacts(s);
    RatioIsMet(s);
    StepKeepsInv(s, j);
    hide RelocOk, RatioMet;
    var t := s.(reloc := s.reloc.(done := true));
    assert RelocateCached(s) == t;
    hide RelocateCached, Transfer;
    assert WriteStep(s, j) == (t, j);
  }

  lemma RatioIsMet(s: Ctx)
    requires Inv(s) && s.reloc.prepared && s.purge < LAST_PURGE_POS && s.cache.pos == 0
    requires s.mi.info[s.next].Used == 0
    ensures RatioMet(s)
  {
    SourceCounts(s);
    hide Inv;
    NothingToMove(s.reloc.source, (LAST_PURGE_POS - 0x200 - s.purge) / 8, s.reloc.target);
  }

  lemma SourceCounts(s: Ctx)
    requires Inv(s) && s.reloc.prepared
    ensures 0 <= s.reloc.source
  {
  }

  lemma NothingToMove(source: int, slots: int, target: int)
    requires 0 <= source && 0 <= slots
    ensures source * slots >= target * 0
  {
  }

  lemma Prepares(s: Ctx, j: Job)
    requires Inv(s) && !s.reloc.prepared && s.purge < LAST_PURGE_POS && JobFits(s.cfg, j) && j.done < |j.data|
    ensures var t := PrepareRelocate(s);
            Inv(t) && !t.reloc.done && WriteRun(s, j) == WriteRun(t, j)
  {
    StepKeepsInv(s, j);
    PhaseFacts(s);
    hide Durable, RelocOk, CacheOk;
    assert WriteStep(s, j) == (PrepareRelocate(s), j);
  }

  lemma Settles(s: Ctx, j: Job) returns (t: Ctx)
    requires Inv(s) && !s.reloc.done && s.purge < LAST_PURGE_POS && s.cache.pos == 0
    requires s.mi.info[s.next].Used == 0 && JobFits(s.cfg, j) && j.done < |j.data|
    ensures t.cfg == s.cfg && t.mi == s.mi && t.next == s.next && t.purge == s.purge && t.finalized == s.finalized
    ensures t.dirty == s.dirty && t.reloc.done && t.cache.pos == 0 && SamePlace(s, t)
    ensures Inv(t) && WriteRun(s, j) == WriteRun(t, j)
  {
    hide Inv, WriteRun;
    var p: Ctx := s;
    if !s.reloc.prepared {
      Prepares(s, j);
      p := PrepareRelocate(s);
    }
    SettlesPrepared(p, j);
    t := p.(reloc := p.reloc.(done := true));
  }

  // ---- A write that fits in the empty cache

  // No block on the way is cached.
  ghost predicate WayFree(c: Cache, lba: nat, len: nat) {
    forall t | lba < t < lba + len && t % 8 == 0 :: FindCached(c, t, 0) == NOT_MAPPED
  }

  lemma {:induction false} AllFit(c: Cache, lba: nat, len: nat, n: nat)
    requires 1 <= n <= len && c.pos + len <= LAST_CACHE_POS && WayFree(c, lba, len)
    ensures AppendLen(c, lba, len, n) == len
    decreases len - n
  {
    hide FindCached;
    if n < len {
      AllFit(c, lba, len, n + 1);
    }
  }

  lemma OnlyHeadCached(c: Cache, lba: nat, len: nat)
    requires c.pos == lba % 8 && (c.pos > 0 ==> c.lba[0] <= lba)
    ensures FindCached(c, lba, 0) == NOT_MAPPED && WayFree(c, lba, len)
  {
    assert FindCached(c, lba, 8) == NOT_MAPPED;
    forall t | lba < t < lba + len && t % 8 == 0 ensures FindCached(c, t, 0) == NOT_MAPPED {
      assert FindCached(c, t, 8) == NOT_MAPPED;
    }
  }

  ghost predicate AppendedAll(s: Ctx, t: Ctx, j: Job) {
    && t.dirty && t.cache.pos == j.lba % 8 + |j.data| && t.reloc == s.reloc && SamePlace(s, t)
    && t.cfg == s.cfg && t.mi == s.mi && t.next == s.next && t.purge == s.purge && t.finalized == s.finalized
  }

  // The sectors of the block in front of the request are cached, and nothing else.
  predicate LedUp(c: Cache, lba: nat) {
    c.pos == lba % 8 && (c.pos > 0 ==> c.lba[0] == lba - lba % 8 && c.lba[c.pos - 1] + 1 == lba)
  }

  predicate FitsCache(s: Ctx, j: Job) {
    JobFits(s.cfg, j) && j.done == 0 && j.data != [] && j.lba % 8 + |j.data| <= LAST_CACHE_POS
  }

  lemma LedUpFacts(s: Ctx, j: Job)
    requires FitsCache(s, j) && LedUp(s.cache, j.lba)
    ensures FindCached(s.cache, j.lba, 0) == NOT_MAPPED && s.cache.pos < LAST_CACHE_POS
    ensures if s.cache.pos % 8 == 0 then j.lba % 8 == 0 else s.cache.lba[s.cache.pos - 1] + 1 == j.lba
  {
    OnlyHeadCached(s.cache, j.lba, |j.data|);
    hide FindCached;
  }

  lemma TransferIsAppend(s: Ctx, j: Job)
    requires CacheOk(s.cache, s.cfg.SizeOfMap) && s.purge < LAST_PURGE_POS
    requires FitsCache(s, j) && LedUp(s.cache, j.lba)
    ensures Transfer(s, j) == Append(s, j)
  {
    LedUpFacts(s, j);
    hide CacheOk, FindCached, Append, HitWrite, PurgeCache, FillTail, FillHead, LedUp;
  }

  lemma AppendIsAll(s: Ctx, j: Job)
    requires FitsCache(s, j) && LedUp(s.cache, j.lba)
    ensures var (t, r) := Append(s, j);
            r == j.(done := |j.data|) && AppendedAll(s, t, j)
  {
    OnlyHeadCached(s.cache, j.lba, |j.data|);
    AllFit(s.cache, j.lba, |j.data|, 1);
    hide FindCached, AppendLen;
  }

  lemma EndsAt(s: Ctx, j: Job)
    requires Inv(s) && JobFits(s.cfg, j) && j.done == |j.data|
    ensures WriteRun(s, j) == (s, j)
  {
    hide Inv;
  }

  lemma PassesOn(s: Ctx, j: Job)
    requires Inv(s) && JobFits(s.cfg, j) && j.done < |j.data|
    ensures var (t, r) := WriteStep(s, j);
            && Inv(t) && JobFits(t.cfg, r) && WriteRun(s, j) == WriteRun(t, r)
  {
    hide Inv, WriteStep, Written, Tier, Phase, ScanLeft, Unaligned;
    StepKeepsInv(s, j);
  }

  // The whole request is appended in one pass.
  lemma AppendsAll(s: Ctx, j: Job)
    requires Inv(s) && s.reloc.done && FitsCache(s, j) && LedUp(s.cache, j.lba)
    ensures AppendedAll(s, WriteRun(s, j).0, j)
  {
    DoneTransfers(s, j);
    hide Inv, CacheOk, Transfer, Append, WriteStep, WriteRun, AppendedAll, LedUp;
    TransferIsAppend(s, j);
    AppendIsAll(s, j);
    PassesOn(s, j);
    EndsAt(Append(s, j).0, Append(s, j).1);
  }

  // A request that begins inside a block first gets the sectors in front of it.
  lemma HeadLeadsUp(s: Ctx, j: Job)
    requires CacheOk(s.cache, s.cfg.SizeOfMap) && s.purge < LAST_PURGE_POS
    requires s.cache.pos == 0 && j.lba % 8 != 0 && !InsideBlock(j) && FitsCache(s, j)
    ensures var (f, r) := Transfer(s, j);
            r == j && f == s.(cache := f.cache) && LedUp(f.cache, j.lba)
  {
    assert FindCached(s.cache, j.lba, 0) == NOT_MAPPED;
    hide CacheOk, FindCached, Append, HitWrite, PurgeCache, FillTail, Stored;
  }

  lemma FillsHead(s: Ctx, j: Job)
    requires Inv(s) && s.reloc.done && s.cache.pos == 0 && j.lba % 8 != 0 && !InsideBlock(j) && FitsCache(s, j)
    ensures var f := WriteStep(s, j).0;
            && Inv(f) && f == s.(cache := f.cache) && LedUp(f.cache, j.lba) && WriteRun(s, j) == WriteRun(f, j)
  {
    DoneTransfers(s, j);
    hide Inv, CacheOk, Transfer, WriteStep, WriteRun, LedUp, InsideBlock;
    HeadLeadsUp(s, j);
    PassesOn(s, j);
  }

  lemma AppendsWhole(s: Ctx, j: Job)
    requires Inv(s) && s.reloc.done && s.cache.pos == 0 && !InsideBlock(j) && FitsCache(s, j)
    ensures AppendedAll(s, WriteRun(s, j).0, j)
  {
    hide Inv, WriteRun, WriteStep, InsideBlock, AppendedAll;
    if j.lba % 8 != 0 {
      FillsHead(s, j);
      var f := WriteStep(s, j).0;
      AppendsAll(f, j);
      SameButCache(s, f, WriteRun(f, j).0, j);
    } else {
      AppendsAll(s, j);
    }
  }

  lemma SameButCache(s: Ctx, f: Ctx, t: Ctx, j: Job)
    requires f == s.(cache := f.cache) && AppendedAll(f, t, j)
    ensures AppendedAll(s, t, j)
  {
  }

  // Such a write sets the flag exactly when it does not lie inside one block.
  lemma FlagSetExactly(s: Ctx, j: Job)
    requires Inv(s) && s.reloc.done && s.cache.pos == 0
    requires FitsCache(s, j)
    ensures FlagTellsTruth(WriteRun(s, j).0) <==> !InsideBlock(j)
  {
    EmptyIsCalm(s);
    hide Inv, WriteRun, InsideBlock, Written, Calm;
    if InsideBlock(j) {
      SubBlockWriteUnflagged(s, j);
    } else {
      AppendsWhole(s, j);
    }
  }

  // What a restart finds behind such a write and any flush, when nothing has to be relocated:
  // the disk of before the write if that lies inside one block, and the data if not.
  lemma FlushStoresExactly(s: Ctx, j: Job, finalize: bool)
    requires Inv(s) && !s.reloc.done && s.purge < LAST_PURGE_POS && s.cache.pos == 0
    requires s.mi.info[s.next].Used == 0
    requires FitsCache(s, j)
    ensures var t := WriteRun(s, j).0;
            && Inv(t) && t.cfg == s.cfg && Written(s, t, j.lba, j.data)
            && Recovers(s.cfg, FlushRun(t, finalize).disk,
                        if InsideBlock(j) then Shown(s) else Splice(Shown(s), j.lba, j.data))
  {
    hide Inv, WriteRun, FlushRun, InsideBlock, Written, Recovers, Shown, Kept, FlagTellsTruth, Flushed;
    WriteCompletes(s, j);
    assert j.data[0..] == j.data == j.data[..|j.data|];
    if InsideBlock(j) {
      SubBlockWriteLost(s, j, finalize);
    } else {
      var s0 := Settles(s, j);
      FlagSetExactly(s0, j);
      FlushRecovers(WriteRun(s, j).0, finalize);
      WrittenCfg(s, WriteRun(s, j).0, j.lba, j.data);
      WrittenShows(s, WriteRun(s, j).0, j.lba, j.data, |j.data|);
    }
  }

  lemma WrittenCfg(s: Ctx, t: Ctx, lba: nat, data: seq<Sector>)
    requires Written(s, t, lba, data)
    ensures t.cfg == s.cfg
  {
  }

  lemma BlockIsAppended(s: Ctx, j: Job)
    requires Inv(s) && s.reloc.done && s.cache.pos == 0
    requires JobFits(s.cfg, j) && j.done == 0 && |j.data| == 8 && j.lba % 8 == 0
    ensures Inv(WriteRun(s, j).0) && AppendedAll(s, WriteRun(s, j).0, j)
  {
    hide Inv, WriteRun, Written;
    WriteCompletes(s, j);
    AppendsWhole(s, j);
  }

  // The flush behind it purges the block.
  lemma FlushesBlock(s: Ctx)
    requires Inv(s) && s.dirty && s.cache.pos % 8 == 0
    ensures s.purge < LAST_PURGE_POS && s.reloc.done && FlushRun(s, false) == PurgeCache(s)
  {
    DirtyIsDone(s);
    hide Durable, RelocOk, CacheOk;
    FlushStepKeepsInv(s, false);
    var t := PurgeCache(s);
    assert FlushStep(s, false) == (t, false);
    assert FlushStep(t, false) == (t, true);
    assert FlushRun(t, false) == t;
  }

  lemma StillNothingToMove(s: Ctx)
    requires Inv(s) && s.reloc.done && s.purge < LAST_PURGE_POS && s.cache.pos % 8 == 0
    requires s.mi.info[s.next].Used == 0
    ensures PurgeCache(s).next == s.next && PurgeCache(s).mi.info[s.next].Used == 0
  {
    hide RelocOk, Outgoing, PurgeCache;
    PurgedAt(s);
    PurgeEmpties(s);
    PurgeKeepsInv(s);
    CountKept(PurgeCache(s));
  }

  // A sector inside the block is filled in from the device and then overwritten.
  lemma WritesInside(s: Ctx, j: Job)
    requires Inv(s) && s.reloc.done && s.cache.pos == 0
    requires JobFits(s.cfg, j) && j.done == 0 && |j.data| == 1 && InsideBlock(j)
    ensures var t := WriteRun(s, j).0;
            && t.purge == s.purge && t.finalized == s.finalized
            && t.cache.pos == 8 && t.cache.lba[0] == j.lba - j.lba % 8
  {
    hide Durable, RelocOk, CacheOk;
    DoneWithin(s);
    PhaseFacts(s);
    InsideAt(j);
    StepKeepsInv(s, j);
    var f := FillHead(s, j);
    assert WriteStep(s, j) == (f, j);
    InvCache(s);
    WholeHeadHits(s.cache, s.cfg.SizeOfMap, j.lba, Stored(s, j.lba - j.lba % 8, 8));
    StepKeepsInv(f, j);
    var (t, r) := HitWrite(f, j);
    assert WriteStep(f, j) == (t, r);
    assert WriteRun(t, r) == (t, r);
    assert WriteRun(f, j) == WriteRun(t, r);
    assert WriteRun(s, j) == WriteRun(f, j);
  }

  // The write of a whole block, the flush behind it, and the write inside the block.
  function BlockThenInside(s: Ctx, whole: Job, inside: Job): (t: Ctx)
    requires Inv(s) && JobFits(s.cfg, whole) && JobFits(s.cfg, inside)
    ensures Inv(t) && t.cfg == s.cfg
  {
    WriteCompletes(s, whole);
    var flushed := FlushRun(WriteRun(s, whole).0, false);
    FlushEnds(WriteRun(s, whole).0, false);
    WriteCompletes(flushed, inside);
    WriteRun(flushed, inside).0
  }

  predicate BlockAndInside(whole: Job, inside: Job) {
    && whole.done == 0 && |whole.data| == 8 && whole.lba % 8 == 0 && whole.data[0].User?
    && inside.done == 0 && |inside.data| == 1 && InsideBlock(inside) && inside.lba / 8 == whole.lba / 8
  }

  // It leads to a context that a finalising flush would damage.
  lemma FinaliseArises(s: Ctx, whole: Job, inside: Job)
    requires Inv(s) && !s.reloc.done && s.cache.pos == 0 && s.purge + 0x200 < LAST_PURGE_POS
    requires s.mi.info[s.next].Used == 0
    requires JobFits(s.cfg, whole) && JobFits(s.cfg, inside) && BlockAndInside(whole, inside)
    ensures var t := BlockThenInside(s, whole, inside);
            && !FlagTellsTruth(t) && t.finalized < t.purge && !t.cache.mem[0].Control?
            && !SameContents(t, FlushRun(t, true))
  {
    Positions(s);
    hide Inv, WriteRun, FlushRun, PurgeCache, SameContents, ReadSector, Written;
    var s0 := Settles(s, whole);
    BlockIsAppended(s0, whole);
    WriteCompletes(s, whole);
    var s1 := WriteRun(s, whole).0;
    FlushesBlock(s1);
    FlushEnds(s1, false);
    StillNothingToMove(s1);
    var s2 := PurgeCache(s1);
    PurgedAt(s1);
    var s3 := Settles(s2, inside);
    WritesInside(s3, inside);
    SubBlockWriteUnflagged(s2, inside);
    var t := WriteRun(s2, inside).0;
    CachedReads(t, 0);
    FirstRemains(s, s1, s2, t, whole, inside);
    FlushKeepsExactly(t, true);
    NoControlHeld(t);
  }

  lemma NoControlHeld(s: Ctx)
    requires Inv(s) && s.cache.pos > 0 && !s.cache.mem[0].Control?
    ensures CacheOk(s.cache, s.cfg.SizeOfMap) && !HoldsControl(s)
  {
    PaddedKeeps(s);
    InvCache(s);
    hide Inv, CacheOk, Padded, PurgeChunk;
  }

  lemma Positions(s: Ctx)
    ensures s.finalized <= s.purge
  {
  }

  // The first sector of the block reads as it was written.
  lemma FirstRemains(s: Ctx, s1: Ctx, s2: Ctx, t: Ctx, whole: Job, inside: Job)
    requires BlockAndInside(whole, inside) && JobFits(s.cfg, whole)
    requires Written(s, s1, NextLba(whole), whole.data[whole.done..]) && SameContents(s1, s2)
    requires Written(s2, t, inside.lba, inside.data)
    ensures whole.lba == inside.lba - inside.lba % 8 && t.cfg == s.cfg
    ensures ReadSector(t, whole.lba) == whole.data[0]
  {
    hide ReadSector;
    assert whole.data[0..] == whole.data;
  }

  // ---- A logical disk that is cached as a whole

  ghost predicate WhollyCached(s: Ctx) {
    Inv(s) && s.reloc.done && Calm(s) && forall b | 0 <= b < s.cfg.SizeOfMap :: CachedBlock(s.cache, b)
  }

  lemma SameIndexWhole(s: Ctx, t: Ctx)
    requires WhollyCached(s) && Inv(t) && t.cfg == s.cfg && t.reloc == s.reloc && t.dirty == s.dirty
    requires t.cache.lba == s.cache.lba && t.cache.pos == s.cache.pos
    ensures WhollyCached(t)
  {
    hide Inv;
    forall b | 0 <= b < t.cfg.SizeOfMap ensures CachedBlock(t.cache, b) {
      assert CachedBlock(s.cache, b);
      var p :| 0 <= p < s.cache.pos && s.cache.lba[p] / 8 == b;
      assert t.cache.lba[p] / 8 == b;
    }
  }

  lemma WholeIsHit(s: Ctx, lba: nat)
    requires WhollyCached(s) && lba / 8 < s.cfg.SizeOfMap
    ensures FindCached(s.cache, lba, 0) != NOT_MAPPED
  {
    InvCache(s);
    hide Inv, CacheOk, FindCached;
    assert CachedBlock(s.cache, lba / 8);
    var p :| 0 <= p < s.cache.pos && s.cache.lba[p] / 8 == lba / 8;
    WholeBlockCached(s.cache, s.cfg.SizeOfMap, p, lba);
  }

  lemma WholeWrite(s: Ctx, j: Job)
    requires WhollyCached(s) && JobFits(s.cfg, j) && j.done < |j.data|
    ensures !Purging(Machine(s, Write(j)))
    ensures WhollyCached(WriteStep(s, j).0) && Kept(WriteStep(s, j).0) == Kept(s)
  {
    WholeIsHit(s, NextLba(j));
    hide Inv, CacheOk, FindCached, Transfer, WriteStep, WhollyCached, Kept;
    WholeParts(s);
    DoneTransfers(s, j);
    CalmHit(s, j);
    StepKeepsInv(s, j);
    var t := WriteStep(s, j).0;
    SameIndexWhole(s, t);
    SameIsKept(s, t);
  }

  lemma WholeParts(s: Ctx)
    requires WhollyCached(s)
    ensures Inv(s) && s.reloc.done && Calm(s)
  {
  }

  lemma WholeFlush(s: Ctx, finalize: bool)
    requires WhollyCached(s)
    ensures !Purging(Machine(s, Flush(finalize)))
    ensures WhollyCached(FlushStep(s, finalize).0) && Kept(FlushStep(s, finalize).0) == Kept(s)
  {
    hide Durable, RelocOk, CacheOk, Kept, WhollyCached;
    WholeParts(s);
    if finalize && s.finalized < s.purge {
      PurgeChunkKeepsInv(s);
      SameIndexWhole(s, PurgeChunk(s));
      SameIsKept(s, PurgeChunk(s));
    }
  }

  // With the flag clear over all blocks of a small disk, no request is stored any more,
  // whatever it is: only a crash changes what a restart finds.
  lemma WhollyCachedStays(m: Machine, e: Event)
    requires MachineOk(m) && WhollyCached(m.ctx) && (e.BeginWrite? || e.BeginFlush? || e.Pass?)
    ensures !Purging(m) && WhollyCached(Next(m, e).ctx) && Kept(Next(m, e).ctx) == Kept(m.ctx)
  {
    hide Inv, WhollyCached, Kept, WriteStep, FlushStep, FindCached;
    match m.activity {
      case Idle =>
      case Write(j) =>
        if j.done < |j.data| {
          WholeWrite(m.ctx, j);
        }
      case Flush(finalize) =>
        WholeFlush(m.ctx, finalize);
    }
  }

  // ---- A block in the first chunk

  // Written and flushed, a block is stored, but only this chunk's control block or, before
  // the first one is written, the one from formatting leads to it.
  lemma BlockStaysFirst(s: Ctx, whole: Job, left: ChunkCtl)
    requires Inv(s) && Traced(s) && !Followed(s) && !s.reloc.done && s.cache.pos == 0 && s.purge < LAST_PURGE_POS
    requires s.mi.info[s.next].Used == 0 && !Accepted(s.cfg, left)
    requires JobFits(s.cfg, whole) && whole.done == 0 && |whole.data| == 8 && whole.lba % 8 == 0
    ensures var t := WriteRun(s, whole).0;
            && Inv(t) && t.cfg == s.cfg
            && var u := FlushRun(t, false);
               && u.cfg == s.cfg && Written(s, u, whole.lba, whole.data)
               && (forall x: nat | x / 8 < s.cfg.SizeOfMap ::
                     StoredAt(u, x) == ReadSector(u, x) && ReadSector(Recover(s.cfg, LeftOn(u, left)), x) == Zero)
  {
    hide Inv, WriteRun, FlushRun, PurgeCache, SameContents, ReadSector, StoredAt, Traced, Followed, Accepted, Recover;
    var s0 := Settles(s, whole);
    BlockIsAppended(s0, whole);
    WriteCompletes(s, whole);
    assert whole.data[0..] == whole.data;
    var t := WriteRun(s, whole).0;
    FlushesBlock(t);
    FlushEnds(t, false);
    var u := PurgeCache(t);
    PurgedAt(t);
    NothingCached(u);
    FlushedWritten(s, t, u, whole.lba, whole.data);
    SamePlaceFirst(s, s0);
    SamePlaceFirst(s0, t);
    InvCache(t);
    TracedPurge(t);
    PurgeFollows(t);
    TracedFirst(u);
    TornFirstLoses(u, left);
  }

  lemma TracedFirst(s: Ctx)
    requires Traced(s) && !Followed(s)
    ensures First(s)
  {
  }

  lemma SamePlaceFirst(s: Ctx, t: Ctx)
    requires Traced(s) && !Followed(s) && SamePlace(s, t)
    ensures Traced(t) && !Followed(t)
  {
    hide Traced, Followed;
    TracedFrame(s, t);
  }

  lemma FlushedWritten(s: Ctx, t: Ctx, u: Ctx, lba: nat, data: seq<Sector>)
    requires Written(s, t, lba, data) && SameContents(t, u)
    ensures Written(s, u, lba, data)
  {
    hide ReadSector;
  }
}
