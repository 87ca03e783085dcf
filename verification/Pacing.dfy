// The pace of relocation (driver/vrelocation.c): it stops as soon as it is ahead of its
// schedule, so client data comes through after a bounded number of purges of relocated blocks.
module Pacing {
  import opened Geometry
  import opened Model
  import opened Invariant
  import opened LogicalDisk
  import opened Relocation
  import opened Writing
  import opened Termination

  // ---- One slot

  // Ahead of the schedule nothing is copied and the slot is left to client data. Behind it
  // relocation only stops when the cache is full, or when all that is left is cached.
  lemma StopsExactly(s: Ctx)
    requires Relocating(s)
    ensures s.cache.pos % 8 == 0
    ensures var used, r := s.mi.info[s.next].Used, s.reloc;
            if r.source * ((LAST_PURGE_POS - 0x200 - s.purge) / 8) >= r.target * (used - s.cache.pos / 8)
            then RelocateCached(s) == Finished(s)
            else var t := RelocateCached(s);
                 CacheOk(t.cache, t.cfg.SizeOfMap)
                 && (t.reloc.done ==> t.cache.pos >= LAST_CACHE_POS || Outgoing(t) == used)
  {
    RelocatingWhole(s);
    hide LogOk, RelocOk, CacheOk, Outgoing, RelocateScan;
    if !RatioMet(s) {
      ScanKeepsReloc(s);
      ScanStops(s);
    }
  }

  lemma {:induction false} ScanStops(s: Ctx)
    requires Relocating(s)
    ensures s.cache.pos % 8 == 0
    ensures var t := RelocateScan(s);
            && CacheOk(t.cache, t.cfg.SizeOfMap)
            && (t.reloc.done ==> t.cache.pos >= LAST_CACHE_POS || Outgoing(t) == s.mi.info[s.next].Used)
    decreases LAST_PURGE_POS - s.reloc.pos
  {
    hide LogOk, RelocOk, CacheOk, Outgoing, LiveSlot;
    RelocatingWhole(s);
    ScanKeepsReloc(s);
    if s.reloc.pos >= LAST_PURGE_POS {
      EndIsOutgoing(s);
      SameOutgoing(s);
    } else if !LiveSlot(s.mi.Map, s.reloc.table, s.next, s.reloc.pos / 8) {
      SkipKeepsReloc(s);
      ScanStops(Skipped(s));
    } else if s.cache.pos < LAST_CACHE_POS && s.reloc.start <= s.reloc.pos < s.reloc.end {
      CopyKeepsReloc(s);
      ScanStops(Copied(s));
    }
  }

  lemma SameOutgoing(s: Ctx)
    requires CacheOk(s.cache, s.cfg.SizeOfMap)
    ensures Outgoing(Finished(s)) == Outgoing(s)
  {
  }

  // ---- Over the passes of a write

  // How many purges come before the request gets its next sectors through, and the context
  // that takes them.
  ghost function BeforeClient(s: Ctx, j: Job): (r: (nat, Ctx))
    requires Inv(s) && JobFits(s.cfg, j) && j.done < |j.data|
    decreases Tier(s, j), Phase(s), ScanLeft(s), Unaligned(s)
  {
    StepKeepsInv(s, j);
    StepCloser(s, j);
    var (s', j') := WriteStep(s, j);
    if j.done < j'.done then (0, s)
    else
      var (n, t) := BeforeClient(s', j);
      (n + (if s'.purge == s.purge then 0 else 1), t)
  }

  // How far the blocks that the rest of the chunk will take over are ahead of those that are
  // left to move. A purge of 63 relocated blocks gains Gain(s).
  function Lead(s: Ctx): int {
    s.reloc.source * Remaining(s) - s.reloc.target * s.mi.info[s.next].Used
  }

  function Gain(s: Ctx): int {
    63 * s.reloc.target - 64 * s.reloc.source
  }

  // n more purges of relocated blocks bring relocation far enough ahead.
  predicate Enough(s: Ctx, n: nat) {
    n * Gain(s) + Lead(s) >= 64 * s.reloc.source
  }

  // Relocation has the slot, and needs a purge if it has begun to copy; or it is done with the
  // slot, and needs a purge if the slot is full.
  ghost predicate Paced(s: Ctx, n: nat) {
    && Inv(s) && s.reloc.prepared && s.purge < LAST_PURGE_POS && Enough(s, n)
    && (!s.reloc.done ==> (s.cache.pos > 0 ==> n > 0))
    && (s.reloc.done ==> Clean(s) && (s.cache.pos >= LAST_CACHE_POS ==> n > 0))
  }

  lemma Spread(source: int, slots: int, n: int, gain: int)
    ensures source * (slots - 64) == source * slots - 64 * source
    ensures (n - 1) * gain == n * gain - gain
  {
  }

  // With no purge needed any more, an empty cache stays empty.
  lemma EnoughIsMet(s: Ctx)
    requires s.next < |s.mi.info| && s.purge < LAST_PURGE_POS && s.cache.pos == 0 && Enough(s, 0)
    ensures RatioMet(s)
  {
    var slots := (LAST_PURGE_POS - 0x200 - s.purge) / 8;
    assert slots == Remaining(s) - 64;
    Spread(s.reloc.source, Remaining(s), 0, 0);
  }

  lemma SlotStep(s: Ctx, j: Job)
    requires Inv(s) && s.reloc.prepared && !s.reloc.done && s.purge < LAST_PURGE_POS && s.cache.pos % 8 == 0
    requires JobFits(s.cfg, j) && j.done < |j.data|
    ensures var t := RelocateCached(s);
            WriteStep(s, j) == (if t.reloc.done then t else RelocateRead(t), j)
  {
    hide Inv, RelocateCached, RelocateRead;
  }

  // The target, the source and the position stay as they are for the slot.
  predicate SameSlot(s: Ctx, t: Ctx) {
    && t.cfg == s.cfg && t.mi == s.mi && t.next == s.next && t.chunk == s.chunk && t.purge == s.purge
    && t.reloc.source == s.reloc.source && t.reloc.target == s.reloc.target && t.reloc.prepared == s.reloc.prepared
  }

  lemma EnoughFrame(s: Ctx, t: Ctx, n: nat)
    requires SameSlot(s, t) && Enough(s, n)
    ensures Enough(t, n)
  {
  }

  lemma SlotFrame(s: Ctx)
    requires s.cache.pos % 8 == 0
    ensures SameSlot(s, RelocateCached(s)) && SameSlot(s, RelocateRead(RelocateCached(s)))
    ensures RelocateRead(RelocateCached(s)).cache == RelocateCached(s).cache
    ensures RelocateRead(RelocateCached(s)).reloc.done == RelocateCached(s).reloc.done
  {
    hide RelocateCached;
  }

  lemma CachedClean(s: Ctx)
    requires Inv(s) && Staged(s)
    ensures Clean(s)
  {
    StagedOutgoing(s);
  }

  lemma NoneNeeded(s: Ctx)
    requires s.purge < LAST_PURGE_POS && s.cache.pos == 0 && Enough(s, 0)
    ensures RelocateCached(s) == Finished(s)
  {
    EnoughIsMet(s);
    hide RatioMet, RelocateScan;
  }

  // A pass while relocation has the slot.
  lemma SlotPass(s: Ctx, j: Job, n: nat)
    requires Paced(s, n) && !s.reloc.done && JobFits(s.cfg, j) && j.done < |j.data|
    ensures var (t, r) := WriteStep(s, j);
            r == j && Paced(t, n) && SameSlot(s, t)
  {
    PhaseFacts(s);
    StepKeepsInv(s, j);
    RelocateKeepsInv(s);
    hide Inv, Staged, RelocateScan, RelocateCached, RelocateRead, Enough, WriteStep, Clean;
    SlotStep(s, j);
    SlotFrame(s);
    var t := RelocateCached(s);
    EnoughFrame(s, WriteStep(s, j).0, n);
    CachedClean(t);
    if n == 0 {
      NoneNeeded(s);
    }
  }

  // A purge of 63 relocated blocks.
  lemma FullGains(s: Ctx, t: Ctx, n: nat)
    requires Enough(s, n) && n > 0 && t.next == s.next && t.purge == s.purge + 0x200 <= LAST_PURGE_POS
    requires t.reloc.source == s.reloc.source && t.reloc.target == s.reloc.target
    requires t.mi.info[s.next].Used == s.mi.info[s.next].Used - 63
    ensures Enough(t, n - 1)
  {
    assert Remaining(t) == Remaining(s) - 64;
    Spread(s.reloc.source, Remaining(s), n, Gain(s));
    Spread(s.reloc.target, s.mi.info[s.next].Used, n, 0);
    Share(s.reloc.target, s.mi.info[s.next].Used);
  }

  lemma Share(target: int, used: int)
    ensures target * (used - 63) == target * used - 63 * target
  {
  }

  lemma PurgeAt(s: Ctx)
    requires s.purge < LAST_PURGE_POS
    ensures var t := PurgeCache(s);
            && t.cfg == s.cfg && t.next == s.next && t.chunk == s.chunk && t.purge == s.purge + 0x200
            && t.reloc == s.reloc.(done := false) && t.cache.pos == 0
  {
    hide PurgeImage;
  }

  // What a full slot of relocated blocks takes out of the next chunk.
  lemma FullTakes(s: Ctx)
    requires Inv(s) && s.purge < LAST_PURGE_POS && s.cache.pos >= LAST_CACHE_POS && Clean(s)
    ensures PurgeCache(s).mi.info[s.next].Used == s.mi.info[s.next].Used - 63
  {
    PurgeEmpties(s);
    hide Durable, RelocOk, CacheOk, Outgoing, PurgeCache;
  }

  lemma FullStep(s: Ctx, j: Job)
    requires CacheOk(s.cache, s.cfg.SizeOfMap) && s.purge < LAST_PURGE_POS && s.cache.pos >= LAST_CACHE_POS
    requires JobFits(s.cfg, j) && j.done < |j.data| && FindCached(s.cache, NextLba(j), 0) == NOT_MAPPED
    ensures Transfer(s, j) == (PurgeCache(s), j)
  {
    hide CacheOk, FindCached, PurgeCache;
  }

  // A pass that finds the slot full.
  lemma FullPass(s: Ctx, j: Job, n: nat)
    requires Paced(s, n) && s.reloc.done && s.cache.pos >= LAST_CACHE_POS && JobFits(s.cfg, j) && j.done < |j.data|
    requires FindCached(s.cache, NextLba(j), 0) == NOT_MAPPED
    ensures n > 0 && WriteStep(s, j) == (PurgeCache(s), j)
    ensures var t := PurgeCache(s);
            && Paced(t, n - 1) && t.purge == s.purge + 0x200 && t.chunk == s.chunk && t.cfg == s.cfg
  {
    DoneTransfers(s, j);
    hide Inv, CacheOk, FindCached, PurgeCache, Enough, Clean, Transfer, WriteStep;
    CleanLeavesRoom(s);
    FullStep(s, j);
    PurgeKeepsInv(s);
    PurgeAt(s);
    FullTakes(s);
    FullGains(s, PurgeCache(s), n);
  }

  // ---- The client's turn

  lemma ReadyPass(s: Ctx, j: Job)
    requires Inv(s) && Ready(s, j) && JobFits(s.cfg, j) && j.done < |j.data|
    ensures j.done < WriteStep(s, j).1.done
  {
    DoneTransfers(s, j);
    hide Inv, CacheOk, FindCached, WriteStep, Written;
    if FindCached(s.cache, NextLba(j), 0) != NOT_MAPPED {
      HitKeepsInv(s, j);
    } else {
      AppendKeepsInv(s, j);
    }
  }

  // Done, with room in the cache: the data goes in, or first the head of its block.
  lemma OpenPass(s: Ctx, j: Job)
    requires Inv(s) && s.reloc.done && s.cache.pos % 8 == 0 && s.cache.pos < LAST_CACHE_POS
    requires JobFits(s.cfg, j) && j.done < |j.data|
    ensures var (t, r) := WriteStep(s, j);
            j.done < r.done || (r == j && Ready(t, j) && t.purge == s.purge && t.chunk == s.chunk && t.cfg == s.cfg)
  {
    DoneTransfers(s, j);
    hide Inv, CacheOk, FindCached, WriteStep, Written, Ready, Stored;
    if FindCached(s.cache, NextLba(j), 0) != NOT_MAPPED {
      HitKeepsInv(s, j);
    } else if NextLba(j) % 8 == 0 {
      AppendKeepsInv(s, j);
    } else {
      FillHeadReady(s, j);
    }
  }

  // The context that takes the data stands in the same chunk, behind the purges.
  ghost predicate TakesAt(s: Ctx, r: (nat, Ctx), n: nat) {
    r.0 <= n && r.1.reloc.done && r.1.chunk == s.chunk && r.1.purge == s.purge + 0x200 * r.0
  }

  lemma BeforeStep(s: Ctx, j: Job)
    requires Inv(s) && JobFits(s.cfg, j) && j.done < |j.data|
    ensures var (s', j') := WriteStep(s, j);
            && j.done <= j'.done
            && (j.done < j'.done ==> BeforeClient(s, j) == (0, s))
            && (j' == j ==> Inv(s') && JobFits(s'.cfg, j')
                            && BeforeClient(s, j).0 == BeforeClient(s', j).0 + (if s'.purge == s.purge then 0 else 1)
                            && BeforeClient(s, j).1 == BeforeClient(s', j).1)
  {
    hide Inv, Tier, Phase, ScanLeft, Unaligned, WriteStep, Written;
    StepKeepsInv(s, j);
    StepCloser(s, j);
  }

  lemma ReadyTakes(s: Ctx, j: Job, n: nat)
    requires Inv(s) && Ready(s, j) && JobFits(s.cfg, j) && j.done < |j.data|
    ensures TakesAt(s, BeforeClient(s, j), n)
  {
    hide Inv, BeforeClient, WriteStep, FindCached;
    ReadyPass(s, j);
    BeforeStep(s, j);
  }

  lemma OpenTakes(s: Ctx, j: Job, n: nat)
    requires Inv(s) && s.reloc.done && s.cache.pos % 8 == 0 && s.cache.pos < LAST_CACHE_POS
    requires JobFits(s.cfg, j) && j.done < |j.data|
    ensures TakesAt(s, BeforeClient(s, j), n)
  {
    hide Inv, BeforeClient, WriteStep, Ready;
    OpenPass(s, j);
    BeforeStep(s, j);
    StepKeepsInv(s, j);
    var (t, r) := WriteStep(s, j);
    if r == j {
      ReadyTakes(t, j, n);
    }
  }

  // At most n purges come before the client's turn.
  lemma {:induction false} PacedTakes(s: Ctx, j: Job, n: nat)
    requires Paced(s, n) && JobFits(s.cfg, j) && j.done < |j.data|
    ensures TakesAt(s, BeforeClient(s, j), n)
    decreases Tier(s, j), Phase(s), ScanLeft(s), Unaligned(s)
  {
    hide Inv, BeforeClient, WriteStep, Tier, Phase, ScanLeft, Unaligned, Enough, FindCached, PurgeCache;
    StepCloser(s, j);
    BeforeStep(s, j);
    var (t, r) := WriteStep(s, j);
    if !s.reloc.done {
      SlotPass(s, j, n);
      PacedTakes(t, j, n);
    } else if s.cache.pos < LAST_CACHE_POS {
      OpenTakes(s, j, n);
    } else if FindCached(s.cache, NextLba(j), 0) == NOT_MAPPED {
      FullPass(s, j, n);
      PacedTakes(t, j, n - 1);
    } else {
      ReadyTakes(s, j, n);
    }
  }

  lemma CeilingCovers(a: int, gain: int)
    requires 0 <= a && 0 < gain
    ensures (a + gain - 1) / gain * gain >= a && 0 <= (a + gain - 1) / gain
  {
    var q, r := (a + gain - 1) / gain, (a + gain - 1) % gain;
    assert a + gain - 1 == q * gain + r;
  }

  // The number of purges that make up for any delay.
  function Ceiling(s: Ctx): int
    requires 0 < Gain(s)
  {
    (64 * s.reloc.source + Gain(s) - 1) / Gain(s)
  }

  lemma ScheduleLeads(s: Ctx)
    requires Inv(s) && s.reloc.prepared
    ensures 0 <= s.reloc.source && 0 < Gain(s) && 0 <= Lead(s)
  {
    Commute(s.mi.info[s.next].Used, s.reloc.target);
  }

  lemma CeilingIsEnough(s: Ctx)
    requires 0 <= s.reloc.source && 0 < Gain(s) && 0 <= Lead(s)
    ensures 0 <= Ceiling(s) && Enough(s, Ceiling(s))
  {
    hide Gain, Lead;
    CeilingCovers(64 * s.reloc.source, Gain(s));
  }

  lemma Commute(a: int, b: int)
    ensures a * b == b * a
  {
  }

  // At the start of a slot that relocation has, at most this many slots of the chunk go to
  // relocated blocks before one takes client data.
  lemma RelocationPaced(s: Ctx, j: Job)
    requires Inv(s) && s.reloc.prepared && !s.reloc.done && s.cache.pos == 0 && s.purge < LAST_PURGE_POS
    requires JobFits(s.cfg, j) && j.done < |j.data|
    ensures 64 * s.reloc.source < 63 * s.reloc.target
    ensures var gain := 63 * s.reloc.target - 64 * s.reloc.source;
            var (purges, t) := BeforeClient(s, j);
            && 0 <= purges <= (64 * s.reloc.source + gain - 1) / gain
            && t.reloc.done && t.chunk == s.chunk && t.purge == s.purge + 0x200 * purges
  {
    hide Inv, BeforeClient, Lead, Enough;
    ScheduleLeads(s);
    CeilingIsEnough(s);
    PacedTakes(s, j, Ceiling(s));
  }

  lemma PreparedAt(s: Ctx, j: Job)
    requires Inv(s) && !s.reloc.prepared && s.purge < LAST_PURGE_POS && JobFits(s.cfg, j) && j.done < |j.data|
    ensures var t := PrepareRelocate(s);
            && WriteStep(s, j) == (t, j) && Inv(t) && t.reloc.prepared && !t.reloc.done && t.cache.pos == 0
            && t.cfg == s.cfg && t.chunk == s.chunk && t.purge == s.purge
            && t.reloc.source == s.mi.info[s.next].Used && t.reloc.target == (LAST_PURGE_POS - s.purge) / 8
  {
    PhaseFacts(s);
    UnpreparedIsEmpty(s);
    PrepareKeepsInv(s);
    hide Inv;
  }

  // In a chunk that was just entered or found by recovery, by what the next chunk holds and
  // what is left of this one.
  lemma ChunkPaced(s: Ctx, j: Job)
    requires Inv(s) && !s.reloc.prepared && s.purge < LAST_PURGE_POS && JobFits(s.cfg, j) && j.done < |j.data|
    ensures var used, remaining := s.mi.info[s.next].Used, (LAST_PURGE_POS - s.purge) / 8;
            && 64 * used < 63 * remaining
            && var gain := 63 * remaining - 64 * used;
               var (purges, t) := BeforeClient(s, j);
               && 0 <= purges <= (64 * used + gain - 1) / gain
               && t.reloc.done && t.chunk == s.chunk && t.purge == s.purge + 0x200 * purges
  {
    hide Inv, BeforeClient, WriteStep, PrepareRelocate;
    PreparedAt(s, j);
    BeforeStep(s, j);
    RelocationPaced(PrepareRelocate(s), j);
  }
}
