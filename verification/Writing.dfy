// ExecuteWriteHandler (driver/vscsi.c): one pass through its loop as a step, and the whole
// request as the run of its steps. With successful I/O the run ends, and it replaces
// exactly the requested sectors of the logical disk.
module Writing {
  import opened Geometry
  import opened BlockLog
  import opened Model
  import opened Invariant
  import opened CacheIndex
  import opened LogicalDisk
  import opened Relocation

  // A write request: data goes to lba on; the first done sectors are transferred.
  datatype Job = Job(lba: nat, data: seq<Sector>, done: nat)

  // What ExecuteRW lets through.
  predicate JobFits(cfg: Config, j: Job) {
    j.lba + |j.data| <= 8 * cfg.SizeOfMap && j.done <= |j.data|
  }

  function NextLba(j: Job): nat {
    j.lba + j.done
  }

  // CacheFillReadZero or ExecuteCacheFillRead.
  function Fill(s: Ctx, lba: nat, n: nat): Ctx
    requires lba / 8 < s.cfg.SizeOfMap && lba % 8 + n <= 8 && s.cache.pos + n <= LAST_CACHE_POS
  {
    s.(cache := Push(s.cache, lba, Stored(s, lba, n)))
  }

  lemma TailFits(c: Cache, blocks: nat)
    requires CacheOk(c, blocks) && c.pos % 8 != 0
    ensures var lba := c.lba[c.pos - 1] + 1;
            lba / 8 < blocks && lba % 8 == c.pos % 8 && Appendable(c, blocks, lba, 8 - c.pos % 8)
  {
    var last := c.lba[c.pos - 1];
    assert Placed(c, blocks, c.pos - 1);
    hide CacheOk, CachedBlock;
    LineGoesOn(last, c.pos);
    NoStart(last + 1, c.pos);
  }

  lemma LineGoesOn(last: nat, pos: nat)
    requires pos % 8 != 0 && last % 8 == (pos - 1) % 8
    ensures (last + 1) % 8 == pos % 8 && (last + 1) / 8 == last / 8
  {
  }

  // No block begins in the rest of a line.
  lemma NoStart(lba: nat, pos: nat)
    requires lba % 8 == pos % 8 != 0
    ensures forall t | lba <= t < lba + (8 - pos % 8) :: t % 8 != 0
    ensures (lba + (8 - pos % 8) - 1) / 8 == (lba - 1) / 8 == lba / 8
  {
  }

  // Overwrite what is cached from the next sector on.
  function HitWrite(s: Ctx, j: Job): (r: (Ctx, Job))
    requires j.done < |j.data| && FindCached(s.cache, NextLba(j), 0) != NOT_MAPPED
  {
    var c, pos := s.cache, FindCached(s.cache, NextLba(j), 0);
    var n := HitLen(c, NextLba(j), |j.data| - j.done, pos, 1);
    (s.(cache := c.(mem := Splice(c.mem, pos, j.data[j.done..j.done + n]))), j.(done := j.done + n))
  }

  // Complete the unfinished block at the end of the cache.
  function FillTail(s: Ctx): Ctx
    requires CacheOk(s.cache, s.cfg.SizeOfMap) && s.cache.pos % 8 != 0
  {
    TailFits(s.cache, s.cfg.SizeOfMap);
    Fill(s, s.cache.lba[s.cache.pos - 1] + 1, 8 - s.cache.pos % 8)
  }

  // Bring in the start of the block the write begins in, or all of it if the write also
  // ends there.
  function FillHead(s: Ctx, j: Job): Ctx
    requires s.cache.pos % 8 == 0 && s.cache.pos < LAST_CACHE_POS
    requires j.done < |j.data| && NextLba(j) / 8 < s.cfg.SizeOfMap
  {
    var lba := NextLba(j);
    Fill(s, lba - lba % 8, if lba / 8 == (j.lba + |j.data|) / 8 then 8 else lba % 8)
  }

  // Append new sectors.
  function Append(s: Ctx, j: Job): (r: (Ctx, Job))
    requires j.done < |j.data| && s.cache.pos < LAST_CACHE_POS
  {
    var n := AppendLen(s.cache, NextLba(j), |j.data| - j.done, 1);
    (s.(cache := Push(s.cache, NextLba(j), j.data[j.done..j.done + n]), dirty := true), j.(done := j.done + n))
  }

  // The part of the handler behind relocation.
  function Transfer(s: Ctx, j: Job): (r: (Ctx, Job))
    requires CacheOk(s.cache, s.cfg.SizeOfMap) && s.purge < LAST_PURGE_POS
    requires JobFits(s.cfg, j) && j.done < |j.data|
  {
    var c, lba := s.cache, NextLba(j);
    if FindCached(c, lba, 0) != NOT_MAPPED then HitWrite(s, j)
    else if c.pos >= LAST_CACHE_POS then (PurgeCache(s), j)
    else if c.pos % 8 != 0 && c.lba[c.pos - 1] + 1 != lba then (FillTail(s), j)
    else if c.pos % 8 == 0 && lba % 8 != 0 then (FillHead(s, j), j)
    else Append(s, j)
  }

  function WriteStep(s: Ctx, j: Job): (r: (Ctx, Job))
    requires Inv(s) && JobFits(s.cfg, j) && j.done < |j.data|
  {
    if s.purge >= LAST_PURGE_POS then
      (if s.finalized < LAST_PURGE_POS then PurgeChunk(s) else SwitchChunk(s), j)
    else if !s.reloc.prepared then
      (PrepareRelocate(s), j)
    else if !s.reloc.done then
      var t := RelocateCached(s);
      (if t.reloc.done then t else RelocateRead(t), j)
    else
      Transfer(s, j)
  }

  // ---- Appending to the cache once relocation is done

  lemma PushKeepsSchedule(s: Ctx, s': Ctx, lba: nat, data: seq<Sector>)
    requires CacheOk(s.cache, s.cfg.SizeOfMap) && OnSchedule(s) && s.reloc.done
    requires Appendable(s.cache, s.cfg.SizeOfMap, lba, |data|)
    requires s' == s.(cache := Push(s.cache, lba, data), dirty := s'.dirty)
    requires CacheOk(s'.cache, s.cfg.SizeOfMap)
    ensures OnSchedule(s')
  {
    PushHeads(s.cache, s.cfg.SizeOfMap, lba, data);
    var h, h' := Heads(s.cache), Heads(s'.cache);
    assert h' == h + h'[|h|..];
    HeadsInMap(s'.cache, s.mi.Map);
    DisplacedGrows(s.mi.Map, h, h'[|h|..], s.next);
    var used := s.mi.info[s.next].Used;
    MulMonotone(used - Outgoing(s'), used - Outgoing(s), s.reloc.target);
  }

  lemma MulMonotone(a: int, b: int, k: int)
    requires a <= b && 0 <= k
    ensures a * k <= b * k
  {
  }

  lemma PushKeepsReloc(s: Ctx, s': Ctx, lba: nat, data: seq<Sector>)
    requires CacheOk(s.cache, s.cfg.SizeOfMap) && RelocOk(s) && s.reloc.done
    requires Appendable(s.cache, s.cfg.SizeOfMap, lba, |data|)
    requires s' == s.(cache := Push(s.cache, lba, data), dirty := s'.dirty)
    ensures CacheOk(s'.cache, s.cfg.SizeOfMap) && RelocOk(s')
  {
    PushOk(s.cache, s.cfg.SizeOfMap, lba, data);
    PushKeepsSchedule(s, s', lba, data);
    forall b | 0 <= b < s.cfg.SizeOfMap && InVictim(s', s'.mi.Map[b], s'.reloc.pos) ensures CachedBlock(s'.cache, b) {
      assert InVictim(s, s.mi.Map[b], s.reloc.pos);
      var p :| 0 <= p < s.cache.pos && s.cache.lba[p] / 8 == b;
      assert s'.cache.lba[p] / 8 == b;
    }
  }

  lemma PushKeepsInv(s: Ctx, s': Ctx, lba: nat, data: seq<Sector>)
    requires Inv(s) && s.reloc.done
    requires Appendable(s.cache, s.cfg.SizeOfMap, lba, |data|)
    requires s' == s.(cache := Push(s.cache, lba, data), dirty := s'.dirty)
    ensures Inv(s')
  {
    hide Durable, RelocOk, CacheOk;
    DurableFrame(s, s');
    PushKeepsReloc(s, s', lba, data);
  }

  lemma FillTailKeepsInv(s: Ctx)
    requires Inv(s) && s.reloc.done && s.cache.pos % 8 != 0
    ensures Inv(FillTail(s)) && SameContents(s, FillTail(s))
  {
    hide Durable, RelocOk, CacheOk;
    var lba, n := s.cache.lba[s.cache.pos - 1] + 1, 8 - s.cache.pos % 8;
    TailFits(s.cache, s.cfg.SizeOfMap);
    PushKeepsInv(s, FillTail(s), lba, Stored(s, lba, n));
    PushStoredReads(s, FillTail(s), lba, Stored(s, lba, n));
  }

  lemma HeadIsNew(c: Cache, blocks: nat, lba: nat)
    requires CacheOk(c, blocks) && c.pos % 8 == 0 && FindCached(c, lba, 0) == NOT_MAPPED
    ensures !CachedBlock(c, lba / 8)
  {
    forall p | 0 <= p < c.pos ensures c.lba[p] / 8 != lba / 8 {
      if c.lba[p] / 8 == lba / 8 {
        WholeBlockCached(c, blocks, p, lba);
      }
    }
  }

  lemma HeadFits(c: Cache, blocks: nat, lba: nat, n: nat)
    requires CacheOk(c, blocks) && c.pos % 8 == 0 && c.pos < LAST_CACHE_POS
    requires FindCached(c, lba, 0) == NOT_MAPPED && lba / 8 < blocks && 0 < n <= 8
    ensures Appendable(c, blocks, lba - lba % 8, n)
  {
    HeadIsNew(c, blocks, lba);
    assert (lba - lba % 8) / 8 == lba / 8;
  }

  lemma HeadLine(lba: nat)
    ensures (lba - lba % 8) % 8 == 0 && (lba - lba % 8) / 8 == lba / 8
  {
  }

  lemma FillHeadKeepsInv(s: Ctx, j: Job)
    requires Inv(s) && s.reloc.done && s.cache.pos % 8 == 0 && s.cache.pos < LAST_CACHE_POS
    requires j.done < |j.data| && NextLba(j) / 8 < s.cfg.SizeOfMap && NextLba(j) % 8 != 0
    requires FindCached(s.cache, NextLba(j), 0) == NOT_MAPPED
    ensures Inv(FillHead(s, j)) && SameContents(s, FillHead(s, j))
  {
    hide Durable, RelocOk, CacheOk, FindCached, Appendable, Stored, SameContents;
    var lba := NextLba(j);
    HeadLine(lba);
    var head, n := lba - lba % 8, if lba / 8 == (j.lba + |j.data|) / 8 then 8 else lba % 8;
    HeadFits(s.cache, s.cfg.SizeOfMap, lba, n);
    PushKeepsInv(s, FillHead(s, j), head, Stored(s, head, n));
    PushStoredReads(s, FillHead(s, j), head, Stored(s, head, n));
  }

  lemma AppendFits(c: Cache, blocks: nat, lba: nat, len: nat)
    requires CacheOk(c, blocks) && c.pos < LAST_CACHE_POS && 0 < len && lba + len <= 8 * blocks
    requires FindCached(c, lba, 0) == NOT_MAPPED
    requires if c.pos % 8 == 0 then lba % 8 == 0 else lba == c.lba[c.pos - 1] + 1
    ensures Appendable(c, blocks, lba, AppendLen(c, lba, len, 1))
  {
    hide FindCached, AppendLen, CachedBlock;
    var n := AppendLen(c, lba, len, 1);
    if c.pos % 8 != 0 {
      assert Placed(c, blocks, c.pos - 1);
      LineGoesOn(lba - 1, c.pos);
    }
    hide CacheOk;
    forall t | lba <= t < lba + n && t % 8 == 0 ensures !CachedBlock(c, t / 8) {
      BlockCachedIff(c, blocks, t);
    }
  }

  // An append only ends early where the cache is full, or in front of a block that is cached.
  lemma {:induction false} AppendIsLongest(c: Cache, lba: nat, len: nat, n: nat)
    requires 1 <= n <= len && c.pos + n <= LAST_CACHE_POS
    ensures var r := AppendLen(c, lba, len, n);
            r < len ==> c.pos + r == LAST_CACHE_POS || ((lba + r) % 8 == 0 && FindCached(c, lba + r, 0) != NOT_MAPPED)
    decreases len - n
  {
    hide FindCached;
    if n < len && c.pos + n < LAST_CACHE_POS && !((lba + n) % 8 == 0 && FindCached(c, lba + n, 0) != NOT_MAPPED) {
      AppendIsLongest(c, lba, len, n + 1);
    }
  }

  lemma AppendKeepsInv(s: Ctx, j: Job)
    requires Inv(s) && s.reloc.done && s.cache.pos < LAST_CACHE_POS
    requires JobFits(s.cfg, j) && j.done < |j.data| && FindCached(s.cache, NextLba(j), 0) == NOT_MAPPED
    requires if s.cache.pos % 8 == 0 then NextLba(j) % 8 == 0 else NextLba(j) == s.cache.lba[s.cache.pos - 1] + 1
    ensures var (s', j') := Append(s, j);
            && j' == j.(done := j'.done) && j.done < j'.done <= |j.data|
            && Inv(s') && Written(s, s', NextLba(j), j.data[j.done..j'.done])
  {
    hide Durable, RelocOk, CacheOk, FindCached, Written, Appendable;
    var (s', j') := Append(s, j);
    AppendFits(s.cache, s.cfg.SizeOfMap, NextLba(j), |j.data| - j.done);
    PushKeepsInv(s, s', NextLba(j), j.data[j.done..j'.done]);
    PushReads(s, s', NextLba(j), j.data[j.done..j'.done]);
  }

  lemma HitKeepsInv(s: Ctx, j: Job)
    requires Inv(s) && s.reloc.done && JobFits(s.cfg, j) && j.done < |j.data|
    requires FindCached(s.cache, NextLba(j), 0) != NOT_MAPPED
    ensures var (s', j') := HitWrite(s, j);
            && j' == j.(done := j'.done) && j.done < j'.done <= |j.data|
            && Inv(s') && Written(s, s', NextLba(j), j.data[j.done..j'.done])
  {
    hide Durable, RelocOk, CacheOk;
    var (s', j') := HitWrite(s, j);
    FindCachedFrom(s.cache, s.cfg.SizeOfMap, NextLba(j), 0);
    HitReads(s, s', NextLba(j), FindCached(s.cache, NextLba(j), 0), j.data[j.done..j'.done]);
    DurableFrame(s, s');
    HitKeepsReloc(s, s');
  }

  lemma HitKeepsReloc(s: Ctx, s': Ctx)
    requires CacheOk(s.cache, s.cfg.SizeOfMap) && RelocOk(s) && s.reloc.done
    requires s' == s.(cache := s.cache.(mem := s'.cache.mem)) && CacheOk(s'.cache, s.cfg.SizeOfMap)
    ensures RelocOk(s')
  {
    assert Heads(s'.cache) == Heads(s.cache);
    forall b | 0 <= b < s.cfg.SizeOfMap && InVictim(s', s'.mi.Map[b], s'.reloc.pos) ensures CachedBlock(s'.cache, b) {
      assert InVictim(s, s.mi.Map[b], s.reloc.pos);
      var p :| 0 <= p < s.cache.pos && s.cache.lba[p] / 8 == b;
      assert s'.cache.lba[p] / 8 == b;
    }
  }

  lemma DoneWithin(s: Ctx)
    requires Inv(s) && s.reloc.done
    ensures s.purge < LAST_PURGE_POS && LogOk(s) && CacheOk(s.cache, s.cfg.SizeOfMap)
  {
  }

  lemma TransferKeepsInv(s: Ctx, j: Job)
    requires Inv(s) && s.reloc.done && JobFits(s.cfg, j) && j.done < |j.data|
    ensures s.purge < LAST_PURGE_POS
    ensures var (s', j') := Transfer(s, j);
            && j' == j.(done := j'.done) && j.done <= j'.done <= |j.data| && Inv(s')
            && Written(s, s', NextLba(j), j.data[j.done..j'.done])
  {
    hide Inv, LogOk, CacheOk, FindCached, HitWrite, PurgeCache, FillTail, FillHead, Append, Written, SameContents;
    DoneWithin(s);
    if FindCached(s.cache, NextLba(j), 0) != NOT_MAPPED {
      HitKeepsInv(s, j);
    } else if Appends(s, j) {
      AppendKeepsInv(s, j);
    } else {
      PaddingKeepsInv(s, j);
      assert j.data[j.done..j.done] == [];
      SameIsWritten(s, Transfer(s, j).0, NextLba(j));
    }
  }

  // Whether new sectors can be appended now.
  predicate Appends(s: Ctx, j: Job) {
    && s.cache.pos < LAST_CACHE_POS
    && if s.cache.pos % 8 == 0 then NextLba(j) % 8 == 0 else NextLba(j) == s.cache.lba[s.cache.pos - 1] + 1
  }

  // A purge or a fill comes first.
  lemma PaddingKeepsInv(s: Ctx, j: Job)
    requires Inv(s) && s.reloc.done && JobFits(s.cfg, j) && j.done < |j.data|
    requires FindCached(s.cache, NextLba(j), 0) == NOT_MAPPED && !Appends(s, j)
    ensures s.purge < LAST_PURGE_POS
    ensures var (t, r) := Transfer(s, j);
            r == j && Inv(t) && SameContents(s, t)
  {
    hide Inv, LogOk, CacheOk, FindCached, HitWrite, PurgeCache, FillTail, FillHead, Append, SameContents;
    DoneWithin(s);
    if s.cache.pos >= LAST_CACHE_POS {
      PurgeKeepsInv(s);
      PurgeReads(s);
    } else if s.cache.pos % 8 != 0 {
      FillTailKeepsInv(s);
    } else {
      FillHeadKeepsInv(s, j);
    }
  }

  lemma SameIsWritten(s: Ctx, t: Ctx, lba: nat)
    requires SameContents(s, t)
    ensures Written(s, t, lba, [])
  {
  }

  lemma PhaseFacts(s: Ctx)
    requires Inv(s)
    ensures s.purge >= LAST_PURGE_POS ==> s.purge == LAST_PURGE_POS && s.cache.pos == 0
    ensures !s.reloc.done ==> s.cache.pos % 8 == 0
    ensures s.reloc.done ==> s.reloc.prepared && s.purge < LAST_PURGE_POS
  {
  }

  lemma DoneTransfers(s: Ctx, j: Job)
    requires Inv(s) && s.reloc.done && JobFits(s.cfg, j) && j.done < |j.data|
    ensures s.purge < LAST_PURGE_POS && CacheOk(s.cache, s.cfg.SizeOfMap)
    ensures WriteStep(s, j) == Transfer(s, j)
  {
    PhaseFacts(s);
    assert CacheOk(s.cache, s.cfg.SizeOfMap);
    hide Inv, CacheOk, Transfer;
  }

  lemma RelocateStepKeepsInv(s: Ctx)
    requires Inv(s) && s.reloc.prepared && !s.reloc.done && s.purge < LAST_PURGE_POS && s.cache.pos % 8 == 0
    ensures var t := RelocateCached(s);
            var s' := if t.reloc.done then t else RelocateRead(t);
            Inv(s') && SameContents(s, s')
  {
    hide Durable, RelocOk, CacheOk;
    RelocateKeepsInv(s);
    var t := RelocateCached(s);
    if !t.reloc.done {
      ReadKeepsInv(t);
      SameContentsJoin(s, t, RelocateRead(t));
    }
  }

  // Every pass through the loop keeps the invariant, and changes exactly the sectors it
  // reports as transferred; all the other work leaves the logical disk as it is.
  lemma StepKeepsInv(s: Ctx, j: Job)
    requires Inv(s) && JobFits(s.cfg, j) && j.done < |j.data|
    ensures var (s', j') := WriteStep(s, j);
            && j' == j.(done := j'.done) && j.done <= j'.done <= |j.data| && Inv(s') && s'.cfg == s.cfg
            && Written(s, s', NextLba(j), j.data[j.done..j'.done])
  {
    hide Durable, RelocOk, CacheOk;
    PhaseFacts(s);
    if s.purge >= LAST_PURGE_POS {
      if s.finalized < LAST_PURGE_POS {
        PurgeChunkKeepsInv(s);
      } else {
        SwitchKeepsInv(s);
      }
    } else if !s.reloc.prepared {
      PrepareKeepsInv(s);
    } else if !s.reloc.done {
      RelocateStepKeepsInv(s);
    } else {
      TransferKeepsInv(s, j);
    }
  }
}
