// The request handlers (driver/vscsi.c, driver/vflush.c) as loops over a leveling context.
// A device request that fails for good stops them; what is on the device then can be
// recovered.
module Handlers {
  import opened Geometry
  import opened Model
  import opened Invariant
  import opened LogKeeping
  import opened LogicalDisk
  import opened Writing
  import opened Termination
  import opened Flushing
  import opened Reading
  import opened Context
  import opened Salvage

  // ---- One pass of the write handler

  lemma FillFacts(s: Ctx)
    requires Inv(s)
    ensures MapStored(s) && CacheOk(s.cache, s.cfg.SizeOfMap)
  {
    forall b | 0 <= b < s.cfg.SizeOfMap && s.mi.Map[b] != NOT_MAPPED ensures s.mi.Map[b] + 8 <= |s.disk.data| {
      LocatedIn(s, b);
    }
  }

  lemma LeftSalvages(s: Ctx, d: Disk)
    requires Inv(s) && s.reloc.done && s.purge < LAST_PURGE_POS && TransferLeft(s, d)
    ensures Salvages(s, d)
  {
    hide Inv, Recovers, PurgeTorn;
    if d == s.disk {
      SameSalvages(s);
    } else {
      TornSalvages(s, d);
    }
  }

  lemma RelocateStep(s: Ctx, j: Job)
    requires Inv(s) && JobFits(s.cfg, j) && j.done < |j.data| && s.purge < LAST_PURGE_POS
    requires !(s.reloc.prepared && s.reloc.done)
    ensures s.reloc.prepared ==> s.cache.pos % 8 == 0
    ensures WriteStep(s, j) == (if s.reloc.prepared then RelocatePassed(s) else PrepareRelocate(s), j)
  {
    PhaseFacts(s);
    hide Inv, PrepareRelocate, RelocateCached, RelocateRead;
  }

  // What a pass does behind a full chunk.
  method LeaveFull(ctx: LevelingCtx, ghost j: Job)
    requires ctx.Valid() && ctx.Active && Inv(ctx.Now()) && JobFits(ctx.Conf, j) && j.done < |j.data|
    requires ctx.PurgePos >= LAST_PURGE_POS
    modifies ctx, ctx.Info, ctx.CacheMem
    ensures ctx.Active ==> ctx.Valid() && (ctx.Now(), j) == WriteStep(old(ctx.Now()), j)
    ensures !ctx.Active ==> Recovers(ctx.Conf, ctx.Device, Kept(old(ctx.Now())))
  {
    ghost var s := ctx.Now();
    SameSalvages(s);
    FinalisedSalvages(s);
    hide Fits, Inv, CacheOk, PurgeChunk, SwitchChunk, Recovers, Kept;
    if ctx.FinalizedPos < LAST_PURGE_POS {
      ctx.ExecutePurgeChunk();
    } else {
      ctx.EnterNextChunk();
    }
  }

  // What a pass does before relocation is done.
  method RelocateFirst(ctx: LevelingCtx, ghost j: Job)
    requires ctx.Valid() && ctx.Active && Inv(ctx.Now()) && JobFits(ctx.Conf, j) && j.done < |j.data|
    requires ctx.PurgePos < LAST_PURGE_POS && !(ctx.RelocationPrepared && ctx.RelocationDone)
    modifies ctx, ctx.NextLBA, ctx.CacheLBA, ctx.CacheMem, ctx.RelocateMem
    ensures ctx.Active ==> ctx.Valid() && (ctx.Now(), j) == WriteStep(old(ctx.Now()), j)
    ensures !ctx.Active ==> Recovers(ctx.Conf, ctx.Device, Kept(old(ctx.Now())))
  {
    ghost var s := ctx.Now();
    PhaseFacts(s);
    SameSalvages(s);
    RelocateStep(s, j);
    hide Fits, Inv, CacheOk, PrepareRelocate, RelocatePassed, WriteStep, Recovers, Kept;
    if !ctx.RelocationPrepared {
      ctx.PrepareRelocate();
    } else {
      ctx.RelocatePass();
    }
  }

  // One pass of ExecuteWriteHandler.
  method WritePass(ctx: LevelingCtx, j: Job) returns (r: Job)
    requires ctx.Valid() && ctx.Active && Inv(ctx.Now()) && JobFits(ctx.Conf, j) && j.done < |j.data|
    modifies ctx, ctx.Map, ctx.Info, ctx.ChunkLBA, ctx.NextLBA, ctx.CacheLBA, ctx.CacheMem, ctx.RelocateMem
    ensures ctx.Active ==> ctx.Valid() && (ctx.Now(), r) == WriteStep(old(ctx.Now()), j)
    ensures !ctx.Active ==> Salvages(old(ctx.Now()), ctx.Device)
  {
    ghost var s := ctx.Now();
    FillFacts(s);
    PhaseFacts(s);
    hide Fits, Inv, CacheOk, MapStored, Recovers, Kept, TransferLeft, Transfer;
    hide PurgeChunk, SwitchChunk, PrepareRelocate, RelocateCached, RelocateRead;
    r := j;
    if ctx.PurgePos >= LAST_PURGE_POS {
      LeaveFull(ctx, j);
    } else if !(ctx.RelocationPrepared && ctx.RelocationDone) {
      RelocateFirst(ctx, j);
    } else {
      r := ctx.TransferPass(j);
      if !ctx.Active {
        LeftSalvages(s, ctx.Device);
      }
    }
  }

  // ---- The write handler

  // ExecuteWriteHandler: the request is carried out completely, or the device has failed.
  // In ERROR mode nothing is done.
  method ExecuteWriteHandler(ctx: LevelingCtx, lba: nat, data: seq<Sector>) returns (done: nat)
    requires ctx.Active ==> ctx.Valid() && Inv(ctx.Now()) && JobFits(ctx.Conf, Job(lba, data, 0))
    modifies ctx, ctx.Map, ctx.Info, ctx.ChunkLBA, ctx.NextLBA, ctx.CacheLBA, ctx.CacheMem, ctx.RelocateMem
    ensures old(ctx.Active) || (done == 0 && ctx.Device == old(ctx.Device) && !ctx.Active)
    ensures ctx.Active ==> done == |data| && ctx.Valid() && Inv(ctx.Now())
    ensures ctx.Active ==> Written(old(ctx.Now()), ctx.Now(), lba, data)
    ensures old(ctx.Active) && !ctx.Active ==> LeftBy(old(ctx.Now()), lba, data, ctx.Device)
  {
    done := 0;
    if !ctx.Active {
      return;
    }
    ghost var s0, s: Ctx := ctx.Now(), ctx.Now();
    PassBegins(s0, lba, data);
    hide Fits, Inv, WriteStep, Written, WrittenSoFar, Salvages, LeftBy, Closer;
    while done < |data| && ctx.Active
      invariant done <= |data| && WrittenSoFar(s0, s, Job(lba, data, done)) && Inv(s)
      invariant ctx.Active ==> ctx.Valid() && ctx.Now() == s
      invariant !ctx.Active ==> LeftBy(s0, lba, data, ctx.Device)
      decreases ctx.Active, |data| - done, Tier(s, Job(lba, data, done)), Phase(s), ScanLeft(s), Unaligned(s)
    {
      ghost var j := Job(lba, data, done);
      PassWrites(s0, s, j);
      StepCloser(s, j);
      var r := WritePass(ctx, Job(lba, data, done));
      if !ctx.Active {
        PassFails(s0, s, j, ctx.Device);
      } else {
        s := ctx.Now();
        done := r.done;
      }
    }
    if ctx.Active {
      PassEnds(s0, s, Job(lba, data, done));
    }
  }

  // The range check of ExecuteRW, in 32 bits.
  predicate Admitted(cfg: Config, lba: nat, len: nat) {
    U32(lba + len) <= U32(8 * cfg.SizeOfMap)
  }

  // For the addresses and lengths of a CDB, the check means what it should exactly when the
  // end of the request does not wrap to the front of the disk.
  lemma AdmittedExactly(cfg: Config, lba: nat, len: nat)
    requires cfg.Valid() && lba < 0x1_0000_0000 && len < 0x1_0000
    ensures (Admitted(cfg, lba, len) <==> lba + len <= 8 * cfg.SizeOfMap)
       <==> lba + len < 0x1_0000_0000 || U32(lba + len) > 8 * cfg.SizeOfMap
  {
    assert U32(8 * cfg.SizeOfMap) == 8 * cfg.SizeOfMap;
  }

  lemma WrappedRequestAdmitted(cfg: Config)
    requires cfg.Valid()
    ensures Admitted(cfg, 0xffff_ffff, 2) && 0xffff_ffff + 2 > 8 * cfg.SizeOfMap
  {
    assert U32(0xffff_ffff + 2) == 1;
    assert U32(8 * cfg.SizeOfMap) == 8 * cfg.SizeOfMap;
  }

  // ExecuteRW: a request that does not fit on the logical disk is refused, unless its end
  // wraps. What happens to one that does is not followed further.
  method ExecuteWrite(ctx: LevelingCtx, lba: nat, data: seq<Sector>) returns (accepted: bool, done: nat)
    requires ctx.Active ==> ctx.Valid() && Inv(ctx.Now())
    modifies ctx, ctx.Map, ctx.Info, ctx.ChunkLBA, ctx.NextLBA, ctx.CacheLBA, ctx.CacheMem, ctx.RelocateMem
    ensures accepted <==> Admitted(ctx.Conf, lba, |data|)
    ensures !accepted ==> done == 0 && ctx.Active == old(ctx.Active)
    ensures !accepted && old(ctx.Active) ==> ctx.Valid() && ctx.Now() == old(ctx.Now())
    ensures accepted && lba + |data| <= 8 * ctx.Conf.SizeOfMap && old(ctx.Active) && ctx.Active ==>
              done == |data| && ctx.Valid() && Inv(ctx.Now()) && Written(old(ctx.Now()), ctx.Now(), lba, data)
    ensures lba + |data| <= 8 * ctx.Conf.SizeOfMap && old(ctx.Active) && !ctx.Active ==>
              LeftBy(old(ctx.Now()), lba, data, ctx.Device)
  {
    hide Fits, Inv, Written, LeftBy;
    accepted, done := Admitted(ctx.Conf, lba, |data|), 0;
    if accepted && lba + |data| <= 8 * ctx.Conf.SizeOfMap {
      done := ExecuteWriteHandler(ctx, lba, data);
    }
  }

  // ---- The flush handler

  lemma FlushFacts(s: Ctx, finalize: bool)
    requires Inv(s)
    ensures FlushReady(s) && FlushPassed(s, finalize) == FlushStep(s, finalize)
  {
    FillFacts(s);
    DirtyFacts(s);
    hide Inv, CacheOk, MapStored;
  }

  lemma FlushUnfolds(s: Ctx, finalize: bool)
    requires Inv(s)
    ensures var (s', over) := FlushStep(s, finalize);
            && Inv(s') && FlushRun(s, finalize) == (if over then s' else FlushRun(s', finalize))
            && (!over ==> FlushWork(s', finalize) < FlushWork(s, finalize))
  {
    hide Durable, CacheOk, RelocOk, FlushStep, FlushWork;
    FlushStepKeepsInv(s, finalize);
  }

  // The passes of a flush.
  method FlushLoop(ctx: LevelingCtx)
    requires ctx.Valid() && ctx.Active && Inv(ctx.Now())
    modifies ctx`Active, ctx`Device, ctx`FinalizedPos, ctx`CachePos, ctx`PurgePos, ctx`RelocationDone, ctx`CacheDirty
    modifies ctx.Map, ctx.Info, ctx.ChunkLBA, ctx.CacheLBA, ctx.CacheMem
    ensures ctx.Active ==> ctx.Valid() && ctx.Now() == FlushRun(old(ctx.Now()), ctx.Finalizing)
    ensures !ctx.Active ==> HalfFlushed(old(ctx.Now()), ctx.Device)
  {
    hide Fits, Inv, FlushStep, FlushPassed, FlushReady, FlushLeft, FlushRun, FlushWork;
    hide FlushedSoFar, HalfFlushed;
    ghost var s0, finalize := ctx.Now(), ctx.Finalizing;
    ghost var s: Ctx := s0;
    var over := false;
    FlushedNothing(s0);
    while ctx.Active && !over
      invariant Inv(s) && FlushedSoFar(s0, s)
      invariant ctx.Active ==> ctx.Valid() && ctx.Now() == s
      invariant ctx.Active ==> FlushRun(s0, finalize) == (if over then s else FlushRun(s, finalize))
      invariant !ctx.Active ==> HalfFlushed(s0, ctx.Device)
      decreases ctx.Active, !over, FlushWork(s, finalize)
    {
      FlushUnfolds(s, finalize);
      FlushFacts(s, finalize);
      FlushPassKeeps(s, finalize);
      FlushedJoin(s0, s, FlushStep(s, finalize).0);
      over := ctx.FlushPass();
      if ctx.Active {
        s := ctx.Now();
      } else {
        FlushPassFails(s0, s, ctx.Device);
      }
    }
  }

  // ExecuteFlush, up to the point where the request is passed on, or the device has failed.
  method ExecuteFlush(ctx: LevelingCtx, finalize: bool)
    requires ctx.Valid() && ctx.Active && Inv(ctx.Now()) && !ctx.Flushing
    modifies ctx, ctx.Map, ctx.Info, ctx.ChunkLBA, ctx.CacheLBA, ctx.CacheMem
    ensures ctx.Active ==> ctx.Valid() && !ctx.Flushing && Flushed(old(ctx.Now()), ctx.Now(), finalize)
    ensures ctx.Active ==> Recovers(ctx.Conf, ctx.Device,
                             if old(FlagTellsTruth(ctx.Now())) then Shown(old(ctx.Now())) else Kept(old(ctx.Now())))
    ensures !ctx.Active ==> HalfFlushed(old(ctx.Now()), ctx.Device)
  {
    hide Fits, Inv, FlushRun, HalfFlushed, FlagTellsTruth, Recovers, Shown, Kept, Flushed;
    ghost var s := ctx.Now();
    ctx.SetFlushing(true, finalize);
    FlushLoop(ctx);
    if ctx.Active {
      FlushRecovers(s, finalize);
      ctx.SetFlushing(false, finalize);
    }
  }

  // ---- The read handler

  lemma RoundFacts(s: Ctx, lba: nat, len: nat)
    requires Inv(s) && 0 < len && lba + len <= 8 * s.cfg.SizeOfMap
    ensures var r := ReadRound(s, lba, len);
            RoundOnDevice(s, r) && 0 < |RoundData(s, r)| <= len && Delivers(s, lba, RoundData(s, r))
  {
    hide LogOk, CacheOk;
    RoundDelivers(s, lba, len);
  }

  lemma NothingDelivered(s: Ctx, lba: nat)
    requires lba <= 8 * s.cfg.SizeOfMap
    ensures Delivers(s, lba, [])
  {
  }

  lemma ReadMore(s: Ctx, lba: nat, len: nat, before: seq<Sector>)
    requires Inv(s) && lba + len <= 8 * s.cfg.SizeOfMap && |before| < len && Delivers(s, lba, before)
    ensures var r := ReadRound(s, lba + |before|, len - |before|);
            && RoundOnDevice(s, r) && 0 < |RoundData(s, r)| <= len - |before|
            && Delivers(s, lba, before + RoundData(s, r))
  {
    hide Inv, ReadRound, RoundData;
    RoundFacts(s, lba + |before|, len - |before|);
    DeliversJoin(s, lba, before, RoundData(s, ReadRound(s, lba + |before|, len - |before|)));
  }

  // ExecuteReadHandler: the client's buffer gets what the logical disk holds, or the request
  // fails.
  method ExecuteReadHandler(ctx: LevelingCtx, lba: nat, len: nat, buffer: array<Sector>) returns (ok: bool)
    requires ctx.Valid() && Inv(ctx.Now()) && lba + len <= 8 * ctx.Conf.SizeOfMap && len <= buffer.Length
    requires buffer != ctx.CacheMem && buffer != ctx.RelocateMem
    modifies buffer
    ensures !ctx.Active ==> !ok
    ensures ok ==> Delivers(old(ctx.Now()), lba, buffer[..len])
    ensures forall i | len <= i < buffer.Length :: buffer[i] == old(buffer[i])
  {
    ok := ctx.Active;
    ghost var s := ctx.Now();
    NothingDelivered(s, lba);
    hide Fits, Inv, Delivers;
    var done := 0;
    assert buffer[..0] == [];
    while ok && done < len
      invariant done <= len && ctx.Valid() && ctx.Now() == s
      invariant ok ==> Delivers(s, lba, buffer[..done]) && ctx.Active
      invariant forall i | len <= i < buffer.Length :: buffer[i] == old(buffer[i])
      decreases ok, len - done
    {
      ok, done := ReadOn(ctx, lba, len, buffer, done);
    }
  }

  // One round of it.
  method ReadOn(ctx: LevelingCtx, lba: nat, len: nat, buffer: array<Sector>, done: nat) returns (ok: bool, now: nat)
    requires ctx.Valid() && Inv(ctx.Now()) && lba + len <= 8 * ctx.Conf.SizeOfMap && done < len <= buffer.Length
    requires buffer != ctx.CacheMem && buffer != ctx.RelocateMem && Delivers(ctx.Now(), lba, buffer[..done])
    modifies buffer
    ensures ctx.Valid() && ctx.Now() == old(ctx.Now()) && now <= len
    ensures ok ==> done < now && Delivers(ctx.Now(), lba, buffer[..now])
    ensures forall i | len <= i < buffer.Length :: buffer[i] == old(buffer[i])
  {
    hide Fits, Inv, Delivers, ReadRound, RoundData, RoundOnDevice;
    ReadMore(ctx.Now(), lba, len, buffer[..done]);
    ok, now := ctx.ReadInto(lba + done, len - done, buffer, done);
  }
}
