// DoRecovery1 (driver/recovery.c) as it works: the tables of a fresh context are filled from
// the control blocks, chunk by chunk, and then from the purge records of the current chunk.
module Rebuilding {
  import opened Geometry
  import opened BlockLog
  import opened Model
  import opened Invariant
  import opened DeviceKeeping
  import opened LogicalDisk
  import opened Relocation
  import opened Recovery
  import opened Crash
  import opened Context

  // What the scan has come to.
  ghost function ScanNow(ctx: LevelingCtx, maxSCN: nat, newest: ChunkCtl): Scan
    reads ctx, ctx.Map, ctx.Info
  {
    Scan(ctx.MapNow(), maxSCN, ctx.ChunkNo, newest)
  }

  ghost predicate Scanning(ctx: LevelingCtx, maxSCN: nat, newest: ChunkCtl)
    reads ctx, ctx.Map, ctx.Info
  {
    && ctx.Shaped() && DiskFits(ctx.Conf, ctx.Device)
    && ScanFits(ctx.Conf, ScanNow(ctx, maxSCN, newest))
  }

  method SetScnOf(ctx: LevelingCtx, c: nat, scn: nat)
    requires ctx.Info.Length == ctx.Conf.MaxChunks && c < ctx.Info.Length
    modifies ctx.Info
    ensures ctx.Info[..] == SetScn(old(ctx.Info[..]), c, scn)
  {
    ctx.Info[c] := ctx.Info[c].(SCN := scn);
  }

  method RaiseWcnOf(ctx: LevelingCtx, c: nat, wcn: nat)
    requires ctx.Info.Length == ctx.Conf.MaxChunks && c < ctx.Info.Length
    modifies ctx.Info
    ensures ctx.Info[..] == RaiseWcn(old(ctx.Info[..]), c, wcn)
  {
    if ctx.Info[c].WCN < wcn {
      ctx.Info[c] := ctx.Info[c].(WCN := wcn);
    }
  }

  method KeepTable(ctx: LevelingCtx, table: Table)
    requires ctx.ChunkLBA.Length == 0x7fc0
    modifies ctx.ChunkLBA
    ensures ctx.ChunkLBA[..] == table
  {
    forall i | 0 <= i < 0x7fc0 {
      ctx.ChunkLBA[i] := table[i];
    }
  }

  lemma EntriesFit(cfg: Config, ctl: ChunkCtl, c: nat)
    requires Accepted(cfg, ctl)
    ensures var n := ctl.End / 8 - ctl.Start / 8;
            && ctl.Start / 8 <= ctl.End / 8 <= 0x7fc0
            && ChunkOf(Plba(c, ctl.Start)) == c && Plba(c, ctl.Start) + 8 * n <= Plba(c + 1, 0)
  {
    InChunkIff(Plba(c, ctl.Start), c);
  }

  // One chunk of the scan, its control block being in the cache.
  method ScanBlock(ctx: LevelingCtx, c: nat, maxSCN: nat, newest: ChunkCtl) returns (maxSCN': nat, newest': ChunkCtl)
    requires Scanning(ctx, maxSCN, newest) && c < ctx.Conf.MaxChunks && ctx.ChunkLBA[..] == newest.LBA
    requires ctx.CacheMem[0].Control?
    modifies ctx`ChunkNo, ctx.Map, ctx.Info, ctx.ChunkLBA
    ensures Scanning(ctx, maxSCN', newest') && ctx.ChunkLBA[..] == newest'.LBA
    ensures ScanNow(ctx, maxSCN', newest')
         == ScanChunk(ctx.Conf, ctx.CacheMem[0].chunkCtl, c, old(ScanNow(ctx, maxSCN, newest)))
  {
    hide Accepted, InRange, UpdateMap;
    ghost var a := ScanNow(ctx, maxSCN, newest);
    var ctl := ctx.CacheMem[0].chunkCtl;
    ghost var b := ScanChunk(ctx.Conf, ctl, c, a);
    maxSCN', newest' := maxSCN, newest;
    if !ctl.Intact || ctl.Version != LEVELING_VERSION {
      return;
    }
    hide ScanFits;
    RaiseWcnOf(ctx, c, ctl.WCN);
    if !Accepted(ctx.Conf, ctl) {
      return;
    }
    SetScnOf(ctx, c, ctl.SCN);
    EntriesFit(ctx.Conf, ctl, c);
    ctx.UpdateMap(ctl.LBA[ctl.Start / 8..ctl.End / 8], Plba(c, ctl.Start));
    if maxSCN <= ctl.SCN {
      maxSCN', newest' := ctl.SCN, ctl;
      ctx.ChunkNo := c;
      KeepTable(ctx, ctl.LBA);
    }
    assert ScanNow(ctx, maxSCN', newest') == b;
  }

  lemma ScanNext(cfg: Config, ctls: seq<ChunkCtl>, i: nat, a: Scan)
    requires ScanFits(cfg, a) && |ctls| == cfg.MaxChunks && i < cfg.MaxChunks
    ensures ScanChunks(cfg, ctls, Run(i, cfg.MaxChunks - i), a)
         == ScanChunks(cfg, ctls, Run(i + 1, cfg.MaxChunks - (i + 1)), ScanChunk(cfg, ctls[i], i, a))
  {
    var order := Run(i, cfg.MaxChunks - i);
    assert order[0] == i && order[1..] == Run(i + 1, cfg.MaxChunks - (i + 1));
  }

  // The scan of the chunks in ascending order. A control block that cannot be read ends it.
  method ScanControlBlocks(ctx: LevelingCtx) returns (ok: bool, maxSCN: nat, newest: ChunkCtl)
    requires ctx.Conf.Valid() && ctx.Shaped() && DiskFits(ctx.Conf, ctx.Device)
    requires ctx.MapNow() == BlankScan(ctx.Conf).mi && ctx.ChunkLBA[..] == Blank(0x7fc0)
    modifies ctx`ChunkNo, ctx.Map, ctx.Info, ctx.ChunkLBA, ctx.CacheMem
    ensures Scanning(ctx, maxSCN, newest)
    ensures ok ==> ScanNow(ctx, maxSCN, newest) == ScanAll(ctx.Conf, ctx.Device.ctl) && ctx.ChunkLBA[..] == newest.LBA
  {
    hide ScanFits, ScanChunk, ScanChunks;
    ctx.ChunkNo := 1;
    maxSCN, newest := 0, BlankCtl();
    ghost var cfg, ctls := ctx.Conf, ctx.Device.ctl;
    assert ScanNow(ctx, maxSCN, newest) == BlankScan(cfg);
    var c: nat := 0;
    while c < ctx.Conf.MaxChunks
      invariant c <= ctx.Conf.MaxChunks && Scanning(ctx, maxSCN, newest) && ctx.ChunkLBA[..] == newest.LBA
      invariant ScanChunks(cfg, ctls, Run(c, cfg.MaxChunks - c), ScanNow(ctx, maxSCN, newest)) == ScanAll(cfg, ctls)
    {
      ok := *;
      if !ok {
        return;
      }
      ctx.CopyToCache(0, ControlSectors(ctx.Device.ctl[c]));
      ScanNext(cfg, ctls, c, ScanNow(ctx, maxSCN, newest));
      maxSCN, newest := ScanBlock(ctx, c, maxSCN, newest);
      c := c + 1;
    }
    ok := true;
    ScanOver(cfg, ctls, ScanNow(ctx, maxSCN, newest));
  }

  lemma ScanOver(cfg: Config, ctls: seq<ChunkCtl>, a: Scan)
    requires ScanFits(cfg, a) && |ctls| == cfg.MaxChunks
    ensures ScanChunks(cfg, ctls, Run(cfg.MaxChunks, 0), a) == a
  {
  }

  // ---- Where to resume

  ghost function ResumeNow(ctx: LevelingCtx): Resume
    requires ctx.ChunkLBA.Length == 0x7fc0
    reads ctx, ctx.Map, ctx.Info, ctx.ChunkLBA
  {
    Resume(ctx.MapNow(), ctx.ChunkNo, ctx.PurgePos, ctx.FinalizedPos, ctx.ChunkLBA[..])
  }

  ghost predicate Resumable(ctx: LevelingCtx)
    reads ctx, ctx.Map, ctx.Info, ctx.ChunkLBA
  {
    && ctx.Shaped() && DiskFits(ctx.Conf, ctx.Device) && ctx.CachePos == 0
    && ResumeFits(ctx.Conf, ResumeNow(ctx))
  }

  // On to the chunk that a full one leads to.
  method EnterNewest(ctx: LevelingCtx, maxSCN: nat, newest: ChunkCtl)
    requires Scanning(ctx, maxSCN, newest) && ctx.ChunkLBA[..] == newest.LBA
    modifies ctx`ChunkNo, ctx`PurgePos, ctx`FinalizedPos, ctx`CachePos, ctx.Info
    ensures Resumable(ctx)
    ensures ResumeNow(ctx) == Enter(ctx.Conf, old(ScanNow(ctx, maxSCN, newest)))
  {
    ghost var r := Enter(ctx.Conf, ScanNow(ctx, maxSCN, newest));
    ctx.CachePos := 0;
    if newest.End == LAST_PURGE_POS {
      var next := newest.NextChunkNo;
      RaiseWcnOf(ctx, next, newest.NextChunkWCN);
      SetScnOf(ctx, next, ctx.Info[ctx.ChunkNo].SCN + 1);
      Stand(ctx, next, if next == 0 then SIZE_OF_CACHE else 0);
    } else {
      Stand(ctx, ctx.ChunkNo, newest.End);
    }
    assert ResumeNow(ctx) == r;
  }

  method Stand(ctx: LevelingCtx, chunk: nat, pos: nat)
    modifies ctx`ChunkNo, ctx`PurgePos, ctx`FinalizedPos
    ensures ctx.ChunkNo == chunk && ctx.PurgePos == ctx.FinalizedPos == pos
  {
    ctx.ChunkNo, ctx.PurgePos, ctx.FinalizedPos := chunk, pos, pos;
  }

  // ---- The purge records

  // Takes over one purge record.
  method ReplayRecord(ctx: LevelingCtx, rec: PurgeCtl)
    requires Resumable(ctx) && ctx.PurgePos < LAST_PURGE_POS
    modifies ctx`PurgePos, ctx.Map, ctx.Info, ctx.ChunkLBA
    ensures Resumable(ctx)
    ensures ResumeNow(ctx) == Replay(ctx.Conf, rec, old(ResumeNow(ctx)))
  {
    ghost var r := Replay(ctx.Conf, rec, ResumeNow(ctx));
    RecordFits(ctx.ChunkNo, ctx.PurgePos);
    hide ResumeFits, InRange;
    TakeEntries(ctx, rec.LBA);
    ctx.UpdateMap(rec.LBA, Plba(ctx.ChunkNo, ctx.PurgePos));
    ctx.PurgePos := ctx.PurgePos + SIZE_OF_CACHE;
    assert ResumeNow(ctx) == r;
  }

  lemma RecordFits(c: nat, q: nat)
    requires q < LAST_PURGE_POS && q % 0x200 == 0
    ensures q / 8 + 0x40 <= 0x7fc0 && ChunkOf(Plba(c, q)) == c && Plba(c, q) + 0x200 <= Plba(c + 1, 0)
  {
    InChunkIff(Plba(c, q), c);
  }

  // The entries of a record, with what is no block of the map cleaned out.
  method TakeEntries(ctx: LevelingCtx, entries: Entries)
    requires ctx.ChunkLBA.Length == 0x7fc0 && ctx.PurgePos / 8 + 0x40 <= 0x7fc0
    modifies ctx.ChunkLBA
    ensures ctx.ChunkLBA[..] == Splice(old(ctx.ChunkLBA[..]), ctx.PurgePos / 8, Cleaned(ctx.Conf, entries))
  {
    var slot := ctx.PurgePos / 8;
    var i := 0;
    while i < 0x40
      invariant i <= 0x40
      invariant forall k | slot <= k < slot + i :: ctx.ChunkLBA[k] == Cleaned(ctx.Conf, entries)[k - slot]
      invariant forall k | 0 <= k < 0x7fc0 && !(slot <= k < slot + i) :: ctx.ChunkLBA[k] == old(ctx.ChunkLBA[k])
    {
      ctx.ChunkLBA[slot + i] := if entries[i] / 8 >= ctx.Conf.SizeOfMap then NOT_MAPPED else entries[i];
      i := i + 1;
    }
  }

  // The loop over the purge records.
  method ScanRecords(ctx: LevelingCtx) returns (ok: bool)
    requires Resumable(ctx)
    modifies ctx`PurgePos, ctx.Map, ctx.Info, ctx.ChunkLBA, ctx.CacheMem
    ensures Resumable(ctx)
    ensures ok ==> ResumeNow(ctx) == ScanPurges(ctx.Conf, ctx.Device, old(ResumeNow(ctx)))
  {
    ghost var cfg, d, r := ctx.Conf, ctx.Device, ResumeNow(ctx);
    ok := true;
    hide Replay, ScanPurges;
    while ctx.PurgePos < LAST_PURGE_POS
      invariant Resumable(ctx)
      invariant ScanPurges(cfg, d, ResumeNow(ctx)) == ScanPurges(cfg, d, r)
      decreases LAST_PURGE_POS - ctx.PurgePos
    {
      RecordStep(cfg, d, ResumeNow(ctx));
      ok := *;
      if !ok {
        return;
      }
      ctx.CopyToCache(0, [ctx.Device.data[ControlAt(ctx.ChunkNo, ctx.PurgePos)]]);
      var sector := ctx.CacheMem[0];
      if !Ours(ctx.Conf, sector) || sector.purgeCtl.SCN != ctx.Info[ctx.ChunkNo].SCN
         || sector.purgeCtl.ChunkNo != ctx.ChunkNo || sector.purgeCtl.PurgePos != ctx.PurgePos
      {
        return;
      }
      ReplayRecord(ctx, sector.purgeCtl);
    }
    RecordsOver(cfg, d, ResumeNow(ctx));
  }

  // One pass of the loop over the purge records.
  lemma RecordStep(cfg: Config, d: Disk, r: Resume)
    requires DiskFits(cfg, d) && ResumeFits(cfg, r) && r.purge < LAST_PURGE_POS
    ensures 0 <= ControlAt(r.chunk, r.purge) < |d.data|
    ensures var sector := d.data[ControlAt(r.chunk, r.purge)];
            && (Matches(cfg, sector, r) ==>
                  && Replay(cfg, sector.purgeCtl, r).purge == r.purge + 0x200
                  && ScanPurges(cfg, d, r) == ScanPurges(cfg, d, Replay(cfg, sector.purgeCtl, r)))
            && (!Matches(cfg, sector, r) ==> ScanPurges(cfg, d, r) == r)
  {
    ControlApart(cfg.MaxChunks, r.chunk, r.purge, r.chunk, r.purge);
  }

  lemma RecordsOver(cfg: Config, d: Disk, r: Resume)
    requires DiskFits(cfg, d) && ResumeFits(cfg, r) && r.purge >= LAST_PURGE_POS
    ensures ScanPurges(cfg, d, r) == r
  {
  }

  // ---- Recovery

  // What is left in the buffers does not matter.
  ghost function Settled(s: Ctx, t: State): State {
    s.(cache := t.cache, reloc := t.reloc)
  }

  // Chooses the next chunk, and goes to ACTIVE mode.
  method TakeUp(ctx: LevelingCtx)
    requires Resumable(ctx) && !ctx.CacheDirty
    modifies ctx`Active, ctx`NextChunkNo, ctx`RelocationDone, ctx`RelocationPrepared
    ensures ctx.Active && ctx.Valid() && ctx.CachePos == 0 && !ctx.RelocationPrepared && !ctx.RelocationDone
    ensures ctx.Now() == Settled(Resumed(ctx.Conf, ctx.Device, old(ResumeNow(ctx))), ctx.Now())
  {
    ResumeIs(ctx.Conf, ResumeNow(ctx));
    ctx.FindNextChunk();
    ctx.Active := true;
  }

  method DoRecovery(ctx: LevelingCtx)
    requires ctx.Conf.Valid() && ctx.Shaped() && DiskFits(ctx.Conf, ctx.Device) && !ctx.Active
    requires ctx.MapNow() == BlankScan(ctx.Conf).mi && ctx.ChunkLBA[..] == Blank(0x7fc0)
    requires !ctx.CacheDirty
    modifies ctx, ctx.Map, ctx.Info, ctx.ChunkLBA, ctx.CacheMem
    ensures ctx.Device == old(ctx.Device)
    ensures ctx.Active ==> ctx.Valid() && ctx.Now() == Settled(Recover(ctx.Conf, ctx.Device), ctx.Now())
    ensures ctx.Active ==> ctx.CachePos == 0 && !ctx.RelocationPrepared && !ctx.RelocationDone
  {
    hide ScanFits, ResumeFits, Enter, ScanPurges, ScanAll, InRange, Resumed, Settled;
    var ok, maxSCN, newest := ScanControlBlocks(ctx);
    if !ok {
      return;
    }
    EnterNewest(ctx, maxSCN, newest);
    ok := ScanRecords(ctx);
    if !ok {
      return;
    }
    TakeUp(ctx);
  }

  lemma ResumeIs(cfg: Config, r: Resume)
    requires ResumeFits(cfg, r)
    ensures cfg.Valid() && |r.mi.Map| == cfg.SizeOfMap && |r.mi.info| == cfg.MaxChunks
    ensures InRange(r.mi.Map, cfg.MaxChunks) && r.chunk < cfg.MaxChunks
    ensures r.purge % 0x200 == 0 && r.finalized % 0x200 == 0 && r.finalized <= r.purge <= LAST_PURGE_POS
  {
  }

  lemma SettledRuns(s: Ctx, t: State)
    requires Inv(s) && s.cache.pos == 0 && !s.reloc.prepared && !s.reloc.done && !s.dirty
    requires t.cache.pos == 0 && !t.reloc.prepared && !t.reloc.done
    ensures Inv(Settled(s, t))
    ensures forall x: nat | x / 8 < s.cfg.SizeOfMap :: ReadSector(Settled(s, t), x) == ReadSector(s, x)
  {
    hide LogOk, Recorded, Finalised, Entered;
    DurableFrame(s, Settled(s, t));
    IdleIsInv(Settled(s, t));
    EmptyCacheReads(s, Settled(s, t));
  }

  lemma RecoverIdles(w: Ctx)
    requires Durable(w)
    ensures var s := Recover(w.cfg, w.disk);
            && Inv(s) && s.cfg == w.cfg && s.mi.Map == w.mi.Map
            && s.cache.pos == 0 && !s.reloc.prepared && !s.reloc.done && !s.dirty
            && forall x: nat | x / 8 < w.cfg.SizeOfMap :: ReadSector(s, x) == StoredAt(w, x)
  {
    RecoveryRebuilds(w);
  }

  // s takes over where w was, with nothing cached.
  ghost predicate TakesOver(s: Ctx, w: Ctx) {
    && Inv(s) && s.cfg == w.cfg && s.mi.Map == w.mi.Map
    && forall x: nat | x / 8 < w.cfg.SizeOfMap :: ReadSector(s, x) == StoredAt(w, x)
  }

  lemma RestartTakesOver(w: Ctx, t: State)
    requires Durable(w) && t.cache.pos == 0 && !t.reloc.prepared && !t.reloc.done
    ensures TakesOver(Settled(Recover(w.cfg, w.disk), t), w)
  {
    hide Durable, Inv, Recover, ReadSector, StoredAt;
    RecoverIdles(w);
    SettledRuns(Recover(w.cfg, w.disk), t);
  }

  // A restart on the device of a context w: unless a read fails, the new context has the
  // invariant and the map of w, and reads what w had stored.
  method Restart(ghost w: Ctx, cfg: Config, device: Disk) returns (ctx: LevelingCtx)
    requires Durable(w) && cfg == w.cfg && device == w.disk
    ensures ctx.Device == device
    ensures ctx.Active ==> ctx.Valid() && TakesOver(ctx.Now(), w)
  {
    hide Durable, TakesOver, Recover, Settled;
    ctx := new LevelingCtx(cfg, device);
    DoRecovery(ctx);
    if ctx.Active {
      RestartTakesOver(w, ctx.Now());
    }
  }
}
