// The wear counters (driver/recovery.c, driver/vscsi.c): each chunk's counter goes up by one
// with every control block written to it, and a restart finds the counters as they were.
module Wear {
  import opened Geometry
  import opened BlockLog
  import opened Model
  import opened Invariant
  import opened DeviceKeeping
  import opened Writing
  import opened Flushing
  import opened Recovery
  import opened Crash
  import opened TornPurge
  import opened TornControl
  import opened Runs
  import opened Format

  // ---- The wear that recovery finds

  // A control block of this driver's version, whichever format it belongs to.
  function WearOf(ctl: ChunkCtl): nat {
    if ctl.Intact && ctl.Version == 1000 then ctl.WCN else 0
  }

  function Higher(a: nat, b: nat): nat {
    if a < b then b else a
  }

  lemma {:induction false} ScanPurgesWear(cfg: Config, d: Disk, r: Resume, c: nat)
    requires DiskFits(cfg, d) && ResumeFits(cfg, r) && c < cfg.MaxChunks
    ensures ScanPurges(cfg, d, r).mi.info[c].WCN == r.mi.info[c].WCN
    decreases LAST_PURGE_POS - r.purge
  {
    if r.purge < LAST_PURGE_POS {
      ControlApart(cfg.MaxChunks, r.chunk, r.purge, r.chunk, r.purge);
      var sector := d.data[ControlAt(r.chunk, r.purge)];
      if Matches(cfg, sector, r) {
        assert sector.Record?;
        ScanPurgesWear(cfg, d, Replay(cfg, sector.purgeCtl, r), c);
      }
    }
  }

  // The control block with the greatest SCN.
  ghost predicate Newest(cfg: Config, ctls: seq<ChunkCtl>, n: nat)
    requires n < |ctls|
  {
    && Accepted(cfg, ctls[n])
    && forall c | 0 <= c < |ctls| && c != n && Accepted(cfg, ctls[c]) :: ctls[c].SCN < ctls[n].SCN
  }

  // What a full chunk's control block says about the wear of the chunk it leads to.
  function Announced(ctl: ChunkCtl, c: nat): nat {
    if ctl.End == LAST_PURGE_POS && ctl.NextChunkNo == c then ctl.NextChunkWCN else 0
  }

  // Each chunk is as worn as its own control block says, or as the newest one does.
  lemma RecoveredWear(cfg: Config, d: Disk, n: nat)
    requires cfg.Valid() && DiskFits(cfg, d) && DistinctCtls(cfg, d.ctl) && n < cfg.MaxChunks && Newest(cfg, d.ctl, n)
    ensures forall c | 0 <= c < cfg.MaxChunks ::
              Recover(cfg, d).mi.info[c].WCN == Higher(WearOf(d.ctl[c]), Announced(d.ctl[n], c))
  {
    hide ScanAll, ScanPurges, Accepted, IsLatest, UsedCounts, DistinctCtls, Enter, Views, Chosen;
    ScanAllScanned(cfg, d.ctl);
    var a := ScanAll(cfg, d.ctl);
    NewestIsChosen(cfg, d.ctl, a, n);
    forall c | 0 <= c < cfg.MaxChunks
      ensures Recover(cfg, d).mi.info[c].WCN == Higher(WearOf(d.ctl[c]), Announced(d.ctl[n], c))
    {
      assert ScannedInfo(cfg, d.ctl[c], c in AllChunks(cfg.MaxChunks), a.mi.info[c]);
      EnterWear(cfg, a, c);
      ScanPurgesWear(cfg, d, Enter(cfg, a), c);
    }
  }

  lemma EnterWear(cfg: Config, a: Scan, c: nat)
    requires ScanFits(cfg, a) && c < cfg.MaxChunks
    ensures Enter(cfg, a).mi.info[c].WCN == Higher(a.mi.info[c].WCN, Announced(a.ctl, c))
  {
  }

  // ---- What a restart would find

  // The current chunk was finalised since it was entered.
  predicate Stamped(s: Ctx) {
    Accepted(s.cfg, s.disk.ctl[s.chunk]) && s.disk.ctl[s.chunk].SCN == SCNow(s)
  }

  ghost predicate OthersWorn(s: Ctx) {
    forall c | 0 <= c < s.cfg.MaxChunks && c != s.chunk :: s.mi.info[c].WCN == WearOf(s.disk.ctl[c])
  }

  ghost predicate WearOk(s: Ctx) {
    var ctl := s.disk.ctl[s.chunk];
    && OthersWorn(s)
    && (Stamped(s) ==> s.mi.info[s.chunk].WCN == WearOf(ctl))
    && (Stamped(s) && ctl.End == LAST_PURGE_POS ==> ctl.NextChunkWCN <= s.mi.info[s.next].WCN)
    && (!Stamped(s) ==> forall p | LeadsTo(s, p) ::
          s.mi.info[s.chunk].WCN == Higher(WearOf(ctl), s.disk.ctl[p].NextChunkWCN))
  }

  ghost predicate SameWear(s: Ctx, t: Ctx) {
    t.cfg == s.cfg && forall c | 0 <= c < s.cfg.MaxChunks :: t.mi.info[c].WCN == s.mi.info[c].WCN
  }

  // A step that leaves the chunk, its successor and the control blocks alone.
  ghost predicate SameStand(s: Ctx, t: Ctx) {
    && SameWear(s, t) && t.chunk == s.chunk && t.next == s.next && t.disk.ctl == s.disk.ctl && SCNow(t) == SCNow(s)
  }

  lemma StandKeeps(s: Ctx, t: Ctx)
    requires WearOk(s) && SameStand(s, t)
    ensures WearOk(t)
  {
    hide Accepted;
    assert forall p :: LeadsTo(t, p) <==> LeadsTo(s, p);
  }

  // A control block is one more write to the chunk's control area.
  lemma PurgeChunkWear(s: Ctx)
    requires WearOk(s) && Finalised(PurgeChunk(s))
    ensures WearOk(PurgeChunk(s))
    ensures forall c | 0 <= c < s.cfg.MaxChunks ::
              PurgeChunk(s).mi.info[c].WCN == s.mi.info[c].WCN + if c == s.chunk then 1 else 0
  {
    hide Accepted;
  }

  lemma SwitchWear(s: Ctx)
    requires WearOk(s) && Sequenced(s) && Finalised(s) && s.finalized == LAST_PURGE_POS
    ensures WearOk(SwitchChunk(s)) && SameWear(s, SwitchChunk(s))
  {
    hide FindNextChunk;
    var t := SwitchChunk(s);
    assert forall p | LeadsTo(t, p) :: p == s.chunk;
    hide Accepted;
  }

  // ---- Restarts

  lemma DurableParts(w: Ctx)
    requires Durable(w)
    ensures LogOk(w) && Sequenced(w) && DistinctCtls(w.cfg, w.disk.ctl) && (Finalised(w) || Entered(w))
  {
  }

  lemma FinalisedStamps(w: Ctx)
    requires Finalised(w)
    ensures Stamped(w) && w.disk.ctl[w.chunk].End == w.finalized
  {
    hide Accepted;
  }

  lemma FinalisedWear(w: Ctx)
    requires Durable(w) && Finalised(w) && w.finalized < LAST_PURGE_POS && WearOk(w)
    ensures var r := Recover(w.cfg, w.disk); SameWear(w, r) && WearOk(r)
  {
    hide Durable, LogOk, Sequenced, Accepted, Recover, DistinctCtls, Finalised, Inv, ReadSector, StoredAt;
    DurableParts(w);
    FinalisedIsNewest(w);
    FinalisedStamps(w);
    RecoveryRebuilds(w);
    RecoveredWear(w.cfg, w.disk, w.chunk);
  }

  // A chunk entered from a full one is as worn as that one said, or as it says itself.
  lemma EnteredWear(w: Ctx, p: nat)
    requires Durable(w) && Entered(w) && LeadsTo(w, p) && OthersWorn(w) && w.finalized < LAST_PURGE_POS
    ensures var r := Recover(w.cfg, w.disk);
            && r.cfg == w.cfg && WearOk(r)
            && forall c | 0 <= c < w.cfg.MaxChunks ::
                 r.mi.info[c].WCN == if c == w.chunk then Higher(WearOf(w.disk.ctl[c]), w.disk.ctl[p].NextChunkWCN)
                                     else w.mi.info[c].WCN
  {
    hide Durable, LogOk, Sequenced, Recover, DistinctCtls, Entered, Inv, Accepted, ReadSector, StoredAt;
    DurableParts(w);
    PredecessorIsNewest(w, p);
    EnteredStamp(w, p);
    RecoveryRebuilds(w);
    RecoveredWear(w.cfg, w.disk, p);
    var r := Recover(w.cfg, w.disk);
    assert forall q :: LeadsTo(r, q) <==> LeadsTo(w, q);
  }

  lemma EnteredStamp(w: Ctx, p: nat)
    requires Sequenced(w) && Entered(w) && LeadsTo(w, p)
    ensures !Stamped(w) && forall q | LeadsTo(w, q) :: q == p
  {
    hide Accepted;
  }

  // A restart finds every chunk as worn as it was.
  lemma RecoverWear(w: Ctx)
    requires Durable(w) && WearOk(w)
    ensures var r := Recover(w.cfg, w.disk); SameWear(w, r) && WearOk(r)
  {
    hide Durable, Sequenced, LogOk, Recover, Stamped, WearOf, Accepted, Finalised, Entered;
    DurableParts(w);
    if w.finalized == LAST_PURGE_POS {
      FullFinalised(w);
      SwitchKeepsDurable(w);
      SwitchWear(w);
      PartlyWear(SwitchChunk(w));
    } else {
      PartlyWear(w);
    }
  }

  lemma PartlyWear(w: Ctx)
    requires Durable(w) && WearOk(w) && w.finalized < LAST_PURGE_POS
    ensures var r := Recover(w.cfg, w.disk); SameWear(w, r) && WearOk(r)
  {
    hide Durable, Sequenced, LogOk, Recover, WearOf, Accepted, Finalised;
    DurableParts(w);
    if Finalised(w) {
      FinalisedWear(w);
    } else {
      var p :| LeadsTo(w, p);
      EnteredStamp(w, p);
      EnteredWear(w, p);
    }
  }

  // ---- Whole runs

  lemma PurgeCacheStands(s: Ctx)
    requires s.purge < LAST_PURGE_POS
    ensures SameStand(s, PurgeCache(s))
  {
    hide PurgeImage;
  }

  lemma FinalisesChunk(s: Ctx)
    requires Inv(s)
    ensures Finalised(PurgeChunk(s))
  {
    PurgeChunkKeepsDevice(s);
  }

  // Each chunk's counter, after one of the chunks got a control block or none did.
  ghost predicate WornBy(s: Ctx, t: Ctx, finalised: bool) {
    && t.cfg == s.cfg
    && forall c | 0 <= c < s.cfg.MaxChunks ::
         t.mi.info[c].WCN == s.mi.info[c].WCN + if finalised && c == s.chunk then 1 else 0
  }

  lemma StandWears(s: Ctx, t: Ctx)
    requires WearOk(s) && SameStand(s, t)
    ensures WearOk(t) && WornBy(s, t, false)
  {
    StandKeeps(s, t);
    hide Stamped, WearOf;
  }

  lemma ChunkWears(s: Ctx)
    requires Inv(s) && WearOk(s)
    ensures WearOk(PurgeChunk(s)) && WornBy(s, PurgeChunk(s), true)
  {
    hide Inv, Finalised, WearOk;
    FinalisesChunk(s);
    PurgeChunkWear(s);
  }

  lemma LeaveWears(s: Ctx)
    requires Inv(s) && WearOk(s) && s.finalized == LAST_PURGE_POS
    ensures WearOk(SwitchChunk(s)) && WornBy(s, SwitchChunk(s), false)
  {
    InvIsDurable(s);
    hide Inv, Durable, Finalised, WearOk, LogOk, Sequenced;
    DurableParts(s);
    FullFinalised(s);
    SwitchWear(s);
  }

  lemma TransferStands(s: Ctx, j: Job)
    requires CacheOk(s.cache, s.cfg.SizeOfMap) && s.purge < LAST_PURGE_POS
    requires JobFits(s.cfg, j) && j.done < |j.data|
    ensures SameStand(s, Transfer(s, j).0)
  {
    hide CacheOk, FindCached, PurgeCache, HitLen, AppendLen, Stored, Push;
    PurgeCacheStands(s);
  }

  lemma RelocateStands(s: Ctx)
    requires s.cache.pos % 8 == 0
    ensures SameStand(s, RelocateCached(s)) && SameStand(s, RelocateRead(RelocateCached(s)))
  {
    hide RelocateCached;
  }

  lemma PrepareStands(s: Ctx)
    ensures SameStand(s, PrepareRelocate(s))
  {
  }

  lemma WriteWears(s: Ctx, j: Job)
    requires Inv(s) && JobFits(s.cfg, j) && j.done < |j.data| && WearOk(s)
    ensures var t := WriteStep(s, j).0;
            WearOk(t) && WornBy(s, t, s.purge >= LAST_PURGE_POS && s.finalized < LAST_PURGE_POS)
  {
    PhaseFacts(s);
    InvCache(s);
    hide Inv, CacheOk, PurgeCache, PurgeChunk, SwitchChunk, PrepareRelocate, Transfer, RelocateCached, RelocateRead;
    hide WearOk, WornBy, SameStand;
    if s.purge >= LAST_PURGE_POS {
      if s.finalized < LAST_PURGE_POS {
        ChunkWears(s);
      } else {
        FinalisedAt(s);
        LeaveWears(s);
      }
    } else if !s.reloc.prepared {
      PrepareStands(s);
      StandWears(s, PrepareRelocate(s));
    } else if !s.reloc.done {
      RelocateStands(s);
      StandWears(s, WriteStep(s, j).0);
    } else {
      TransferStands(s, j);
      StandWears(s, Transfer(s, j).0);
    }
  }

  lemma FlushWears(s: Ctx, finalize: bool)
    requires Inv(s) && WearOk(s)
    ensures var t := FlushStep(s, finalize).0;
            WearOk(t) && WornBy(s, t, s.cache.pos % 8 == 0 && !s.dirty && finalize && s.finalized < s.purge)
  {
    DirtyFactsOf(s);
    InvCache(s);
    hide Inv, CacheOk, PurgeCache, PurgeChunk, WearOk, WornBy, SameStand, FillTail;
    if s.cache.pos % 8 != 0 {
      FillTailStands(s);
      StandWears(s, FillTail(s));
    } else if s.dirty {
      PurgeCacheStands(s);
      StandWears(s, PurgeCache(s));
    } else if finalize && s.finalized < s.purge {
      ChunkWears(s);
    } else {
      SelfStands(s);
      StandWears(s, s);
    }
  }

  lemma SelfStands(s: Ctx)
    ensures SameStand(s, s)
  {
  }

  lemma FillTailStands(s: Ctx)
    requires CacheOk(s.cache, s.cfg.SizeOfMap) && s.cache.pos % 8 != 0
    ensures SameStand(s, FillTail(s))
  {
    hide CacheOk;
  }

  lemma DirtyFactsOf(s: Ctx)
    requires Inv(s)
    ensures s.dirty ==> s.purge < LAST_PURGE_POS
  {
  }

  lemma RestartWears(s: Ctx, w: Ctx)
    requires WearOk(s) && SameStand(s, w) && Durable(w)
    ensures var r := Recover(w.cfg, w.disk); WearOk(r) && WornBy(s, r, false)
  {
    hide Durable, Recover, Stamped, WearOf, LeadsTo;
    StandKeeps(s, w);
    RecoverWear(w);
  }

  lemma TornWears(s: Ctx, k: nat)
    requires Inv(s) && s.reloc.done && s.purge < LAST_PURGE_POS && s.cache.pos % 8 == 0 && k <= 0x200 && WearOk(s)
    ensures var r := Recover(s.cfg, Torn(s, k).disk); WearOk(r) && WornBy(s, r, false)
  {
    InvIsDurable(s);
    hide Inv, Durable, WearOk, WornBy, Recover, StoredAt, ReadSector, PurgeCache, Torn, SameStand;
    if k <= 0x1f8 {
      TornEarly(s, k);
      TornStands(s, k);
      RestartWears(s, Torn(s, k));
    } else {
      TornLate(s, k);
      TornStands(s, k);
      RestartWears(s, Landed(s, k));
    }
  }

  lemma TornStands(s: Ctx, k: nat)
    requires s.purge < LAST_PURGE_POS && k <= 0x200
    ensures SameStand(s, Torn(s, k)) && Torn(s, k).cfg == s.cfg
    ensures SameStand(s, Landed(s, k)) && Landed(s, k).cfg == s.cfg && Landed(s, k).disk == Torn(s, k).disk
  {
    PurgeCacheStands(s);
    hide PurgeCache, PurgeImage;
  }

  // With its control block broken, the chunk is as worn as the full chunk it was entered from
  // says; the others are as worn as before.
  lemma BrokenWears(s: Ctx, left: ChunkCtl, p: nat)
    requires Durable(s) && Traced(s) && LeadsTo(s, p) && !Accepted(s.cfg, left) && WearOk(s)
    ensures var r := Recover(s.cfg, LeftOn(s, left));
            && WearOk(r) && r.cfg == s.cfg
            && forall c | 0 <= c < s.cfg.MaxChunks ::
                 r.mi.info[c].WCN == if c == s.chunk then Higher(WearOf(left), s.disk.ctl[p].NextChunkWCN)
                                     else s.mi.info[c].WCN
  {
    hide Durable, Traced, Accepted, Recover, WearOf, Stamped, Entered, Recorded;
    assert Followed(s);
    BrokenParts(s, left);
    BrokenDurable(s, left);
    var t := Rewound(s).(disk := LeftOn(s, left));
    assert LeadsTo(t, p);
    BrokenEntered(t);
    EnteredWear(t, p);
  }

  // One event of a run: a control block that was written counts, a restart changes nothing.
  lemma EventWears(m: Machine, e: Event)
    requires RunOk(m) && WearOk(m.ctx)
    ensures WearOk(Next(m, e).ctx) && Next(m, e).ctx.cfg == m.ctx.cfg
    ensures !e.CrashFinalising? ==> WornBy(m.ctx, Next(m, e).ctx, e.Pass? && Finalising(m))
    ensures forall c | 0 <= c < m.ctx.cfg.MaxChunks && c != m.ctx.chunk ::
              Next(m, e).ctx.mi.info[c].WCN == m.ctx.mi.info[c].WCN
  {
    hide Inv, WearOk, Recover, Purging, Traced, Followed, Accepted, WriteStep, FlushStep;
    InvIsDurable(m.ctx);
    hide Durable;
    SelfStands(m.ctx);
    StandWears(m.ctx, m.ctx);
    match e
    case BeginWrite(_, _) =>
    case BeginFlush(_) =>
    case Pass =>
      match m.activity {
        case Idle =>
        case Write(j) =>
          if j.done < |j.data| {
            WriteWears(m.ctx, j);
          }
        case Flush(finalize) =>
          FlushWears(m.ctx, finalize);
      }
    case CrashBetween =>
      RestartWears(m.ctx, m.ctx);
    case CrashPurging(k) =>
      if Purging(m) && k <= 0x200 {
        PurgingCanPurge(m);
        TornWears(m.ctx, k);
      }
    case CrashFinalising(left) =>
      if Finalising(m) && Followed(m.ctx) && !Accepted(m.ctx.cfg, left) {
        var p := Predecessor(m.ctx);
        BrokenWears(m.ctx, left, p);
      }
  }

  lemma Predecessor(s: Ctx) returns (p: nat)
    requires Followed(s)
    ensures LeadsTo(s, p)
  {
    p :| p < s.cfg.MaxChunks && LeadsTo(s, p);
  }

  // How many control blocks a run writes to chunk c.
  function Stamps(m: Machine, c: Contents, events: seq<Event>, chunk: nat): nat
    requires RunOk(m) && Represents(m.ctx, c)
    decreases |events|
  {
    if events == [] then 0
    else
      EventRefines(m, events[0], c);
      (if events[0].Pass? && Finalising(m) && m.ctx.chunk == chunk then 1 else 0)
      + Stamps(Next(m, events[0]), NextContents(m, events[0], c), events[1..], chunk)
  }

  // Over every run without a broken control block, each chunk's counter counts exactly the
  // control blocks written to it, whatever crashes come between.
  lemma {:induction false} RunWears(m: Machine, c: Contents, events: seq<Event>, chunk: nat)
    requires RunOk(m) && Represents(m.ctx, c) && WearOk(m.ctx) && chunk < m.ctx.cfg.MaxChunks
    requires forall i | 0 <= i < |events| :: !events[i].CrashFinalising?
    ensures var t := RunOf(m, c, events).0.ctx;
            && WearOk(t) && t.cfg == m.ctx.cfg
            && t.mi.info[chunk].WCN == m.ctx.mi.info[chunk].WCN + Stamps(m, c, events, chunk)
    decreases |events|
  {
    hide MachineOk, Traced, ReadSector, StoredAt, WearOk, Next, NextContents, Finalising;
    if events != [] {
      EventRefines(m, events[0], c);
      EventWears(m, events[0]);
      RunWears(Next(m, events[0]), NextContents(m, events[0], c), events[1..], chunk);
    }
  }

  // ---- From a formatted medium

  // Formatting is a control block for chunk 1; the wear of the others is what the medium says.
  lemma FormatWear(cfg: Config, d: Disk, fixed: bool, image: seq<Sector>, boot: seq<Sector>)
    requires cfg.Valid() && DiskFits(cfg, d) && Fresh(cfg, d) && |image| == 0x200 && |boot| == 65
    requires forall i | 0 <= i < 65 :: !Ours(cfg, boot[i])
    ensures var s := Recover(cfg, FormatDisk(cfg, d, fixed, image, boot));
            && WearOk(s) && s.cfg == cfg
            && forall c | 0 <= c < cfg.MaxChunks ::
                 s.mi.info[c].WCN == if c == 1 then (if d.ctl[1].Intact then d.ctl[1].WCN else 0) + 1
                                     else WearOf(d.ctl[c])
  {
    hide Inv, Recover, FormatDisk, FormatMap, Accepted, Durable, DistinctCtls, Newest, WearOf;
    FormatThenRecover(cfg, d, fixed, image, boot);
    FormatScn(cfg, d, fixed, image, boot);
    var f := FormatDisk(cfg, d, fixed, image, boot);
    FormattedNewest(cfg, d, fixed, image, boot);
    RecoveredWear(cfg, f, 1);
  }

  lemma FormatScn(cfg: Config, d: Disk, fixed: bool, image: seq<Sector>, boot: seq<Sector>)
    requires cfg.Valid() && DiskFits(cfg, d) && Fresh(cfg, d) && |image| == 0x200 && |boot| == 65
    requires forall i | 0 <= i < 65 :: !Ours(cfg, boot[i])
    ensures SCNow(Recover(cfg, FormatDisk(cfg, d, fixed, image, boot))) == 1
  {
    hide Inv, Recover, Accepted, Durable, ReadSector, StoredAt;
    FormattedDurable(cfg, d, fixed, image, boot);
    RecoveryRebuilds(Formatted(cfg, FormatDisk(cfg, d, fixed, image, boot), fixed));
  }

  lemma FormattedNewest(cfg: Config, d: Disk, fixed: bool, image: seq<Sector>, boot: seq<Sector>)
    requires cfg.Valid() && DiskFits(cfg, d) && Fresh(cfg, d) && |image| == 0x200 && |boot| == 65
    ensures var f := FormatDisk(cfg, d, fixed, image, boot);
            && Newest(cfg, f.ctl, 1) && DistinctCtls(cfg, f.ctl) && Accepted(cfg, f.ctl[1])
            && f.ctl[1].End != LAST_PURGE_POS && f.ctl[1].SCN == 1
            && (forall c | 0 <= c < cfg.MaxChunks && c != 1 :: f.ctl[c] == d.ctl[c])
            && WearOf(f.ctl[1]) == (if d.ctl[1].Intact then d.ctl[1].WCN else 0) + 1
  {
  }
}
