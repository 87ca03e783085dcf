// A leveling context as the driver keeps it (driver/vscsi.h): tables and buffers that are
// updated in place. Model gives the value of the context that the rest of the project
// reasons about.
module Context {
  import opened Geometry
  import opened BlockLog
  import opened Model
  import opened Invariant
  import opened Completeness
  import opened Writing
  import opened Reading
  import opened Recovery
  import opened Relocation
  import opened TornPurge

  class LevelingCtx {
    const Conf: Config
    const Map: array<nat>
    const Info: array<ChunkInfo>
    const ChunkLBA: array<nat>
    const NextLBA: array<nat>
    const CacheLBA: array<nat>
    const CacheMem: array<Sector>
    const RelocateMem: array<Sector>
    var ChunkNo: nat
    var NextChunkNo: nat
    var FinalizedPos: nat
    var PurgePos: nat
    var CachePos: nat
    var CacheDirty: bool
    var RelocatePos: nat
    var RelocateWindowStart: nat
    var RelocateWindowEnd: nat
    var RelocateTarget: nat
    var RelocateSource: int
    var RelocationPrepared: bool
    var RelocationDone: bool
    var Flushing: bool
    var Finalizing: bool

    // VLTL_MODE_ACTIVE; cleared by the first request that fails for good.
    var Active: bool

    // The medium behind the context.
    var Device: Disk

    // The arrays are the allocated ones, and the positions point into them.
    ghost predicate Shaped()
      reads this
    {
      && Map.Length == Conf.SizeOfMap && Info.Length == Conf.MaxChunks
      && ChunkLBA.Length == NextLBA.Length == 0x7fc0
      && CacheLBA.Length == CacheMem.Length == RelocateMem.Length == 0x200
      && Map != ChunkLBA && Map != NextLBA && Map != CacheLBA
      && ChunkLBA != NextLBA && ChunkLBA != CacheLBA && NextLBA != CacheLBA
      && CacheMem != RelocateMem
      && CachePos <= 0x1f8
      && RelocatePos <= LAST_PURGE_POS && RelocatePos % 8 == 0
      && RelocateWindowStart <= RelocateWindowEnd <= LAST_PURGE_POS
      && RelocateWindowStart % 8 == 0 && RelocateWindowEnd % 8 == 0
      && RelocateWindowEnd - RelocateWindowStart <= 0x200
    }

    ghost function MapNow(): MapInfo
      reads Map, Info
    {
      MapInfo(Map[..], Info[..])
    }

    ghost function CacheNow(): Cache
      requires Shaped()
      reads this, CacheLBA, CacheMem
    {
      Cache(CacheLBA[..], CacheMem[..], CachePos)
    }

    ghost function StateNow(): State
      requires Shaped()
      reads this, Map, Info, ChunkLBA, NextLBA, CacheLBA, CacheMem, RelocateMem
    {
      State(Conf, MapInfo(Map[..], Info[..]), ChunkNo, NextChunkNo, ChunkLBA[..], FinalizedPos, PurgePos,
            Cache(CacheLBA[..], CacheMem[..], CachePos),
            Reloc(NextLBA[..], RelocateMem[..], RelocatePos, RelocateWindowStart, RelocateWindowEnd,
                  RelocateTarget, RelocateSource, RelocationPrepared, RelocationDone),
            CacheDirty, Device)
    }

    ghost predicate Valid()
      reads this, Map, Info, ChunkLBA, NextLBA, CacheLBA, CacheMem, RelocateMem
    {
      Shaped() && Fits(StateNow())
    }

    ghost function Now(): Ctx
      requires Valid()
      reads this, Map, Info, ChunkLBA, NextLBA, CacheLBA, CacheMem, RelocateMem
    {
      StateNow()
    }

    // ---- driver/vscsi.c

    // The position at which a sector is cached.
    method GetCachedPos(lba: nat) returns (pos: nat)
      requires Valid()
      ensures pos == FindCached(Now().cache, lba, 0)
    {
      ghost var c := Now().cache;
      var i := 0;
      while i < CachePos
        invariant i % 8 == 0
        invariant FindCached(c, lba, i) == FindCached(c, lba, 0)
        decreases 0x200 - i
      {
        if CacheLBA[i] == lba - lba % 8 {
          pos := i + lba % 8;
          if pos < CachePos {
            return;
          }
        }
        i := i + 8;
      }
      return NOT_MAPPED;
    }

    // A context as InitializeLevelingCtx leaves it, before recovery.
    constructor (cfg: Config, device: Disk)
      requires cfg.Valid() && DiskFits(cfg, device)
      ensures Conf == cfg && Device == device && Shaped() && !Active && !Flushing
      ensures MapNow() == BlankScan(cfg).mi && ChunkLBA[..] == Blank(0x7fc0)
      ensures CachePos == 0 && !RelocationPrepared && !RelocationDone && !CacheDirty
      ensures fresh(Map) && fresh(Info) && fresh(ChunkLBA) && fresh(CacheMem)
    {
      Conf := cfg;
      Device := device;
      Map := new nat[cfg.SizeOfMap](i => NOT_MAPPED);
      Info := new ChunkInfo[cfg.MaxChunks](i => ChunkInfo(0, 0, 0));
      ChunkLBA := new nat[0x7fc0](i => 0);
      NextLBA := new nat[0x7fc0](i => 0);
      CacheLBA := new nat[0x200](i => 0);
      CacheMem := new Sector[0x200](i => Zero);
      RelocateMem := new Sector[0x200](i => Zero);
      ChunkNo, NextChunkNo, FinalizedPos, PurgePos, CachePos := 0, 0, 0, 0, 0;
      RelocatePos, RelocateWindowStart, RelocateWindowEnd, RelocateTarget, RelocateSource := 0, 0, 0, 0, 0;
      RelocationPrepared, RelocationDone, CacheDirty := false, false, false;
      Flushing, Finalizing, Active := false, false, false;
      new;
      BlankIs(cfg, Map[..], Info[..]);
    }

    // What the map and the counters need to be updated.
    ghost predicate MapShaped()
      reads this, Map
    {
      Map.Length == Conf.SizeOfMap && Info.Length == Conf.MaxChunks && InRange(Map[..], Info.Length)
    }

    // Records that the block named by lba is now stored at plba, in chunk c, unless a
    // newer chunk has it.
    method MoveBlock(lba: nat, c: nat, plba: nat)
      requires MapShaped() && c < Info.Length && ChunkOf(plba) == c
      modifies Map, Info
      ensures MapShaped()
      ensures MapNow() == UpdateOne(old(MapNow()), lba, c, plba)
    {
      var j := lba / 8;
      if Map.Length <= j {
        return;
      }
      var oldPlba := Map[j];
      if oldPlba != NOT_MAPPED {
        var oldChunk := oldPlba / SIZE_OF_CHUNK;
        assert Map[..][j] == oldPlba;
        if Info[oldChunk].SCN > Info[c].SCN {
          return;
        }
        Info[oldChunk] := Info[oldChunk].(Used := Info[oldChunk].Used - 1);
      }
      Map[j] := plba;
      Info[c] := Info[c].(Used := Info[c].Used + 1);
    }

    // Records that the blocks named by lbas are now stored from plba on.
    method UpdateMap(lbas: seq<nat>, plba: nat)
      requires MapShaped() && ChunkOf(plba) < Info.Length && plba + 8 * |lbas| <= Plba(ChunkOf(plba) + 1, 0)
      modifies Map, Info
      ensures MapShaped()
      ensures MapNow() == BlockLog.UpdateMap(old(MapNow()), lbas, ChunkOf(plba), plba)
    {
      MoveBlocks(lbas, plba / SIZE_OF_CHUNK, plba);
    }

    method MoveBlocks(lbas: seq<nat>, c: nat, plba: nat)
      requires MapShaped() && c < Info.Length
      requires Plba(c, 0) <= plba && plba + 8 * |lbas| <= Plba(c + 1, 0)
      modifies Map, Info
      ensures MapShaped()
      ensures MapNow() == BlockLog.UpdateMap(old(MapNow()), lbas, c, plba)
    {
      hide InRange;
      ghost var start := MapNow();
      var i := 0;
      assert lbas[0..] == lbas;
      while i < |lbas|
        invariant i <= |lbas| && MapShaped()
        invariant BlockLog.UpdateMap(MapNow(), lbas[i..], c, plba + 8 * i) == BlockLog.UpdateMap(start, lbas, c, plba)
      {
        assert lbas[i..][1..] == lbas[i + 1..];
        MoveBlock(lbas[i], c, plba + 8 * i);
        i := i + 1;
      }
    }

    method ScoreOf(i: nat, wcn: nat) returns (s: nat)
      requires i < Info.Length
      ensures s == Score(Conf, Info[..], i, wcn)
    {
      var speed := Info[i].Used;
      var life := if Info[i].WCN < wcn then U32(2 * Info[i].WCN) else U32(wcn + Info[i].WCN);
      s := U32(U32(speed * U32(1 + Conf.WeightSpeed)) / 32 + U32(life * U32(1 + Conf.WeightLife)));
    }

    // Chooses the chunk to be emptied while the current one fills.
    method FindNextChunk()
      requires Info.Length == Conf.MaxChunks >= 2 && ChunkNo < Info.Length && PurgePos <= LAST_PURGE_POS
      modifies this`NextChunkNo, this`RelocationDone, this`RelocationPrepared
      ensures NextChunkNo == Model.FindNextChunk(Conf, Info[..], ChunkNo, PurgePos)
      ensures !RelocationDone && !RelocationPrepared
    {
      ghost var info := Info[..];
      var next: nat, wcn, minScore: nat := ChunkNo, Info[ChunkNo].WCN, 0;
      var i: nat := 0;
      while i < Conf.MaxChunks
        invariant i <= Conf.MaxChunks && next < Conf.MaxChunks
        invariant next == ChunkNo || Admissible(info, next, PurgePos)
        invariant BestAdmissible(Conf, info, ChunkNo, PurgePos, i, next, minScore)
               == BestAdmissible(Conf, info, ChunkNo, PurgePos, 0, ChunkNo, 0)
      {
        if i != ChunkNo && Info[i].Used * 100 < (LAST_PURGE_POS - PurgePos) / 8 * 90 {
          var s := ScoreOf(i, wcn);
          if ChunkNo == next || minScore > s {
            minScore := s;
            next := i;
          }
        }
        i := i + 1;
      }
      if ChunkNo == next {
        next := LeastUsedChunk();
      }
      NextChunkNo := next;
      RelocationDone := false;
      RelocationPrepared := false;
    }

    // The second loop of FindNextChunk, when no chunk passes the 90% test.
    method LeastUsedChunk() returns (next: nat)
      requires Info.Length == Conf.MaxChunks && ChunkNo < Info.Length
      ensures next == LeastUsed(Info[..], ChunkNo, 0, ChunkNo, 0)
    {
      ghost var info := Info[..];
      var minUsed := 0;
      next := ChunkNo;
      var i: nat := 0;
      while i < Conf.MaxChunks
        invariant i <= Conf.MaxChunks && next < Conf.MaxChunks
        invariant next != ChunkNo ==> minUsed == info[next].Used
        invariant LeastUsed(info, ChunkNo, i, next, minUsed) == LeastUsed(info, ChunkNo, 0, ChunkNo, 0)
      {
        if i != ChunkNo && (ChunkNo == next || minUsed > Info[i].Used) {
          minUsed := Info[i].Used;
          next := i;
        }
        i := i + 1;
      }
    }

    // ---- Requests to the device

    // RtlCopyMemory into the write cache.
    method CopyToCache(at: nat, data: seq<Sector>)
      requires CacheMem.Length == 0x200 && at + |data| <= 0x200
      modifies CacheMem
      ensures CacheMem[..] == Splice(old(CacheMem[..]), at, data)
    {
      forall i | 0 <= i < |data| {
        CacheMem[at + i] := data[i];
      }
    }

    // The LBAs of new sectors at the end of the cache.
    method NameSectors(at: nat, lba: nat, n: nat)
      requires CacheLBA.Length == 0x200 && at + n <= 0x200
      modifies CacheLBA
      ensures CacheLBA[..] == Splice(old(CacheLBA[..]), at, Run(lba, n))
    {
      var i := 0;
      while i < n
        invariant i <= n
        invariant forall k | 0 <= k < 0x200 ::
                    CacheLBA[k] == if at <= k < at + i then lba + (k - at) else old(CacheLBA[k])
      {
        CacheLBA[at + i] := lba + i;
        i := i + 1;
      }
    }

    // The entries of a purge, for the control sector and for the chunk's table.
    method PurgeTable() returns (entries: seq<nat>)
      requires Shaped() && PurgePos / 8 + 0x40 <= 0x7fc0
      modifies ChunkLBA
      ensures entries == PurgeEntries(CacheNow())
      ensures ChunkLBA[..] == Splice(old(ChunkLBA[..]), PurgePos / 8, entries)
    {
      var slot := PurgePos / 8;
      var ctl := new nat[0x40];
      var i := 0;
      while i < 0x40
        invariant i <= 0x40
        invariant forall k | 0 <= k < i :: ctl[k] == if 8 * k >= CachePos then NOT_MAPPED else CacheLBA[8 * k]
        invariant forall k | 0 <= k < i :: ChunkLBA[slot + k] == ctl[k]
        invariant forall k | 0 <= k < 0x7fc0 && !(slot <= k < slot + i) :: ChunkLBA[k] == old(ChunkLBA[k])
      {
        var lba := if 8 * i >= CachePos then NOT_MAPPED else CacheLBA[8 * i];
        ChunkLBA[slot + i] := lba;
        ctl[i] := lba;
        i := i + 1;
      }
      entries := ctl[..];
      assert entries == PurgeEntries(CacheNow());
      forall k | 0 <= k < 0x7fc0 ensures ChunkLBA[k] == Splice(old(ChunkLBA[..]), slot, entries)[k] {
        if slot <= k < slot + 0x40 {
          assert ChunkLBA[slot + (k - slot)] == ctl[k - slot];
        }
      }
    }

    // Writes n sectors of the cache to the device. If that fails, some first part of them
    // may have been written.
    method WriteCache(plba: nat, n: nat) returns (ok: bool, ghost k: nat)
      requires CacheMem.Length == 0x200 && n <= 0x200 && plba + n <= |Device.data|
      modifies this`Device
      ensures k <= n && (ok ==> k == n)
      ensures Device == old(Device).(data := Splice(old(Device).data, plba, CacheMem[..k]))
    {
      ok := *;
      var sent: nat :| sent <= n && (ok ==> sent == n);
      Device := Device.(data := Splice(Device.data, plba, CacheMem[..sent]));
      k := sent;
    }

    // Writes the cached blocks with their control sector to the next purge slot.
    method ExecutePurgeCache() returns (ok: bool)
      requires Valid() && PurgePos < LAST_PURGE_POS
      modifies this`Device, ChunkLBA, CacheMem
      ensures ok ==> Valid() && Now() == PurgeSent(old(Now()))
      ensures !ok ==> PurgeTorn(old(Now()), Device)
    {
      hide Splice, InRange;
      ghost var s := Now();
      PurgeSlotFits(s);
      var entries := PurgeTable();
      CacheMem[LAST_CACHE_POS] :=
        Record(PurgeCtl(LEVELING_VERSION, Conf.CCN, Info[ChunkNo].SCN, ChunkNo, PurgePos, entries, Conf.Magic));
      assert CacheMem[..] == PurgeImage(s);
      ghost var k;
      ok, k := WriteCache(Plba(ChunkNo, PurgePos), SIZE_OF_CACHE);
      assert Device == Torn(s, k).disk;
      assert CacheMem[..0x200] == PurgeImage(s);
    }

    // What follows once the purge is on the device. The entries are taken from the control
    // sector at the end of the cache.
    method PurgeCacheCompletion()
      requires Valid() && PurgePos < LAST_PURGE_POS && CacheMem[LAST_CACHE_POS].Record?
      modifies this`CachePos, this`PurgePos, this`RelocationDone, this`CacheDirty, Map, Info
      ensures Valid()
      ensures Now() == PurgeCounted(old(Now()))
    {
      ghost var s := Now();
      PurgeSlotFits(s);
      hide BlockLog.UpdateMap, InRange, Fits;
      var entries := CacheMem[LAST_CACHE_POS].purgeCtl.LBA[..(CachePos + 7) / 8];
      CountPurged(entries);
      BeginSlot();
    }

    // An empty cache for the next purge slot.
    method BeginSlot()
      requires Valid() && PurgePos < LAST_PURGE_POS
      modifies this`CachePos, this`PurgePos, this`RelocationDone, this`CacheDirty
      ensures Valid()
      ensures Now() == Advanced(old(Now()))
    {
      ghost var s := Now();
      hide Fits;
      CachePos := 0;
      PurgePos := PurgePos + SIZE_OF_CACHE;
      RelocationDone := false;
      CacheDirty := false;
    }

    // Counts the blocks of a purge in, at the place they were written to.
    method CountPurged(entries: seq<nat>)
      requires Valid() && PurgePos < LAST_PURGE_POS && |entries| <= 0x40
      modifies Map, Info
      ensures Valid()
      ensures Plba(ChunkNo, 0) <= Plba(ChunkNo, PurgePos)
      ensures Plba(ChunkNo, PurgePos) + 8 * |entries| <= Plba(ChunkNo + 1, 0)
      ensures Now() == old(Now()).(mi := BlockLog.UpdateMap(old(MapNow()), entries, ChunkNo, Plba(ChunkNo, PurgePos)))
    {
      PurgeSlotFits(Now());
      hide BlockLog.UpdateMap;
      UpdateMap(entries, Plba(ChunkNo, PurgePos));
    }

    // A whole purge.
    method Purge()
      requires Valid() && Active && PurgePos < LAST_PURGE_POS
      modifies this`Active, this`Device, this`CachePos, this`PurgePos, this`RelocationDone, this`CacheDirty
      modifies Map, Info, ChunkLBA, CacheMem
      ensures Active ==> Valid() && Now() == PurgeCache(old(Now()))
      ensures !Active ==> PurgeTorn(old(Now()), Device)
    {
      ghost var s := Now();
      var ok := ExecutePurgeCache();
      if !ok {
        Active := false;
        return;
      }
      PurgeInTwo(s);
      hide PurgeCache, PurgeSent, PurgeCounted, Fits, PurgeTorn;
      PurgeCacheCompletion();
    }

    // Writes the control block of the current chunk, as one unit; it passes through the
    // write cache.
    method ExecutePurgeChunk()
      requires Valid() && Active
      modifies this`Active, this`FinalizedPos, this`Device, Info, CacheMem
      ensures Active ==> Valid() && Now() == PurgeChunk(old(Now()))
      ensures !Active ==> Device == old(Device) || Device == PurgeChunk(old(Now())).disk
    {
      ghost var s := Now();
      CtxFacts(s);
      hide Fits, Splice;
      Info[ChunkNo] := Info[ChunkNo].(WCN := Info[ChunkNo].WCN + 1);
      var ctl := ChunkCtl(true, LEVELING_VERSION, Conf.CCN, Info[ChunkNo].SCN, Info[ChunkNo].WCN, NextChunkNo,
                          Info[NextChunkNo].WCN, if ChunkNo == 0 then SIZE_OF_CACHE else 0, PurgePos, ChunkLBA[..]);
      CopyToCache(0, ControlSectors(ctl));
      var ok: bool, written: bool := *, *;
      if ok || written {
        Device := Device.(ctl := Device.ctl[ChunkNo := ctl]);
      }
      if !ok {
        Active := false;
        return;
      }
      FinalizedPos := PurgePos;
      assert CacheNow() == PurgeChunk(s).cache;
      assert StateNow() == PurgeChunk(s);
    }

    // The move to the emptied chunk.
    method EnterNextChunk()
      requires Valid()
      modifies this`ChunkNo, this`PurgePos, this`FinalizedPos, this`NextChunkNo, this`RelocationDone
      modifies this`RelocationPrepared, Info
      ensures Valid()
      ensures Now() == SwitchChunk(old(Now()))
    {
      ghost var s := Now();
      ghost var t := SwitchChunk(s);
      CtxFacts(s);
      hide Fits, Model.FindNextChunk;
      BeginChunk();
      FindNextChunk();
      assert StateNow() == t;
    }

    method BeginChunk()
      requires ChunkNo < Info.Length && NextChunkNo < Info.Length
      modifies this`ChunkNo, this`PurgePos, this`FinalizedPos, Info
      ensures ChunkNo == old(NextChunkNo) && PurgePos == FinalizedPos == StartOf(ChunkNo)
      ensures Info[..] == old(Info[..][NextChunkNo := Info[NextChunkNo].(SCN := Info[ChunkNo].SCN + 1)])
    {
      Info[NextChunkNo] := Info[NextChunkNo].(SCN := Info[ChunkNo].SCN + 1);
      ChunkNo := NextChunkNo;
      PurgePos := if 0 == ChunkNo then SIZE_OF_CACHE else 0;
      FinalizedPos := PurgePos;
    }

    // ---- driver/vrelocation.c

    // Reads the control block of the chunk to be emptied, through the write cache.
    method PrepareRelocate()
      requires Valid() && Active
      modifies this`Active, this`RelocateTarget, this`RelocateSource, this`RelocatePos, this`RelocateWindowStart
      modifies this`RelocateWindowEnd, this`RelocationPrepared, CacheMem, NextLBA
      ensures Active ==> Valid() && Now() == Model.PrepareRelocate(old(Now()))
      ensures Device == old(Device)
    {
      CtxFacts(Now());
      CopyToCache(0, ControlSectors(Device.ctl[NextChunkNo]));
      var ok: bool := *;
      if !ok {
        Active := false;
        return;
      }
      PrepareRelocateCompletion();
    }

    method PrepareRelocateCompletion()
      requires Valid() && CacheMem[0].Control?
      modifies this`RelocateTarget, this`RelocateSource, this`RelocatePos, this`RelocateWindowStart
      modifies this`RelocateWindowEnd, this`RelocationPrepared, NextLBA
      ensures Valid() && Now() == RelocationSet(old(Now()), old(CacheMem[0].chunkCtl.LBA))
    {
      ghost var s := Now();
      ghost var t := RelocationSet(s, CacheMem[0].chunkCtl.LBA);
      CtxFacts(s);
      hide Fits;
      TakeTable(CacheMem[0].chunkCtl.LBA);
      BeginRelocation((LAST_PURGE_POS - PurgePos) / 8, Info[NextChunkNo].Used);
      assert StateNow() == t;
    }

    method BeginRelocation(target: nat, source: int)
      modifies this`RelocateTarget, this`RelocateSource, this`RelocatePos, this`RelocateWindowStart
      modifies this`RelocateWindowEnd, this`RelocationPrepared
      ensures RelocateTarget == target && RelocateSource == source && RelocationPrepared
      ensures RelocatePos == RelocateWindowStart == RelocateWindowEnd == 0
    {
      RelocateTarget, RelocateSource := target, source;
      RelocateWindowStart, RelocateWindowEnd, RelocatePos := 0, 0, 0;
      RelocationPrepared := true;
    }

    // The recount of a debug build, after the table was taken over.
    method RecountLive() returns (used: nat)
      requires Shaped()
      ensures used == Recount(Map[..], NextLBA[..], NextChunkNo, 0x7fc0)
    {
      hide LiveSlot;
      used := 0;
      var i := 0;
      while i < LAST_PURGE_POS
        invariant i <= LAST_PURGE_POS && i % 8 == 0
        invariant used == Recount(Map[..], NextLBA[..], NextChunkNo, i / 8)
      {
        var live := StillLive(i);
        if live {
          used := used + 1;
        }
        i := i + 8;
      }
    }

    // RtlCopyMemory into NextChunkCtl.
    method TakeTable(table: Table)
      requires NextLBA.Length == 0x7fc0
      modifies NextLBA
      ensures NextLBA[..] == table
    {
      forall i | 0 <= i < 0x7fc0 {
        NextLBA[i] := table[i];
      }
    }

    // Whether the chunk to be emptied still stores the block that its table names at the
    // given position.
    method StillLive(pos: nat) returns (live: bool)
      requires Shaped() && pos / 8 < 0x7fc0 && pos % 8 == 0
      ensures live == LiveSlot(Map[..], NextLBA[..], NextChunkNo, pos / 8)
    {
      var b := NextLBA[pos / 8] / 8;
      live := b < Conf.SizeOfMap && Map[b] == NextChunkNo * SIZE_OF_CHUNK + pos;
    }

    // Copies the block under the cursor from the window to the end of the cache.
    method CopyBlock()
      requires Valid() && CachePos % 8 == 0 && CachePos < LAST_CACHE_POS && RelocatePos < LAST_PURGE_POS
      requires RelocateWindowStart <= RelocatePos < RelocateWindowEnd
      modifies this`CachePos, this`RelocatePos, CacheLBA, CacheMem
      ensures Valid() && Now() == Copied(old(Now()))
    {
      ghost var t := Copied(Now());
      hide Fits;
      var lba, at := NextLBA[RelocatePos / 8], RelocatePos - RelocateWindowStart;
      assert Run(lba, 8) == Run(lba, |RelocateMem[at..at + 8]|);
      NameSectors(CachePos, lba, 8);
      CopyToCache(CachePos, RelocateMem[at..at + 8]);
      Advance(8, 8);
      assert StateNow() == t;
    }

    method Advance(cached: nat, passed: nat)
      modifies this`CachePos, this`RelocatePos
      ensures CachePos == old(CachePos) + cached && RelocatePos == old(RelocatePos) + passed
    {
      CachePos := CachePos + cached;
      RelocatePos := RelocatePos + passed;
    }

    method Skip()
      requires Valid() && RelocatePos < LAST_PURGE_POS
      modifies this`CachePos, this`RelocatePos
      ensures Valid() && Now() == Skipped(old(Now()))
    {
      ghost var t := Skipped(Now());
      hide Fits;
      Advance(0, 8);
      assert StateNow() == t;
    }

    method Finish()
      requires Valid()
      modifies this`RelocationDone
      ensures Valid() && Now() == Finished(old(Now()))
    {
      ghost var t := Finished(Now());
      hide Fits;
      RelocationDone := true;
      assert StateNow() == t;
    }

    // Moves live blocks from the window to the cache, until the window ends or there is
    // nothing more to do for this purge.
    method ExecuteRelocateCached()
      requires Valid() && CachePos % 8 == 0 && PurgePos < LAST_PURGE_POS
      modifies this`CachePos, this`RelocatePos, this`RelocationDone, CacheLBA, CacheMem
      ensures Valid() && Now() == RelocateCached(old(Now()))
    {
      ghost var s := Now();
      CtxFacts(s);
      if RelocateSource * ((LAST_PURGE_POS - SIZE_OF_CACHE - PurgePos) / 8)
         >= RelocateTarget * (Info[NextChunkNo].Used - CachePos / 8)
      {
        Finish();
        return;
      }
      assert !RatioMet(s);
      ScanWindow();
    }

    // The loop of ExecuteRelocateCached.
    method ScanWindow()
      requires Valid() && CachePos % 8 == 0
      modifies this`CachePos, this`RelocatePos, this`RelocationDone, CacheLBA, CacheMem
      ensures Valid() && Now() == RelocateScan(old(Now()))
    {
      hide Fits, RelocateScan;
      ghost var s := Now();
      var more := true;
      while more
        invariant Valid() && CachePos % 8 == 0
        invariant if more then RelocateScan(Now()) == RelocateScan(s) else Now() == RelocateScan(s)
        decreases more, LAST_PURGE_POS - RelocatePos
      {
        more := ScanBlock();
      }
    }

    method ScanBlock() returns (more: bool)
      requires Valid() && CachePos % 8 == 0
      modifies this`CachePos, this`RelocatePos, this`RelocationDone, CacheLBA, CacheMem
      ensures Valid() && CachePos % 8 == 0
      ensures if more then RelocateScan(Now()) == RelocateScan(old(Now())) && RelocatePos > old(RelocatePos)
              else Now() == RelocateScan(old(Now()))
    {
      ghost var s := Now();
      ScanSteps(s);
      hide Fits, LiveSlot, InRange, Copied, Skipped, Finished, RelocateScan;
      if RelocatePos >= LAST_PURGE_POS {
        Finish();
        return false;
      }
      var live := StillLive(RelocatePos);
      if live {
        more := ScanLive();
      } else {
        SkippedAt(s);
        Skip();
        more := true;
      }
    }

    // The cursor stands on a live block.
    method ScanLive() returns (more: bool)
      requires Valid() && CachePos % 8 == 0 && RelocatePos < LAST_PURGE_POS
      requires LiveSlot(Map[..], NextLBA[..], NextChunkNo, RelocatePos / 8)
      modifies this`CachePos, this`RelocatePos, this`RelocationDone, CacheLBA, CacheMem
      ensures Valid() && CachePos % 8 == 0
      ensures if more then RelocateScan(Now()) == RelocateScan(old(Now())) && RelocatePos > old(RelocatePos)
              else Now() == RelocateScan(old(Now()))
    {
      ghost var s := Now();
      ScanSteps(s);
      hide Fits, LiveSlot, InRange, Copied, Skipped, Finished, RelocateScan;
      if CachePos >= LAST_CACHE_POS {
        Finish();
        return false;
      }
      if !(RelocateWindowStart <= RelocatePos < RelocateWindowEnd) {
        return false;
      }
      CopiedAt(s);
      CopyBlock();
      return true;
    }

    // Chooses the next window, and reads it.
    method ExecuteRelocate()
      requires Valid() && Active && Plba(NextChunkNo, LAST_PURGE_POS) <= |Device.data|
      modifies this`Active, this`RelocateWindowStart, this`RelocateWindowEnd, RelocateMem
      ensures Active ==> Valid() && Now() == RelocateRead(old(Now()))
      ensures Device == old(Device)
    {
      ghost var t := RelocateRead(Now());
      var end := FindWindowEnd();
      SetWindow(RelocatePos, end);
      var ok: bool := *;
      if !ok {
        Active := false;
        return;
      }
      hide Fits, WindowEnd;
      var plba := Plba(NextChunkNo, RelocateWindowStart);
      CopyToWindow(Device.data[plba..plba + (RelocateWindowEnd - RelocateWindowStart)]);
      assert StateNow() == t;
    }

    method SetWindow(start: nat, end: nat)
      modifies this`RelocateWindowStart, this`RelocateWindowEnd
      ensures RelocateWindowStart == start && RelocateWindowEnd == end
    {
      RelocateWindowStart, RelocateWindowEnd := start, end;
    }

    method CopyToWindow(data: seq<Sector>)
      requires RelocateMem.Length == 0x200 && |data| <= 0x200
      modifies RelocateMem
      ensures RelocateMem[..] == Splice(old(RelocateMem[..]), 0, data)
    {
      forall i | 0 <= i < |data| {
        RelocateMem[i] := data[i];
      }
    }

    method FindWindowEnd() returns (end: nat)
      requires Shaped()
      ensures end == WindowEnd(Map[..], NextLBA[..], NextChunkNo, RelocatePos, RelocatePos, RelocatePos)
    {
      hide LiveSlot;
      ghost var m, table := Map[..], NextLBA[..];
      end := RelocatePos;
      var i := RelocatePos;
      while i < LAST_PURGE_POS && i < RelocatePos + SIZE_OF_CACHE && i < end + 32
        invariant RelocatePos <= end <= i && end <= LAST_PURGE_POS && end - RelocatePos <= 0x200
        invariant i % 8 == 0 && end % 8 == 0
        invariant WindowEnd(m, table, NextChunkNo, RelocatePos, i, end)
               == WindowEnd(m, table, NextChunkNo, RelocatePos, RelocatePos, RelocatePos)
        decreases LAST_PURGE_POS - i
      {
        var live := StillLive(i);
        if live {
          end := i + 8;
        }
        i := i + 8;
      }
    }

    // ---- Filling and writing the cache

    method Grow(n: nat, dirty: bool)
      modifies this`CachePos, this`CacheDirty
      ensures CachePos == old(CachePos) + n && CacheDirty == dirty
    {
      CachePos := CachePos + n;
      CacheDirty := dirty;
    }

    // A run of sectors at the end of the cache.
    method PushSectors(lba: nat, data: seq<Sector>, dirty: bool)
      requires Valid() && CachePos + |data| <= LAST_CACHE_POS
      modifies this`CachePos, this`CacheDirty, CacheLBA, CacheMem
      ensures Valid()
      ensures Now() == old(Now()).(cache := Push(old(Now()).cache, lba, data), dirty := dirty)
    {
      ghost var s := Now();
      ghost var t := s.(cache := Push(s.cache, lba, data), dirty := dirty);
      hide Fits;
      NameSectors(CachePos, lba, |data|);
      CopyToCache(CachePos, data);
      Grow(|data|, dirty);
      assert StateNow() == t;
    }

    method CacheFillReadZero(lba: nat, n: nat)
      requires Valid() && lba / 8 < Conf.SizeOfMap && lba % 8 + n <= 8 && CachePos + n <= LAST_CACHE_POS
      requires Map[lba / 8] == NOT_MAPPED
      modifies this`CachePos, this`CacheDirty, CacheLBA, CacheMem
      ensures Valid() && Now() == Fill(old(Now()), lba, n)
    {
      ghost var s := Now();
      CtxFacts(s);
      assert s.mi.Map[lba / 8] == NOT_MAPPED;
      assert Zeros(n) == Stored(s, lba, n);
      hide Fits, Stored, Push;
      PushSectors(lba, Zeros(n), CacheDirty);
    }

    method ExecuteCacheFillRead(lba: nat, n: nat)
      requires Valid() && Active
      requires lba / 8 < Conf.SizeOfMap && lba % 8 + n <= 8 && CachePos + n <= LAST_CACHE_POS
      requires Map[lba / 8] != NOT_MAPPED && Map[lba / 8] + 8 <= |Device.data|
      modifies this`Active, this`CachePos, this`CacheDirty, CacheLBA, CacheMem
      ensures Active ==> Valid() && Now() == Fill(old(Now()), lba, n)
    {
      hide Fits, Push, InRange;
      ghost var s := Now();
      CtxFacts(s);
      var plba := Map[lba / 8] + lba % 8;
      assert s.mi.Map[lba / 8] == Map[lba / 8];
      assert Device.data[plba..plba + n] == Stored(s, lba, n);
      hide Stored;
      var ok: bool := *;
      if ok {
        PushSectors(lba, Device.data[plba..plba + n], CacheDirty);
      } else {
        Active := false;
      }
    }

    // Brings the stored contents of part of a block into the cache.
    method CacheFill(lba: nat, n: nat)
      requires Valid() && Active
      requires lba / 8 < Conf.SizeOfMap && lba % 8 + n <= 8 && CachePos + n <= LAST_CACHE_POS
      requires Map[lba / 8] != NOT_MAPPED ==> Map[lba / 8] + 8 <= |Device.data|
      modifies this`Active, this`CachePos, this`CacheDirty, CacheLBA, CacheMem
      ensures Active ==> Valid() && Now() == Fill(old(Now()), lba, n)
    {
      hide Fits, Fill;
      if Map[lba / 8] != NOT_MAPPED {
        ExecuteCacheFillRead(lba, n);
      } else {
        CacheFillReadZero(lba, n);
      }
    }

    // Completes the unfinished block at the end of the cache.
    method FillUnfinished()
      requires Valid() && Active && CachePos % 8 != 0 && CacheOk(CacheNow(), Conf.SizeOfMap) && MapStored(Now())
      modifies this`Active, this`CachePos, this`CacheDirty, CacheLBA, CacheMem
      ensures Active ==> Valid() && Now() == FillTail(old(Now()))
    {
      hide Fits, CacheOk, InRange, Fill;
      UnfinishedFits(CacheNow(), Conf.SizeOfMap);
      var lba := CacheLBA[CachePos - 1] + 1;
      assert Map[lba / 8] == Now().mi.Map[lba / 8];
      CacheFill(lba, 8 - CachePos % 8);
    }

    // Brings in the start of the block that the next sector of the request is in.
    method FillStart(j: Job)
      requires Valid() && Active && CachePos % 8 == 0 && CachePos < LAST_CACHE_POS && MapStored(Now())
      requires j.done < |j.data| && NextLba(j) / 8 < Conf.SizeOfMap
      modifies this`Active, this`CachePos, this`CacheDirty, CacheLBA, CacheMem
      ensures Active ==> Valid() && Now() == FillHead(old(Now()), j)
    {
      hide Fits, InRange, Fill;
      var lba := NextLba(j);
      assert Map[lba / 8] == Now().mi.Map[lba / 8];
      CacheFill(lba - lba % 8, if lba / 8 == (j.lba + |j.data|) / 8 then 8 else lba % 8);
    }

    // How many of the next sectors are cached behind pos.
    method CachedRun(lba: nat, len: nat, pos: nat) returns (n: nat)
      requires Valid() && pos < CachePos && 1 <= len
      ensures n == HitLen(Now().cache, lba, len, pos, 1)
    {
      ghost var c := Now().cache;
      n := 1;
      while n < len && pos + n < CachePos && CacheLBA[pos + n] == lba + n
        invariant 1 <= n <= len && pos + n <= CachePos
        invariant HitLen(c, lba, len, pos, n) == HitLen(c, lba, len, pos, 1)
      {
        n := n + 1;
      }
    }

    // Overwrites what is cached from pos on, where the next sector of the request is.
    method WriteHit(j: Job, pos: nat) returns (n: nat)
      requires Valid() && j.done < |j.data| && pos != NOT_MAPPED && pos == FindCached(Now().cache, NextLba(j), 0)
      modifies CacheMem
      ensures Valid()
      ensures (Now(), j.(done := j.done + n)) == HitWrite(old(Now()), j)
    {
      ghost var s := Now();
      n := CachedRun(NextLba(j), |j.data| - j.done, pos);
      hide Fits, FindCached;
      CopyToCache(pos, j.data[j.done..j.done + n]);
      assert StateNow() == HitWrite(s, j).0;
    }

    // How many new sectors fit, up to a block that is cached already.
    method NewRun(lba: nat, len: nat) returns (n: nat)
      requires Valid() && 1 <= len && CachePos < LAST_CACHE_POS
      ensures n == AppendLen(Now().cache, lba, len, 1)
    {
      ghost var c := Now().cache;
      hide FindCached;
      n := 1;
      while n < len && CachePos + n < LAST_CACHE_POS
        invariant 1 <= n <= len && CachePos + n <= LAST_CACHE_POS
        invariant AppendLen(c, lba, len, n) == AppendLen(c, lba, len, 1)
      {
        if (lba + n) % 8 == 0 {
          var pos := GetCachedPos(lba + n);
          if pos != NOT_MAPPED {
            return;
          }
        }
        n := n + 1;
      }
    }

    method WriteNew(j: Job) returns (n: nat)
      requires Valid() && j.done < |j.data| && CachePos < LAST_CACHE_POS
      modifies this`CachePos, this`CacheDirty, CacheLBA, CacheMem
      ensures Valid()
      ensures (Now(), j.(done := j.done + n)) == Append(old(Now()), j)
    {
      n := NewRun(NextLba(j), |j.data| - j.done);
      hide Fits, Push, AppendLen;
      PushSectors(NextLba(j), j.data[j.done..j.done + n], true);
    }

    // ---- Passes of the write handler

    // One pass of relocation: from the window, or by reading the next one.
    method RelocatePass()
      requires Valid() && Active && CachePos % 8 == 0 && PurgePos < LAST_PURGE_POS
      modifies this`Active, this`CachePos, this`RelocatePos, this`RelocationDone, this`RelocateWindowStart
      modifies this`RelocateWindowEnd, CacheLBA, CacheMem, RelocateMem
      ensures Active ==> Valid() && Now() == RelocatePassed(old(Now()))
      ensures Device == old(Device)
    {
      hide Fits, RelocateCached, RelocateRead;
      WindowFits(Now());
      ExecuteRelocateCached();
      if !RelocationDone {
        ExecuteRelocate();
      }
    }

    // One pass behind relocation.
    method TransferPass(j: Job) returns (r: Job)
      requires Valid() && Active && PurgePos < LAST_PURGE_POS && CacheOk(CacheNow(), Conf.SizeOfMap) && MapStored(Now())
      requires JobFits(Conf, j) && j.done < |j.data|
      modifies this`Active, this`Device, this`CachePos, this`PurgePos, this`RelocationDone, this`CacheDirty
      modifies Map, Info, ChunkLBA, CacheLBA, CacheMem
      ensures Active ==> Valid() && (Now(), r) == Transfer(old(Now()), j)
      ensures !Active ==> TransferLeft(old(Now()), Device)
    {
      hide Fits, CacheOk, MapStored, FindCached, InRange, PurgeCache, HitWrite, Append, FillTail, FillHead, PurgeTorn;
      r := j;
      var pos := GetCachedPos(NextLba(j));
      if pos != NOT_MAPPED {
        var n := WriteHit(j, pos);
        r := j.(done := j.done + n);
      } else if CachePos >= LAST_CACHE_POS {
        Purge();
      } else if CachePos % 8 != 0 && CacheLBA[CachePos - 1] + 1 != NextLba(j) {
        FillUnfinished();
      } else if CachePos % 8 == 0 && NextLba(j) % 8 != 0 {
        FillStart(j);
      } else {
        var n := WriteNew(j);
        r := j.(done := j.done + n);
      }
    }

    // ---- Rounds of the read handler

    // How far one device read goes.
    method JoinedRun(lba: nat, len: nat, plba: nat) returns (n: nat)
      requires Valid() && 1 <= len && lba + len <= 8 * Conf.SizeOfMap
      ensures n == JoinLen(Now(), lba, len, plba, 1)
    {
      hide FindCached, Fits, InRange;
      ghost var s := Now();
      CtxFacts(s);
      n := 1;
      while n < len
        invariant 1 <= n <= len
        invariant JoinLen(s, lba, len, plba, n) == JoinLen(s, lba, len, plba, 1)
      {
        if (lba + n) % 8 == 0 {
          if plba + n != Map[(lba + n) / 8] {
            return;
          }
          var pos := GetCachedPos(lba + n);
          if pos != NOT_MAPPED {
            return;
          }
        }
        n := n + 1;
      }
    }

    // The next round: from the cache, zeros, or a device read that may fail.
    method ReadSome(lba: nat, len: nat) returns (ok: bool, data: seq<Sector>)
      requires Valid() && 0 < len && lba + len <= 8 * Conf.SizeOfMap && RoundOnDevice(Now(), ReadRound(Now(), lba, len))
      ensures ok ==> data == RoundData(Now(), ReadRound(Now(), lba, len))
    {
      ghost var s := Now();
      CtxFacts(s);
      hide FindCached, Fits, InRange, HitLen, JoinLen;
      ok := true;
      var pos := GetCachedPos(lba);
      if pos != NOT_MAPPED {
        var n := CachedRun(lba, len, pos);
        data := CacheMem[pos..pos + n];
        return;
      }
      ok, data := ReadStored(lba, len);
    }

    // What is not cached.
    method ReadStored(lba: nat, len: nat) returns (ok: bool, data: seq<Sector>)
      requires Valid() && 0 < len && lba + len <= 8 * Conf.SizeOfMap && RoundOnDevice(Now(), ReadRound(Now(), lba, len))
      requires FindCached(CacheNow(), lba, 0) == NOT_MAPPED
      ensures ok ==> data == RoundData(Now(), ReadRound(Now(), lba, len))
    {
      ghost var s := Now();
      CtxFacts(s);
      hide FindCached, Fits, InRange, JoinLen;
      assert Map[lba / 8] == s.mi.Map[lba / 8];
      if Map[lba / 8] == NOT_MAPPED {
        return true, [Zero];
      }
      var plba := Map[lba / 8] + lba % 8;
      var n := JoinedRun(lba, len, plba);
      ok := *;
      data := Device.data[plba..plba + n];
    }

    // The same, into the client's buffer behind the first done sectors.
    method ReadInto(lba: nat, len: nat, buffer: array<Sector>, done: nat) returns (ok: bool, now: nat)
      requires Valid() && 0 < len && lba + len <= 8 * Conf.SizeOfMap && RoundOnDevice(Now(), ReadRound(Now(), lba, len))
      requires |RoundData(Now(), ReadRound(Now(), lba, len))| <= len && done + len <= buffer.Length
      modifies buffer
      ensures done <= now <= done + len
      ensures ok ==> buffer[..now] == old(buffer[..done]) + old(RoundData(Now(), ReadRound(Now(), lba, len)))
      ensures forall i | done + len <= i < buffer.Length :: buffer[i] == old(buffer[i])
    {
      hide Fits, ReadRound, RoundData, RoundOnDevice;
      now := done;
      var data;
      ok, data := ReadSome(lba, len);
      if ok {
        forall i | 0 <= i < |data| {
          buffer[done + i] := data[i];
        }
        now := done + |data|;
      }
    }

    // ---- driver/vflush.c

    // One pass of the flush handler.
    method FlushPass() returns (over: bool)
      requires Valid() && Active && FlushReady(Now())
      modifies this`Active, this`Device, this`FinalizedPos, this`CachePos, this`PurgePos, this`RelocationDone
      modifies this`CacheDirty, Map, Info, ChunkLBA, CacheLBA, CacheMem
      ensures Active ==> Valid() && (Now(), over) == FlushPassed(old(Now()), Finalizing)
      ensures !Active ==> FlushLeft(old(Now()), Device)
    {
      hide Fits, CacheOk, MapStored, InRange, PurgeCache, PurgeChunk, FillTail, PurgeTorn;
      over := false;
      if CachePos % 8 != 0 {
        FillUnfinished();
      } else if CacheDirty {
        Purge();
      } else if Finalizing && FinalizedPos < PurgePos {
        ExecutePurgeChunk();
      } else {
        over := true;
      }
    }

    method SetFlushing(flushing: bool, finalizing: bool)
      modifies this`Flushing, this`Finalizing
      ensures Flushing == flushing && Finalizing == finalizing
    {
      Flushing, Finalizing := flushing, finalizing;
    }
  }

  lemma BlankIs(cfg: Config, m: seq<nat>, info: seq<ChunkInfo>)
    requires cfg.Valid() && |m| == cfg.SizeOfMap && |info| == cfg.MaxChunks
    requires forall b | 0 <= b < |m| :: m[b] == NOT_MAPPED
    requires forall c | 0 <= c < |info| :: info[c] == ChunkInfo(0, 0, 0)
    ensures MapInfo(m, info) == BlankScan(cfg).mi
  {
  }

  predicate RoundOnDevice(s: Ctx, r: Round) {
    r.Device? ==> r.plba + r.n <= |s.disk.data|
  }

  // What the flush handler relies on.
  ghost predicate FlushReady(s: Ctx) {
    CacheOk(s.cache, s.cfg.SizeOfMap) && MapStored(s) && (s.dirty ==> s.purge < LAST_PURGE_POS)
  }

  function FlushPassed(s: Ctx, finalize: bool): (r: (Ctx, bool))
    requires FlushReady(s)
  {
    if s.cache.pos % 8 != 0 then (FillTail(s), false)
    else if s.dirty then (PurgeCache(s), false)
    else if finalize && s.finalized < s.purge then (PurgeChunk(s), false)
    else (s, true)
  }

  ghost predicate FlushLeft(s: Ctx, d: Disk)
    requires FlushReady(s)
  {
    d == s.disk || d == PurgeChunk(s).disk || (s.cache.pos % 8 == 0 && s.dirty && PurgeTorn(s, d))
  }

  // What a failure of such a pass leaves on the device.
  ghost predicate TransferLeft(s: Ctx, d: Disk)
    requires s.purge < LAST_PURGE_POS
  {
    d == s.disk || (s.cache.pos >= LAST_CACHE_POS && PurgeTorn(s, d))
  }

  function RelocatePassed(s: Ctx): (r: Ctx)
    requires s.cache.pos % 8 == 0
  {
    var t := RelocateCached(s);
    if t.reloc.done then t else RelocateRead(t)
  }

  lemma WindowFits(s: Ctx)
    ensures Plba(s.next, LAST_PURGE_POS) <= |s.disk.data|
  {
    ChunksApart(s.next, s.cfg.MaxChunks);
  }

  // The device has every mapped block in full.
  ghost predicate MapStored(s: Ctx) {
    forall b | 0 <= b < s.cfg.SizeOfMap && s.mi.Map[b] != NOT_MAPPED :: s.mi.Map[b] + 8 <= |s.disk.data|
  }

  lemma UnfinishedFits(c: Cache, blocks: nat)
    requires CacheOk(c, blocks) && c.pos % 8 != 0
    ensures (c.lba[c.pos - 1] + 1) / 8 < blocks && (c.lba[c.pos - 1] + 1) % 8 == c.pos % 8
    ensures c.pos + (8 - c.pos % 8) <= LAST_CACHE_POS
  {
    TailFits(c, blocks);
  }

  lemma SkippedAt(s: Ctx)
    requires s.reloc.pos < LAST_PURGE_POS
    ensures Skipped(s).reloc.pos == s.reloc.pos + 8 && Skipped(s).cache.pos == s.cache.pos
  {
  }

  lemma CopiedAt(s: Ctx)
    requires s.cache.pos % 8 == 0 && s.cache.pos < LAST_CACHE_POS && s.reloc.pos < LAST_PURGE_POS
    requires s.reloc.start <= s.reloc.pos < s.reloc.end
    ensures Copied(s).reloc.pos == s.reloc.pos + 8 && Copied(s).cache.pos == s.cache.pos + 8
  {
  }

  // One pass of the copying loop.
  lemma ScanSteps(s: Ctx)
    requires s.cache.pos % 8 == 0
    ensures RelocateScan(s)
         == if s.reloc.pos >= LAST_PURGE_POS then Finished(s)
            else if !LiveSlot(s.mi.Map, s.reloc.table, s.next, s.reloc.pos / 8) then RelocateScan(Skipped(s))
            else if s.cache.pos >= LAST_CACHE_POS then Finished(s)
            else if !(s.reloc.start <= s.reloc.pos < s.reloc.end) then s
            else RelocateScan(Copied(s))
  {
    if s.reloc.pos >= LAST_PURGE_POS {
      ScanEnds(s);
    } else if !LiveSlot(s.mi.Map, s.reloc.table, s.next, s.reloc.pos / 8) {
      ScanSkips(s);
    } else {
      ScanAtLive(s);
    }
    hide RelocateScan, LiveSlot, Skipped, Copied, Finished;
  }

  lemma ScanEnds(s: Ctx)
    requires s.cache.pos % 8 == 0 && s.reloc.pos >= LAST_PURGE_POS
    ensures RelocateScan(s) == Finished(s)
  {
  }

  lemma ScanSkips(s: Ctx)
    requires s.cache.pos % 8 == 0 && s.reloc.pos < LAST_PURGE_POS
    requires !LiveSlot(s.mi.Map, s.reloc.table, s.next, s.reloc.pos / 8)
    ensures RelocateScan(s) == RelocateScan(Skipped(s))
  {
    hide LiveSlot;
  }

  lemma ScanAtLive(s: Ctx)
    requires s.cache.pos % 8 == 0 && s.reloc.pos < LAST_PURGE_POS
    requires LiveSlot(s.mi.Map, s.reloc.table, s.next, s.reloc.pos / 8)
    ensures RelocateScan(s)
         == if s.cache.pos >= LAST_CACHE_POS then Finished(s)
            else if !(s.reloc.start <= s.reloc.pos < s.reloc.end) then s
            else RelocateScan(Copied(s))
  {
    hide LiveSlot, Push;
  }

  lemma CtxFacts(s: Ctx)
    ensures s.cfg.Valid() && |s.mi.Map| == s.cfg.SizeOfMap && |s.mi.info| == s.cfg.MaxChunks
    ensures InRange(s.mi.Map, s.cfg.MaxChunks) && DiskFits(s.cfg, s.disk)
    ensures s.chunk < s.cfg.MaxChunks && s.next < s.cfg.MaxChunks && s.next != s.chunk
    ensures s.finalized <= s.purge <= LAST_PURGE_POS && s.finalized % 0x200 == 0 && s.purge % 0x200 == 0
  {
  }

  // What a purge that failed may have left on the device.
  ghost predicate PurgeTorn(s: Ctx, d: Disk)
    requires s.purge < LAST_PURGE_POS
  {
    exists k: nat :: k <= 0x200 && d == Torn(s, k).disk
  }

  function RelocationSet(s: Ctx, table: Table): (r: Ctx) {
    s.(reloc := Reloc(table, s.reloc.mem, 0, 0, 0,
                      (LAST_PURGE_POS - s.purge) / 8, s.mi.info[s.next].Used, true, s.reloc.done))
  }

  // A purge up to its completion, and the completion.
  function PurgeSent(s: Ctx): (r: Ctx)
    requires s.purge < LAST_PURGE_POS
  {
    PurgeSlotFits(s);
    s.(table := Splice(s.table, s.purge / 8, PurgeEntries(s.cache)),
       cache := s.cache.(mem := PurgeImage(s)),
       disk := s.disk.(data := Splice(s.disk.data, Plba(s.chunk, s.purge), PurgeImage(s))))
  }

  function Advanced(s: Ctx): (r: Ctx)
    requires s.purge < LAST_PURGE_POS
  {
    s.(cache := s.cache.(pos := 0), purge := s.purge + 0x200, reloc := s.reloc.(done := false), dirty := false)
  }

  function PurgeCounted(s: Ctx): (r: Ctx)
    requires s.purge < LAST_PURGE_POS && s.cache.mem[0x1f8].Record?
  {
    PurgeSlotFits(s);
    var entries := s.cache.mem[0x1f8].purgeCtl.LBA[..(s.cache.pos + 7) / 8];
    Advanced(s.(mi := BlockLog.UpdateMap(s.mi, entries, s.chunk, Plba(s.chunk, s.purge))))
  }

  lemma PurgeInTwo(s: Ctx)
    requires s.purge < LAST_PURGE_POS
    ensures var t := PurgeSent(s);
            t.purge == s.purge && t.cache.mem[0x1f8].Record? && PurgeCounted(t) == PurgeCache(s)
  {
  }

  lemma PurgeSlotFits(s: Ctx)
    requires s.purge < LAST_PURGE_POS
    ensures s.purge / 8 + 0x40 <= 0x7fc0 && Plba(s.chunk, s.purge) + 0x200 <= |s.disk.data|
    ensures ChunkOf(Plba(s.chunk, s.purge)) == s.chunk
    ensures Plba(s.chunk, s.purge) + 0x200 <= Plba(s.chunk + 1, 0)
  {
    ChunksApart(s.chunk, s.cfg.MaxChunks);
    InChunkIff(Plba(s.chunk, s.purge), s.chunk);
  }
}
