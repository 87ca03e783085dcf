// What formatting leaves on the device (driver/config.c), and that recovery makes a context
// with the invariant of it: the start of every run.
module Format {
  import opened Geometry
  import opened BlockLog
  import opened Model
  import opened Invariant
  import opened LogicalDisk
  import opened DeviceKeeping
  import opened Writing
  import opened Termination
  import opened Flushing
  import opened Recovery
  import opened Crash
  import opened TornControl
  import opened Salvage
  import opened Unflagged
  import Runs

  // The control block written for chunk 1. On fixed media block 0, the new partition table,
  // is already stored there.
  function FormatCtl(cfg: Config, before: ChunkCtl, fixed: bool): ChunkCtl {
    ChunkCtl(true, LEVELING_VERSION, cfg.CCN, 1, (if before.Intact then before.WCN else 0) + 1, 1, 0,
             0, if fixed then 0x200 else 0,
             if fixed then Splice(before.LBA, 0, FirstEntries()) else before.LBA)
  }

  function FirstEntries(): (r: Entries)
    ensures r[0] == 0 && forall i | 1 <= i < 0x40 :: r[i] == NOT_MAPPED
  {
    seq(0x40, i => if i == 0 then 0 else NOT_MAPPED)
  }

  function FormatRecord(cfg: Config): PurgeCtl {
    PurgeCtl(LEVELING_VERSION, cfg.CCN, 1, 1, 0, FirstEntries(), cfg.Magic)
  }

  // The device after formatting: boot goes to the first 65 sectors, and on fixed media
  // image, with its control sector, to the first purge slot of chunk 1.
  function FormatDisk(cfg: Config, d: Disk, fixed: bool, image: seq<Sector>, boot: seq<Sector>): (r: Disk)
    requires cfg.Valid() && DiskFits(cfg, d) && |image| == 0x200 && |boot| == 65
    ensures DiskFits(cfg, r)
  {
    var data := if fixed then Splice(d.data, 0x40000, image[0x1f8 := Record(FormatRecord(cfg))]) else d.data;
    Disk(Splice(data, 0, boot), d.ctl[1 := FormatCtl(cfg, d.ctl[1], fixed)])
  }

  // No control block carries the new CCN, and no sector passes for a purge record of the
  // new format.
  ghost predicate Fresh(cfg: Config, d: Disk) {
    && (forall c | 0 <= c < |d.ctl| :: d.ctl[c].CCN != cfg.CCN)
    && (forall i | 0 <= i < |d.data| :: !Ours(cfg, d.data[i]))
  }

  function FormatMap(cfg: Config, fixed: bool): (m: seq<nat>)
    requires cfg.Valid()
    ensures |m| == cfg.SizeOfMap && InRange(m, cfg.MaxChunks)
    ensures forall b | 0 <= b < |m| :: m[b] == if fixed && b == 0 then 0x40000 else NOT_MAPPED
  {
    seq(cfg.SizeOfMap, b => if fixed && b == 0 then 0x40000 else NOT_MAPPED)
  }

  // The context a freshly formatted device stands for.
  function Formatted(cfg: Config, d: Disk, fixed: bool): Ctx
    requires cfg.Valid() && DiskFits(cfg, d) && d.ctl[1].End == (if fixed then 0x200 else 0)
  {
    var info := seq(cfg.MaxChunks, c => ChunkInfo(if c == 1 then 1 else 0, 0, if fixed && c == 1 then 1 else 0));
    var pos := d.ctl[1].End;
    State(cfg, MapInfo(FormatMap(cfg, fixed), info), 1, 0, d.ctl[1].LBA, pos, pos, EmptyCache(), IdleReloc(), false, d)
  }

  lemma FormattedLatest(cfg: Config, d: Disk, fixed: bool, image: seq<Sector>, boot: seq<Sector>)
    requires cfg.Valid() && DiskFits(cfg, d) && Fresh(cfg, d) && |image| == 0x200 && |boot| == 65
    ensures var w := Formatted(cfg, FormatDisk(cfg, d, fixed, image, boot), fixed);
            IsLatest(Segs(w), w.mi.Map)
  {
    var w := Formatted(cfg, FormatDisk(cfg, d, fixed, image, boot), fixed);
    forall b | 0 <= b < cfg.SizeOfMap ensures LatestFor(Segs(w), w.mi.Map[b], b) {
      assert forall c | 0 <= c < cfg.MaxChunks && c != 1 :: Segs(w)[c].lo == Segs(w)[c].hi;
      assert fixed ==> forall k | 0 <= k < 0x40 :: w.table[k] == FirstEntries()[k];
    }
  }

  lemma FormattedRecords(cfg: Config, d: Disk, fixed: bool, image: seq<Sector>, boot: seq<Sector>)
    requires cfg.Valid() && DiskFits(cfg, d) && Fresh(cfg, d) && |image| == 0x200 && |boot| == 65
    requires forall i | 0 <= i < 65 :: !Ours(cfg, boot[i])
    ensures Recorded(Formatted(cfg, FormatDisk(cfg, d, fixed, image, boot), fixed))
  {
    var w := Formatted(cfg, FormatDisk(cfg, d, fixed, image, boot), fixed);
    forall c, q | 0 <= c < cfg.MaxChunks && 0 <= q < LAST_PURGE_POS && q % 0x200 == 0 ensures Dated(w, c, q) {
      ControlApart(cfg.MaxChunks, c, q, 1, 0);
    }
  }

  lemma FormattedCounts(cfg: Config, d: Disk, fixed: bool)
    requires cfg.Valid() && DiskFits(cfg, d) && d.ctl[1].End == (if fixed then 0x200 else 0)
    ensures UsedCounts(Formatted(cfg, d, fixed).mi)
  {
    var w := Formatted(cfg, d, fixed);
    forall c | 0 <= c < cfg.MaxChunks ensures w.mi.info[c].Used == CountIn(w.mi.Map, c) {
      CountOne(w.mi.Map, c);
    }
  }

  // A formatted device satisfies what recovery needs.
  lemma FormattedDurable(cfg: Config, d: Disk, fixed: bool, image: seq<Sector>, boot: seq<Sector>)
    requires cfg.Valid() && DiskFits(cfg, d) && Fresh(cfg, d) && |image| == 0x200 && |boot| == 65
    requires forall i | 0 <= i < 65 :: !Ours(cfg, boot[i])
    ensures Durable(Formatted(cfg, FormatDisk(cfg, d, fixed, image, boot), fixed))
  {
    var w := Formatted(cfg, FormatDisk(cfg, d, fixed, image, boot), fixed);
    FormattedLatest(cfg, d, fixed, image, boot);
    FormattedRecords(cfg, d, fixed, image, boot);
    FormattedCounts(cfg, w.disk, fixed);
    forall c | 0 <= c < cfg.MaxChunks ensures SegmentOk(Segs(w)[c], cfg.SizeOfMap) {
      assert fixed ==> forall k | 0 <= k < 0x40 :: w.table[k] == FirstEntries()[k];
    }
  }

  // Formatting and recovering gives an empty map, but for block 0 on fixed media.
  lemma FormatThenRecover(cfg: Config, d: Disk, fixed: bool, image: seq<Sector>, boot: seq<Sector>)
    requires cfg.Valid() && DiskFits(cfg, d) && Fresh(cfg, d) && |image| == 0x200 && |boot| == 65
    requires forall i | 0 <= i < 65 :: !Ours(cfg, boot[i])
    ensures var d' := FormatDisk(cfg, d, fixed, image, boot);
            var s := Recover(cfg, d');
            && Inv(s) && s.mi.Map == FormatMap(cfg, fixed) && s.cache.pos == 0
            && s.chunk == 1 && s.purge == (if fixed then 0x200 else 0) && s.cfg == cfg && s.disk == d'
  {
    FormattedDurable(cfg, d, fixed, image, boot);
    RecoveryRebuilds(Formatted(cfg, FormatDisk(cfg, d, fixed, image, boot), fixed));
  }

  // The first chunk has no predecessor.
  lemma FormattedFirst(cfg: Config, d: Disk, fixed: bool, image: seq<Sector>, boot: seq<Sector>)
    requires cfg.Valid() && DiskFits(cfg, d) && Fresh(cfg, d) && |image| == 0x200 && |boot| == 65
    ensures var w := Formatted(cfg, FormatDisk(cfg, d, fixed, image, boot), fixed);
            !Followed(w) && First(w) && Traced(w)
  {
    var w := Formatted(cfg, FormatDisk(cfg, d, fixed, image, boot), fixed);
    forall c | 0 <= c < cfg.MaxChunks && c != w.chunk ensures !Accepted(cfg, w.disk.ctl[c]) {
      assert w.disk.ctl[c] == d.ctl[c];
    }
    ControlApart(cfg.MaxChunks, 1, 0, 1, 0);
    FormattedSlot(cfg, d, fixed, image, boot);
    hide Accepted, FormatDisk;
  }

  lemma FormattedSlot(cfg: Config, d: Disk, fixed: bool, image: seq<Sector>, boot: seq<Sector>)
    requires cfg.Valid() && DiskFits(cfg, d) && Fresh(cfg, d) && |image| == 0x200 && |boot| == 65
    ensures FirstSlotDated(Formatted(cfg, FormatDisk(cfg, d, fixed, image, boot), fixed))
  {
    ControlApart(cfg.MaxChunks, 1, 0, 1, 0);
  }

  lemma FormatTraced(cfg: Config, d: Disk, fixed: bool, image: seq<Sector>, boot: seq<Sector>)
    requires cfg.Valid() && DiskFits(cfg, d) && Fresh(cfg, d) && |image| == 0x200 && |boot| == 65
    requires forall i | 0 <= i < 65 :: !Ours(cfg, boot[i])
    ensures var s := Recover(cfg, FormatDisk(cfg, d, fixed, image, boot));
            s.cfg == cfg && Traced(s) && !Followed(s)
  {
    var w := Formatted(cfg, FormatDisk(cfg, d, fixed, image, boot), fixed);
    hide Durable, Recover, FormatDisk, Fresh, Ours, Traced, Followed, First;
    FormattedDurable(cfg, d, fixed, image, boot);
    FormattedFirst(cfg, d, fixed, image, boot);
    RecoverTraced(w);
    RecoveryRebuilds(w);
    FollowedFrame(w, Recover(cfg, w.disk));
  }

  // The logical disk after formatting: the partition table on fixed media, and zeros.
  function FormatContents(cfg: Config, fixed: bool, image: seq<Sector>): (r: seq<Sector>)
    requires |image| == 0x200
    ensures |r| == 8 * cfg.SizeOfMap
  {
    seq(8 * cfg.SizeOfMap, x requires 0 <= x => if fixed && x < 8 then image[x] else Zero)
  }

  lemma FormatStores(cfg: Config, d: Disk, fixed: bool, image: seq<Sector>, boot: seq<Sector>, s: Ctx, x: nat)
    requires cfg.Valid() && DiskFits(cfg, d) && |image| == 0x200 && |boot| == 65
    requires s.cfg == cfg && s.disk == FormatDisk(cfg, d, fixed, image, boot) && s.mi.Map == FormatMap(cfg, fixed)
    requires x / 8 < cfg.SizeOfMap
    ensures StoredAt(s, x) == FormatContents(cfg, fixed, image)[x]
  {
    assert |d.data| >= 0x40000 * 7;
  }

  // Every run from a freshly formatted device behaves like the array of sectors that the
  // format promises.
  lemma RunFromFormat(cfg: Config, d: Disk, fixed: bool, image: seq<Sector>, boot: seq<Sector>, events: seq<Runs.Event>)
    requires cfg.Valid() && DiskFits(cfg, d) && Fresh(cfg, d) && |image| == 0x200 && |boot| == 65
    requires forall i | 0 <= i < 65 :: !Ours(cfg, boot[i])
    ensures var s := Recover(cfg, FormatDisk(cfg, d, fixed, image, boot));
            var m := Runs.Machine(s, Runs.Idle);
            var c := FormatContents(cfg, fixed, image);
            && Runs.RunOk(m) && Runs.Represents(s, Runs.Contents(c, c))
            && var (m', c') := Runs.RunOf(m, Runs.Contents(c, c), events);
               Runs.RunOk(m') && Runs.Represents(m'.ctx, c')
  {
    hide Inv, Recover, FormatDisk, FormatMap, FormatContents, StoredAt, ReadSector, Shown, Fresh, Ours;
    FormatThenRecover(cfg, d, fixed, image, boot);
    FormatShows(cfg, d, fixed, image, boot);
    FormatTraced(cfg, d, fixed, image, boot);
    var s, c := Recover(cfg, FormatDisk(cfg, d, fixed, image, boot)), FormatContents(cfg, fixed, image);
    Runs.NothingCached(s);
    hide Runs.RunOf, Traced;
    Runs.RunRefines(Runs.Machine(s, Runs.Idle), Runs.Contents(c, c), events);
  }

  // ---- Writes that the next flush leaves behind or damages

  // On any freshly formatted device, a write inside one block completes, but neither it nor a
  // following flush makes it durable: a restart finds the device as it was formatted.
  lemma FlushLosesWrite(cfg: Config, d: Disk, fixed: bool, image: seq<Sector>, boot: seq<Sector>,
                        j: Job, finalize: bool)
    requires cfg.Valid() && DiskFits(cfg, d) && Fresh(cfg, d) && |image| == 0x200 && |boot| == 65
    requires forall i | 0 <= i < 65 :: !Ours(cfg, boot[i])
    requires JobFits(cfg, j) && j.done == 0 && InsideBlock(j)
    ensures var s := Recover(cfg, FormatDisk(cfg, d, fixed, image, boot));
            && Inv(s) && s.cfg == cfg
            && var t := WriteRun(s, j).0;
               && Inv(t) && t.cfg == cfg && Written(s, t, j.lba, j.data)
               && Recovers(cfg, FlushRun(t, finalize).disk, FormatContents(cfg, fixed, image))
  {
    FormatThenRecover(cfg, d, fixed, image, boot);
    FormatShows(cfg, d, fixed, image, boot);
    hide Inv, Recover, FormatDisk, FormatMap, FormatContents, Recovers, Written, InsideBlock;
    SubBlockWriteLost(Recover(cfg, FormatDisk(cfg, d, fixed, image, boot)), j, finalize);
  }

  // On any freshly formatted device, a write that fits in the cache and does not lie inside one
  // block is durable behind any flush: exactly then a restart finds its data.
  lemma FlushKeepsWriteExactly(cfg: Config, d: Disk, fixed: bool, image: seq<Sector>, boot: seq<Sector>,
                               j: Job, finalize: bool)
    requires cfg.Valid() && DiskFits(cfg, d) && Fresh(cfg, d) && |image| == 0x200 && |boot| == 65
    requires forall i | 0 <= i < 65 :: !Ours(cfg, boot[i])
    requires JobFits(cfg, j) && j.done == 0 && j.data != [] && j.lba % 8 + |j.data| <= LAST_CACHE_POS
    ensures var s := Recover(cfg, FormatDisk(cfg, d, fixed, image, boot));
            && Inv(s) && s.cfg == cfg
            && var t := WriteRun(s, j).0;
               && Inv(t) && t.cfg == cfg && Written(s, t, j.lba, j.data)
               && var before := FormatContents(cfg, fixed, image);
                  Recovers(cfg, FlushRun(t, finalize).disk,
                           if InsideBlock(j) then before else Splice(before, j.lba, j.data))
  {
    FormatThenRecover(cfg, d, fixed, image, boot);
    FormatShows(cfg, d, fixed, image, boot);
    RecoveredIsIdle(cfg, FormatDisk(cfg, d, fixed, image, boot));
    var s := Recover(cfg, FormatDisk(cfg, d, fixed, image, boot));
    NothingToRelocate(s, fixed);
    hide Inv, Recover, FormatDisk, FormatMap, FormatContents, Recovers, Written, InsideBlock, WriteRun, FlushRun;
    FlushStoresExactly(s, j, finalize);
  }

  lemma FormatShows(cfg: Config, d: Disk, fixed: bool, image: seq<Sector>, boot: seq<Sector>)
    requires cfg.Valid() && DiskFits(cfg, d) && Fresh(cfg, d) && |image| == 0x200 && |boot| == 65
    requires forall i | 0 <= i < 65 :: !Ours(cfg, boot[i])
    ensures var s := Recover(cfg, FormatDisk(cfg, d, fixed, image, boot));
            s.cfg == cfg && Shown(s) == FormatContents(cfg, fixed, image)
  {
    FormatThenRecover(cfg, d, fixed, image, boot);
    var s, c := Recover(cfg, FormatDisk(cfg, d, fixed, image, boot)), FormatContents(cfg, fixed, image);
    hide Inv, Recover, FormatDisk, FormatMap, FormatContents, StoredAt, ReadSector;
    forall x: nat | x / 8 < cfg.SizeOfMap ensures c[x] == ReadSector(s, x) {
      FormatStores(cfg, d, fixed, image, boot, s, x);
      Runs.NothingCached(s);
    }
    Is(c, s);
  }

  // A sector that was written and flushed, and reads as zeros after the next restart.
  ghost predicate LostByFlush(t: Ctx, lba: nat, v: Sector) {
    && Inv(t) && lba / 8 < t.cfg.SizeOfMap && ReadSector(t, lba) == v && v != Zero
    && exists disk: seq<Sector> :: lba < |disk| && Recovers(t.cfg, FlushRun(t, false).disk, disk) && disk[lba] == Zero
  }

  lemma OneSector(cfg: Config, lba: nat, v: Sector)
    requires lba % 8 != 0 && lba % 8 != 7 && lba / 8 < cfg.SizeOfMap
    ensures InsideBlock(Job(lba, [v], 0)) && JobFits(cfg, Job(lba, [v], 0))
  {
  }

  lemma SectorLost(cfg: Config, d: Disk, lba: nat, v: Sector)
    requires cfg.Valid() && DiskFits(cfg, d) && Fresh(cfg, d)
    requires lba % 8 != 0 && lba % 8 != 7 && lba / 8 < cfg.SizeOfMap && v != Zero
    ensures exists t: Ctx :: LostByFlush(t, lba, v)
  {
    hide Inv, Recovers, WriteRun, FlushRun, Recover, FormatDisk, ReadSector, InsideBlock, Fresh;
    var j := Job(lba, [v], 0);
    var s := Recover(cfg, FormatDisk(cfg, d, false, Zeros(0x200), Zeros(65)));
    OneSector(cfg, lba, v);
    FlushLosesWrite(cfg, d, false, Zeros(0x200), Zeros(65), j, false);
    var t := WriteRun(s, j).0;
    assert FormatContents(cfg, false, Zeros(0x200))[lba] == Zero;
    assert LostByFlush(t, lba, v);
  }

  lemma FlushLosesWriteExample()
    ensures exists t: Ctx :: LostByFlush(t, 1, User(7))
  {
    hide LostByFlush;
    SectorLost(Config(1, 7, 8, 7, 50, 50), Disk(Zeros(0x1c0000), seq(7, i => BlankCtl())), 1, User(7));
  }

  // A whole block is written and flushed, then a sector inside it is written: a finalising
  // flush now changes what the client reads, on any freshly formatted device.
  lemma FinaliseDamages(cfg: Config, d: Disk, fixed: bool, image: seq<Sector>, boot: seq<Sector>,
                        whole: Job, inside: Job)
    requires cfg.Valid() && DiskFits(cfg, d) && Fresh(cfg, d) && |image| == 0x200 && |boot| == 65
    requires forall i | 0 <= i < 65 :: !Ours(cfg, boot[i])
    requires JobFits(cfg, whole) && JobFits(cfg, inside) && BlockAndInside(whole, inside)
    ensures var s := Recover(cfg, FormatDisk(cfg, d, fixed, image, boot));
            && Inv(s) && s.cfg == cfg
            && var t := BlockThenInside(s, whole, inside);
               && !FlagTellsTruth(t) && t.finalized < t.purge
               && !SameContents(t, FlushRun(t, true))
  {
    FormatThenRecover(cfg, d, fixed, image, boot);
    RecoveredIsIdle(cfg, FormatDisk(cfg, d, fixed, image, boot));
    var s := Recover(cfg, FormatDisk(cfg, d, fixed, image, boot));
    NothingToRelocate(s, fixed);
    hide Inv, Recover, FormatDisk, FormatMap, SameContents, BlockAndInside, BlockThenInside, FlagTellsTruth, FlushRun;
    FinaliseArises(s, whole, inside);
  }

  lemma NothingToRelocate(s: Ctx, fixed: bool)
    requires Inv(s) && s.mi.Map == FormatMap(s.cfg, fixed) && s.chunk == 1
    ensures s.mi.info[s.next].Used == 0
  {
    CountZero(s.mi.Map, s.next);
  }

  lemma RecoveredIsIdle(cfg: Config, d: Disk)
    requires cfg.Valid() && DiskFits(cfg, d)
    ensures !Recover(cfg, d).reloc.done && !Recover(cfg, d).dirty
  {
  }

  // A block is written and flushed, then the first control block since formatting breaks: a
  // restart finds nothing, on any freshly formatted device.
  lemma FirstControlLost(cfg: Config, d: Disk, fixed: bool, image: seq<Sector>, boot: seq<Sector>,
                         whole: Job, left: ChunkCtl)
    requires cfg.Valid() && DiskFits(cfg, d) && Fresh(cfg, d) && |image| == 0x200 && |boot| == 65
    requires forall i | 0 <= i < 65 :: !Ours(cfg, boot[i])
    requires JobFits(cfg, whole) && whole.done == 0 && |whole.data| == 8 && whole.lba % 8 == 0 && !Accepted(cfg, left)
    ensures var s := Recover(cfg, FormatDisk(cfg, d, fixed, image, boot));
            && Inv(s) && s.cfg == cfg
            && var t := WriteRun(s, whole).0;
               && Inv(t) && t.cfg == cfg
               && var u := FlushRun(t, false);
                  && u.cfg == cfg && Written(s, u, whole.lba, whole.data)
                  && (forall x: nat | x / 8 < cfg.SizeOfMap ::
                        StoredAt(u, x) == ReadSector(u, x) && ReadSector(Recover(cfg, LeftOn(u, left)), x) == Zero)
  {
    hide Inv, Recover, FormatDisk, FormatMap, SameContents, Accepted, Fresh, Ours, Traced, Followed;
    FormatThenRecover(cfg, d, fixed, image, boot);
    FormatTraced(cfg, d, fixed, image, boot);
    RecoveredIsIdle(cfg, FormatDisk(cfg, d, fixed, image, boot));
    var s := Recover(cfg, FormatDisk(cfg, d, fixed, image, boot));
    NothingToRelocate(s, fixed);
    BlockStaysFirst(s, whole, left);
  }
}
