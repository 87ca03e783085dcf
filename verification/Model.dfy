// The state of a leveling context (driver/vscsi.h) together with the device behind it, as a
// value, and each device operation or in-memory step of the driver as a function on it.
module Model {
  import opened Geometry
  import opened BlockLog

  datatype Config = Config(
    CCN: nat, Magic: nat, SizeOfMap: nat, MaxChunks: nat, WeightLife: nat, WeightSpeed: nat)
  {
    // What InitializeLevelingCtx and CheckCompletion2 accept.
    predicate Valid() {
      && 0 < SizeOfMap
      && SizeOfMap * 10 <= MaxChunks * 0x40000
      && 7 <= MaxChunks <= 500
    }
  }

  type Table = t: seq<nat> | |t| == 0x7fc0 witness seq(0x7fc0, (i: int) => 0)
  type Entries = e: seq<nat> | |e| == 0x40 witness seq(0x40, (i: int) => 0)

  // Intact stands for a control block whose checksum verifies.
  datatype ChunkCtl = ChunkCtl(
    Intact: bool, Version: nat, CCN: nat, SCN: nat, WCN: nat,
    NextChunkNo: nat, NextChunkWCN: nat, Start: nat, End: nat, LBA: Table)

  datatype PurgeCtl = PurgeCtl(
    Version: nat, CCN: nat, SCN: nat, ChunkNo: nat, PurgePos: nat, LBA: Entries, Magic: nat)

  // A sector's contents. Record is a sector that passes the purge control checksum, Control
  // is one sector of a chunk control block.
  datatype Sector = Zero | User(value: int) | Record(purgeCtl: PurgeCtl) | Control(chunkCtl: ChunkCtl, part: nat)

  // The device: flat sectors addressed by PLBA, and each chunk's control area, which is
  // written as one unit.
  datatype Disk = Disk(data: seq<Sector>, ctl: seq<ChunkCtl>)

  datatype CacheFields = Cache(lba: seq<nat>, mem: seq<Sector>, pos: nat)

  // CacheLBA, CacheMem and CachePos. A cached sector's LBA and contents share a position.
  type Cache = c: CacheFields | |c.lba| == 0x200 && |c.mem| == 0x200 && c.pos <= 0x1f8
    witness Cache(seq(0x200, (i: int) => 0), seq(0x200, (i: int) => Zero), 0)

  datatype RelocFields = Reloc(
    table: Table, mem: seq<Sector>, pos: nat, start: nat, end: nat,
    target: nat, source: int, prepared: bool, done: bool)

  // The relocation cursor, and the window of the victim read into RelocateMem.
  type Reloc = r: RelocFields | RelocFits(r)
    witness Reloc(seq(0x7fc0, (i: int) => 0), seq(0x200, (i: int) => Zero), 0, 0, 0, 0, 0, false, false)

  datatype State = State(
    cfg: Config, mi: MapInfo, chunk: nat, next: nat, table: Table, finalized: nat, purge: nat,
    cache: Cache, reloc: Reloc, dirty: bool, disk: Disk)

  predicate RelocFits(r: RelocFields) {
    && |r.mem| == 0x200
    && r.pos <= LAST_PURGE_POS && r.pos % 8 == 0
    && r.start <= r.end <= LAST_PURGE_POS && r.start % 8 == 0 && r.end % 8 == 0
    && r.end - r.start <= 0x200
  }

  predicate DiskFits(cfg: Config, d: Disk) {
    |d.data| == Plba(cfg.MaxChunks, 0) && |d.ctl| == cfg.MaxChunks
  }

  predicate Fits(s: State) {
    && s.cfg.Valid()
    && |s.mi.Map| == s.cfg.SizeOfMap && |s.mi.info| == s.cfg.MaxChunks
    && InRange(s.mi.Map, s.cfg.MaxChunks)
    && s.chunk < s.cfg.MaxChunks && s.next < s.cfg.MaxChunks && s.next != s.chunk
    && s.finalized <= s.purge <= LAST_PURGE_POS
    && s.finalized % 0x200 == 0 && s.purge % 0x200 == 0
    && DiskFits(s.cfg, s.disk)
  }

  // A context as the driver allocates it: arrays of the configured sizes, positions in range.
  type Ctx = s: State | Fits(s) witness BlankContext()

  function Blank(n: nat): (r: seq<nat>)
    ensures |r| == n && forall i | 0 <= i < n :: r[i] == 0
  {
    seq(n, i => 0)
  }

  function BlankCtl(): ChunkCtl {
    ChunkCtl(false, 0, 0, 0, 0, 0, 0, 0, 0, Blank(0x7fc0))
  }

  function EmptyCache(): (c: Cache)
    ensures c.pos == 0
  {
    Cache(Blank(0x200), Zeros(0x200), 0)
  }

  function IdleReloc(): (r: Reloc)
    ensures !r.prepared && !r.done
  {
    Reloc(Blank(0x7fc0), Zeros(0x200), 0, 0, 0, 0, 0, false, false)
  }

  function BlankContext(): State {
    State(Config(1, 0, 1, 7, 0, 0), MapInfo([NOT_MAPPED], seq(7, i => ChunkInfo(0, 0, 0))), 1, 0,
          Blank(0x7fc0), 0, 0, EmptyCache(), IdleReloc(), false, Disk(Zeros(0x1c0000), seq(7, i => BlankCtl())))
  }

  // ---- Sequence helpers

  function Splice<T>(a: seq<T>, at: nat, b: seq<T>): (r: seq<T>)
    requires at + |b| <= |a|
    ensures |r| == |a|
    ensures forall i | 0 <= i < |a| :: r[i] == if at <= i < at + |b| then b[i - at] else a[i]
  {
    seq(|a|, i requires 0 <= i < |a| => if at <= i < at + |b| then b[i - at] else a[i])
  }

  function Run(first: nat, n: nat): (r: seq<nat>)
    ensures |r| == n && forall i | 0 <= i < n :: r[i] == first + i
  {
    seq(n, i requires 0 <= i => first + i)
  }

  function Zeros(n: nat): (r: seq<Sector>)
    ensures |r| == n && forall i | 0 <= i < n :: r[i] == Zero
  {
    seq(n, i => Zero)
  }

  function ControlSectors(ctl: ChunkCtl): (r: seq<Sector>)
    ensures |r| == 0x100 && forall i | 0 <= i < 0x100 :: r[i] == Control(ctl, i)
  {
    seq(0x100, i requires 0 <= i => Control(ctl, i))
  }

  function U32(x: int): nat {
    x % 0x1_0000_0000
  }

  // ---- The cache

  // GetCachedPos, scanning from position i.
  function FindCached(c: Cache, lba: nat, i: nat): (pos: nat)
    requires i % 8 == 0
    ensures pos != NOT_MAPPED ==> i <= pos < c.pos
    decreases 0x200 - i
  {
    if i >= c.pos then NOT_MAPPED
    else if c.lba[i] == lba - lba % 8 && i + lba % 8 < c.pos then i + lba % 8
    else FindCached(c, lba, i + 8)
  }

  // How far a run of sectors cached at pos continues lba.
  function HitLen(c: Cache, lba: nat, len: nat, pos: nat, n: nat): (r: nat)
    requires pos < c.pos && 1 <= n <= len && pos + n <= c.pos
    ensures n <= r <= len && pos + r <= c.pos
    ensures forall p | pos + n <= p < pos + r :: c.lba[p] == lba + (p - pos)
    decreases len - n
  {
    if n >= len || pos + n >= c.pos || c.lba[pos + n] != lba + n then n
    else HitLen(c, lba, len, pos, n + 1)
  }

  // How many new sectors fit, stopping in front of a block that is already cached.
  function AppendLen(c: Cache, lba: nat, len: nat, n: nat): (r: nat)
    requires 1 <= n <= len && c.pos + n <= LAST_CACHE_POS
    ensures n <= r <= len && c.pos + r <= LAST_CACHE_POS
    ensures forall t | lba + n <= t < lba + r && t % 8 == 0 :: FindCached(c, t, 0) == NOT_MAPPED
    decreases len - n
  {
    if n >= len || c.pos + n >= LAST_CACHE_POS then n
    else if (lba + n) % 8 != 0 then AppendLen(c, lba, len, n + 1)
    else if FindCached(c, lba + n, 0) != NOT_MAPPED then n
    else AppendLen(c, lba, len, n + 1)
  }

  function Push(c: Cache, lba: nat, data: seq<Sector>): (r: Cache)
    requires c.pos + |data| <= LAST_CACHE_POS
  {
    Cache(Splice(c.lba, c.pos, Run(lba, |data|)), Splice(c.mem, c.pos, data), c.pos + |data|)
  }

  // The first sector of each complete cached block.
  function Heads(c: Cache): (r: seq<nat>)
    ensures |r| == c.pos / 8 && forall i | 0 <= i < |r| :: r[i] == c.lba[8 * i]
  {
    seq(c.pos / 8, i requires 0 <= i < c.pos / 8 => c.lba[8 * i])
  }

  // ---- Choosing the chunk to empty next

  function Score(cfg: Config, info: seq<ChunkInfo>, i: nat, wcn: nat): nat
    requires i < |info|
  {
    var speed := info[i].Used;
    var life := if info[i].WCN < wcn then U32(2 * info[i].WCN) else U32(wcn + info[i].WCN);
    U32(U32(speed * U32(1 + cfg.WeightSpeed)) / 32 + U32(life * U32(1 + cfg.WeightLife)))
  }

  // The 90% test.
  predicate Admissible(info: seq<ChunkInfo>, i: nat, purge: nat)
    requires i < |info| && purge <= LAST_PURGE_POS
  {
    info[i].Used * 100 < (LAST_PURGE_POS - purge) / 8 * 90
  }

  // The best score among the admissible chunks from i on; next == chunk means none so far.
  function BestAdmissible(cfg: Config, info: seq<ChunkInfo>, chunk: nat, purge: nat,
                          i: nat, next: nat, minScore: nat): (r: nat)
    requires chunk < |info| && i <= |info| && next < |info| && purge <= LAST_PURGE_POS
    requires next == chunk || Admissible(info, next, purge)
    ensures r < |info| && (r == chunk || Admissible(info, r, purge))
    ensures next != chunk ==> r != chunk
    ensures r == chunk ==> forall c | i <= c < |info| && c != chunk :: !Admissible(info, c, purge)
    decreases |info| - i
  {
    if i == |info| then next
    else if i == chunk || !Admissible(info, i, purge) then
      BestAdmissible(cfg, info, chunk, purge, i + 1, next, minScore)
    else
      var s := Score(cfg, info, i, info[chunk].WCN);
      if next == chunk || minScore > s then BestAdmissible(cfg, info, chunk, purge, i + 1, i, s)
      else BestAdmissible(cfg, info, chunk, purge, i + 1, next, minScore)
  }

  // The least used chunk from i on.
  function LeastUsed(info: seq<ChunkInfo>, chunk: nat, i: nat, next: nat, minScore: int): (r: nat)
    requires chunk < |info| && i <= |info| && next < |info|
    requires next != chunk ==> minScore == info[next].Used
    ensures r < |info|
    ensures r == chunk ==> next == chunk && (i == |info| || i == chunk == |info| - 1)
    ensures r != chunk && next != chunk ==> info[r].Used <= info[next].Used
    ensures r != chunk ==> forall c | i <= c < |info| && c != chunk :: info[r].Used <= info[c].Used
    decreases |info| - i
  {
    if i == |info| then next
    else if i == chunk then LeastUsed(info, chunk, i + 1, next, minScore)
    else if next == chunk || minScore > info[i].Used then LeastUsed(info, chunk, i + 1, i, info[i].Used)
    else LeastUsed(info, chunk, i + 1, next, minScore)
  }

  function FindNextChunk(cfg: Config, info: seq<ChunkInfo>, chunk: nat, purge: nat): (next: nat)
    requires chunk < |info| && 2 <= |info| && purge <= LAST_PURGE_POS
    ensures next < |info| && next != chunk
    ensures Admissible(info, next, purge)
         || forall c | 0 <= c < |info| && c != chunk :: info[next].Used <= info[c].Used
  {
    var best := BestAdmissible(cfg, info, chunk, purge, 0, chunk, 0);
    if best != chunk then best
    else
      LeastUsed(info, chunk, 0, chunk, 0)
  }

  // ---- Device operations

  // The purge control sector for the cached blocks.
  function PurgeEntries(c: Cache): (r: Entries)
  {
    seq(0x40, i requires 0 <= i => if 8 * i >= c.pos then NOT_MAPPED else c.lba[8 * i])
  }

  function PurgeRecord(s: Ctx): PurgeCtl
  {
    PurgeCtl(LEVELING_VERSION, s.cfg.CCN, s.mi.info[s.chunk].SCN, s.chunk, s.purge,
             PurgeEntries(s.cache), s.cfg.Magic)
  }

  // The sectors a purge sends: cached data, with the control sector at LAST_CACHE_POS.
  function PurgeImage(s: Ctx): (r: seq<Sector>)
    ensures |r| == 0x200
  {
    s.cache.mem[0x1f8 := Record(PurgeRecord(s))]
  }

  // ExecutePurgeCache and PurgeCacheCompletion.
  function PurgeCache(s: Ctx): (r: Ctx)
    requires s.purge < LAST_PURGE_POS
  {
    var at := Plba(s.chunk, s.purge);
    var entries := PurgeEntries(s.cache);
    var image := PurgeImage(s);
    assert at + 0x200 <= |s.disk.data| by {
      ChunksApart(s.chunk, s.cfg.MaxChunks);
    }
    s.(mi := UpdateMap(s.mi, entries[..(s.cache.pos + 7) / 8], s.chunk, at),
       table := Splice(s.table, s.purge / 8, entries),
       cache := Cache(s.cache.lba, image, 0),
       purge := s.purge + 0x200,
       reloc := s.reloc.(done := false),
       dirty := false,
       disk := s.disk.(data := Splice(s.disk.data, at, image)))
  }

  // ExecutePurgeChunk and PurgeChunkCompletion. The control block passes through CacheMem.
  function PurgeChunk(s: Ctx): (r: Ctx)
  {
    var info := s.mi.info[s.chunk := s.mi.info[s.chunk].(WCN := s.mi.info[s.chunk].WCN + 1)];
    var ctl := ChunkCtl(true, LEVELING_VERSION, s.cfg.CCN, info[s.chunk].SCN, info[s.chunk].WCN,
                        s.next, info[s.next].WCN, StartOf(s.chunk), s.purge, s.table);
    s.(mi := s.mi.(info := info),
       cache := s.cache.(mem := Splice(s.cache.mem, 0, ControlSectors(ctl))),
       finalized := s.purge,
       disk := s.disk.(ctl := s.disk.ctl[s.chunk := ctl]))
  }

  // The in-memory move to the emptied chunk.
  function SwitchChunk(s: Ctx): (r: Ctx)
  {
    var info := s.mi.info[s.next := s.mi.info[s.next].(SCN := s.mi.info[s.chunk].SCN + 1)];
    var start := StartOf(s.next);
    s.(mi := s.mi.(info := info),
       chunk := s.next, purge := start, finalized := start,
       next := FindNextChunk(s.cfg, info, s.next, start),
       reloc := s.reloc.(prepared := false, done := false))
  }

  // PrepareRelocate and its completion: the victim's control block is read through CacheMem.
  function PrepareRelocate(s: Ctx): (r: Ctx)
  {
    var ctl := s.disk.ctl[s.next];
    s.(cache := s.cache.(mem := Splice(s.cache.mem, 0, ControlSectors(ctl))),
       reloc := Reloc(ctl.LBA, s.reloc.mem, 0, 0, 0,
                      (LAST_PURGE_POS - s.purge) / 8, s.mi.info[s.next].Used, true, s.reloc.done))
  }

  // Whether the victim still stores the block its table names at slot k.
  predicate LiveSlot(m: seq<nat>, table: Table, victim: nat, k: nat)
    requires k < |table|
  {
    table[k] / 8 < |m| && m[table[k] / 8] == Plba(victim, 8 * k)
  }

  // The copying loop of ExecuteRelocateCached.
  function RelocateScan(s: Ctx): (r: Ctx)
    requires s.cache.pos % 8 == 0
    ensures r == s.(cache := r.cache, reloc := s.reloc.(pos := r.reloc.pos, done := r.reloc.done))
    decreases LAST_PURGE_POS - s.reloc.pos
  {
    var r := s.reloc;
    if r.pos >= LAST_PURGE_POS then s.(reloc := r.(done := true))
    else if !LiveSlot(s.mi.Map, r.table, s.next, r.pos / 8) then
      RelocateScan(s.(reloc := r.(pos := r.pos + 8)))
    else if s.cache.pos >= LAST_CACHE_POS then s.(reloc := r.(done := true))
    else if !(r.start <= r.pos < r.end) then s
    else
      var at := r.pos - r.start;
      RelocateScan(s.(cache := Push(s.cache, r.table[r.pos / 8], r.mem[at..at + 8]),
                           reloc := r.(pos := r.pos + 8)))
  }

  // Whether the purge now being filled already moves blocks out fast enough.
  predicate RatioMet(s: Ctx)
    requires s.next < |s.mi.info|
  {
    s.reloc.source * ((LAST_PURGE_POS - 0x200 - s.purge) / 8)
    >= s.reloc.target * (s.mi.info[s.next].Used - s.cache.pos / 8)
  }

  function RelocateCached(s: Ctx): (r: Ctx)
    requires s.cache.pos % 8 == 0
    ensures r == s.(cache := r.cache, reloc := s.reloc.(pos := r.reloc.pos, done := r.reloc.done))
  {
    if RatioMet(s) then s.(reloc := s.reloc.(done := true)) else RelocateScan(s)
  }

  // The end of the window to read, looking from slot position i.
  function WindowEnd(m: seq<nat>, table: Table, victim: nat, start: nat, i: nat, end: nat): (r: nat)
    requires start <= end <= LAST_PURGE_POS && end <= i && i % 8 == 0 && end % 8 == 0 && start % 8 == 0
    requires end - start <= 0x200
    ensures end <= r <= LAST_PURGE_POS && r - start <= 0x200 && r % 8 == 0
    decreases LAST_PURGE_POS - i
  {
    if i < LAST_PURGE_POS && i < start + 0x200 && i < end + 32 then
      WindowEnd(m, table, victim, start, i + 8, if LiveSlot(m, table, victim, i / 8) then i + 8 else end)
    else end
  }

  // ExecuteRelocate and RelocateCompletion.
  function RelocateRead(s: Ctx): (r: Ctx)
  {
    var start := s.reloc.pos;
    var end := WindowEnd(s.mi.Map, s.reloc.table, s.next, start, start, start);
    var at := Plba(s.next, start);
    assert at + (end - start) <= |s.disk.data| by {
      ChunksApart(s.next, s.cfg.MaxChunks);
    }
    s.(reloc := s.reloc.(start := start, end := end,
                         mem := Splice(s.reloc.mem, 0, s.disk.data[at..at + (end - start)])))
  }

  // The stored copy of a sector: what the map points at, or zeros.
  function StoredAt(s: Ctx, lba: nat): Sector
    requires lba / 8 < s.cfg.SizeOfMap
  {
    var p := s.mi.Map[lba / 8];
    if p == NOT_MAPPED || p + lba % 8 >= |s.disk.data| then Zero else s.disk.data[p + lba % 8]
  }

  function Stored(s: Ctx, lba: nat, n: nat): (r: seq<Sector>)
    requires lba / 8 < s.cfg.SizeOfMap && lba % 8 + n <= 8
    ensures |r| == n && forall i | 0 <= i < n :: r[i] == StoredAt(s, lba + i)
  {
    seq(n, i requires 0 <= i < n => StoredAt(s, lba + i))
  }

  // The logical disk: the cached copy of a sector if there is one, else the stored copy.
  function ReadSector(s: Ctx, lba: nat): Sector
    requires lba / 8 < s.cfg.SizeOfMap
  {
    var pos := FindCached(s.cache, lba, 0);
    if pos != NOT_MAPPED then s.cache.mem[pos] else StoredAt(s, lba)
  }
}
