// The invariant of a leveling context: the block map is the newest view of the chunk tables,
// the device holds enough to rebuild it, and relocation is on schedule.
module Invariant {
  import opened Geometry
  import opened BlockLog
  import opened Model

  // ---- The cache holds whole blocks, each once, with at most one unfinished block at the end

  // Two sectors belong to one block exactly when they are cached in one line of 8.
  ghost predicate OneLine(c: Cache, p: nat, q: nat)
    requires p < c.pos && q < c.pos
  {
    c.lba[p] / 8 == c.lba[q] / 8 <==> p / 8 == q / 8
  }

  ghost predicate Placed(c: Cache, blocks: nat, p: nat)
    requires p < c.pos
  {
    c.lba[p] % 8 == p % 8 && c.lba[p] / 8 < blocks
  }

  ghost predicate CacheOk(c: Cache, blocks: nat) {
    && (forall p | 0 <= p < c.pos :: Placed(c, blocks, p))
    && (forall p, q | 0 <= p < c.pos && 0 <= q < c.pos :: OneLine(c, p, q))
  }

  // ---- The log

  // Whether recovery accepts a control block.
  predicate Accepted(cfg: Config, ctl: ChunkCtl) {
    && ctl.Intact && ctl.Version == LEVELING_VERSION
    && ctl.CCN == cfg.CCN
    && ctl.Start % SIZE_OF_CACHE == 0 && ctl.End % SIZE_OF_CACHE == 0
    && ctl.Start <= ctl.End <= LAST_PURGE_POS
    && ctl.NextChunkNo < cfg.MaxChunks
  }

  function View(cfg: Config, ctl: ChunkCtl): Segment {
    if Accepted(cfg, ctl) then Segment(ctl.SCN, ctl.Start / 8, ctl.End / 8, ctl.LBA)
    else Segment(0, 0, 0, ctl.LBA)
  }

  // The log as the control blocks on the device tell it.
  function Views(cfg: Config, ctl: seq<ChunkCtl>): (r: seq<Segment>)
    ensures |r| == |ctl| && forall c | 0 <= c < |r| :: r[c] == View(cfg, ctl[c])
  {
    seq(|ctl|, c requires 0 <= c < |ctl| => View(cfg, ctl[c]))
  }

  function SCNow(s: Ctx): nat
    requires s.chunk < |s.mi.info|
  {
    s.mi.info[s.chunk].SCN
  }

  // What the current chunk would contribute if it were finalised now.
  function Current(s: Ctx): Segment
    requires s.chunk < |s.mi.info|
  {
    Segment(SCNow(s), StartSlot(s.chunk), s.purge / 8, s.table)
  }

  // The log as it stands in memory.
  function Segs(s: Ctx): (r: seq<Segment>)
    ensures |r| == s.cfg.MaxChunks && r[s.chunk] == Current(s)
    ensures forall c | 0 <= c < |r| && c != s.chunk :: r[c] == View(s.cfg, s.disk.ctl[c])
  {
    Views(s.cfg, s.disk.ctl)[s.chunk := Current(s)]
  }

  ghost predicate Sequenced(s: Ctx)
  {
    && StartOf(s.chunk) <= s.finalized
    && (forall c | 0 <= c < s.cfg.MaxChunks && c != s.chunk && Accepted(s.cfg, s.disk.ctl[c]) ::
          s.mi.info[c].SCN == s.disk.ctl[c].SCN < SCNow(s) && StartOf(c) <= s.disk.ctl[c].Start)
    && (forall c, d | 0 <= c < d < s.cfg.MaxChunks
                      && Accepted(s.cfg, s.disk.ctl[c]) && Accepted(s.cfg, s.disk.ctl[d]) ::
          s.disk.ctl[c].SCN != s.disk.ctl[d].SCN)
  }

  // Named blocks start at a block boundary, and no block sits where a purge's control
  // sector goes.
  ghost predicate SegmentOk(g: Segment, blocks: nat) {
    forall k | g.lo <= k < g.hi <= |g.tab| && g.tab[k] / 8 < blocks :: g.tab[k] % 8 == 0 && k % 0x40 != 0x3f
  }

  ghost predicate LogOk(s: Ctx)
  {
    && Sequenced(s)
    && (forall c | 0 <= c < s.cfg.MaxChunks :: SegmentOk(Segs(s)[c], s.cfg.SizeOfMap))
    && IsLatest(Segs(s), s.mi.Map)
    && UsedCounts(s.mi)
  }

  // ---- What the device remembers about the current chunk

  // The current chunk was finalised (perhaps before it was full) since it became current.
  ghost predicate Finalised(s: Ctx)
  {
    var ctl := s.disk.ctl[s.chunk];
    && Accepted(s.cfg, ctl) && ctl.SCN == SCNow(s)
    && ctl.Start == StartOf(s.chunk) && ctl.End == s.finalized
    && (s.finalized == LAST_PURGE_POS ==> ctl.NextChunkNo == s.next)
    && forall k | StartSlot(s.chunk) <= k < s.finalized / 8 :: ctl.LBA[k] == s.table[k]
  }

  ghost predicate Superseded(segs: seq<Segment>, c: nat, b: int)
    requires c < |segs|
  {
    exists d, k | 0 <= d < |segs| && d != c :: Names(segs[d], k, b) && segs[d].scn > segs[c].scn
  }

  predicate LeadsTo(s: Ctx, p: int)
  {
    && 0 <= p < s.cfg.MaxChunks && p != s.chunk
    && var ctl := s.disk.ctl[p];
       Accepted(s.cfg, ctl) && ctl.SCN + 1 == SCNow(s) && ctl.End == LAST_PURGE_POS && ctl.NextChunkNo == s.chunk
  }

  // The current chunk was entered from a full chunk and not finalised since; whatever its
  // old control block still names has a newer copy elsewhere.
  ghost predicate Entered(s: Ctx)
  {
    && s.finalized == StartOf(s.chunk)
    && (exists p :: LeadsTo(s, p))
    && (Accepted(s.cfg, s.disk.ctl[s.chunk]) ==> s.disk.ctl[s.chunk].SCN < SCNow(s))
    && forall k, b | 0 <= b < s.cfg.SizeOfMap && Names(View(s.cfg, s.disk.ctl[s.chunk]), k, b) ::
         Superseded(Views(s.cfg, s.disk.ctl), s.chunk, b)
  }

  function ControlAt(chunk: int, q: int): int {
    0x40000 * chunk + q + 0x1f8
  }

  predicate Ours(cfg: Config, sector: Sector) {
    && sector.Record?
    && sector.purgeCtl.Version == LEVELING_VERSION
    && sector.purgeCtl.CCN == cfg.CCN && sector.purgeCtl.Magic == cfg.Magic
  }

  // An entry of a purge record names a block of the map or nothing.
  predicate NamesOrNot(cfg: Config, lba: nat) {
    lba / 8 < cfg.SizeOfMap || lba == NOT_MAPPED
  }

  ghost predicate RecordAt(s: Ctx, q: int)
    requires 0 <= q < s.purge && q % 0x200 == 0
  {
    var at := ControlAt(s.chunk, q);
    && 0 <= at < |s.disk.data| && Ours(s.cfg, s.disk.data[at])
    && var rec := s.disk.data[at].purgeCtl;
       && rec.SCN == SCNow(s) && rec.ChunkNo == s.chunk && rec.PurgePos == q
       && forall i | 0 <= i < 0x40 :: rec.LBA[i] == s.table[q / 8 + i] && NamesOrNot(s.cfg, rec.LBA[i])
  }

  // A purge record left over from an earlier life of a chunk can be told by its SCN.
  ghost predicate Dated(s: Ctx, c: int, q: int)
  {
    var at := ControlAt(c, q);
    0 <= at < |s.disk.data| && Ours(s.cfg, s.disk.data[at]) ==>
      var rec := s.disk.data[at].purgeCtl;
      rec.SCN < SCNow(s) || (rec.SCN == SCNow(s) && c == s.chunk && q < s.purge)
  }

  ghost predicate Recorded(s: Ctx)
  {
    && (forall q | s.finalized <= q < s.purge && q % 0x200 == 0 :: RecordAt(s, q))
    && (forall c, q | 0 <= c < s.cfg.MaxChunks && 0 <= q < LAST_PURGE_POS && q % 0x200 == 0 :: Dated(s, c, q))
  }

  // ---- Relocation

  function Remaining(s: Ctx): int {
    (LAST_PURGE_POS - s.purge) / 8
  }

  // The victim fits in what is left of the current chunk at 63 blocks a purge, with room to
  // spare; when nothing is left, it is empty.
  predicate Room(used: int, remaining: int) {
    if remaining == 0 then used == 0 else 64 * used < 63 * remaining
  }

  // Everything that decides what recovery will rebuild.
  ghost predicate Durable(s: Ctx) {
    && Fits(s)
    && LogOk(s)
    && (Finalised(s) || Entered(s))
    && Recorded(s)
    && Room(s.mi.info[s.next].Used, Remaining(s))
  }

  ghost predicate CachedBlock(c: Cache, b: int)
  {
    exists p | 0 <= p < c.pos :: c.lba[p] / 8 == b
  }

  // The blocks that the next purge takes out of the victim.
  ghost function Outgoing(s: Ctx): nat
    requires CacheOk(s.cache, s.cfg.SizeOfMap)
  {
    HeadsInMap(s.cache, s.mi.Map);
    Displaced(s.mi.Map, Heads(s.cache), s.next)
  }

  lemma HeadsInMap(c: Cache, m: seq<nat>)
    requires CacheOk(c, |m|)
    ensures InMap(m, Heads(c))
  {
    forall i | 0 <= i < |Heads(c)| ensures Heads(c)[i] / 8 < |m| {
      assert Placed(c, |m|, 8 * i);
    }
  }

  ghost predicate InVictim(s: Ctx, p: nat, limit: int) {
    && p != NOT_MAPPED && InChunk(p, s.next) && 8 * SlotOf(p) < limit
  }

  ghost predicate WindowOk(s: Ctx)
  {
    var at := Plba(s.next, s.reloc.start);
    forall k | 0 <= k < s.reloc.end - s.reloc.start && at + k < |s.disk.data| ::
      s.reloc.mem[k] == s.disk.data[at + k]
  }

  // How the phases of a context fit together.
  ghost predicate PhasesOk(s: Ctx) {
    && (s.cache.pos > 0 ==> s.purge < LAST_PURGE_POS)
    && (s.dirty ==> s.reloc.done && s.cache.pos > 0)
    && (s.reloc.done ==> s.reloc.prepared && s.purge < LAST_PURGE_POS)
    && (!s.reloc.prepared ==> s.cache.pos == 0)
  }

  // The blocks still in the victim do not outnumber what the rest of the current chunk will
  // have taken over at the rate source / target; once relocation is done for a purge, this
  // already accounts for that purge.
  ghost predicate OnSchedule(s: Ctx)
    requires CacheOk(s.cache, s.cfg.SizeOfMap)
  {
    var r, used := s.reloc, s.mi.info[s.next].Used;
    && 0 <= r.source && 0 < r.target <= TABLE_SIZE && 64 * r.source < 63 * r.target
    && used * r.target <= r.source * Remaining(s)
    && (r.done ==> (used - Outgoing(s)) * r.target <= r.source * (Remaining(s) - 64))
  }

  // The cursor has passed no live block that is not in the cache.
  ghost predicate NoneMissed(s: Ctx) {
    forall b | 0 <= b < s.cfg.SizeOfMap && InVictim(s, s.mi.Map[b], s.reloc.pos) :: CachedBlock(s.cache, b)
  }

  // Until relocation is done for a purge, the cache holds relocated blocks only.
  ghost predicate Staged(s: Ctx)
    requires CacheOk(s.cache, s.cfg.SizeOfMap)
  {
    && s.cache.pos % 8 == 0
    && forall p | 0 <= p < s.cache.pos :: Relocated(s, p)
  }

  ghost predicate Relocated(s: Ctx, p: nat)
    requires p < s.cache.pos
  {
    Placed(s.cache, s.cfg.SizeOfMap, p) && InVictim(s, s.mi.Map[s.cache.lba[p] / 8], s.reloc.pos)
  }

  ghost predicate RelocOk(s: Ctx)
    requires CacheOk(s.cache, s.cfg.SizeOfMap)
  {
    && PhasesOk(s)
    && (s.reloc.prepared ==>
          && OnSchedule(s)
          && s.reloc.table == s.disk.ctl[s.next].LBA
          && WindowOk(s)
          && NoneMissed(s)
          && (!s.reloc.done ==> Staged(s)))
  }

  ghost predicate Inv(s: Ctx) {
    && Durable(s)
    && CacheOk(s.cache, s.cfg.SizeOfMap)
    && RelocOk(s)
  }
}
