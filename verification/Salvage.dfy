// What a request leaves behind that stops in the middle because the device fails: recovery
// finds what was stored before, or what the client saw at some point of the request.
module Salvage {
  import opened Geometry
  import opened Model
  import opened Invariant
  import opened LogicalDisk
  import opened Relocation
  import opened Writing
  import opened Flushing
  import opened Recovery
  import opened Crash
  import opened TornPurge
  import opened Runs
  import opened Context

  // ---- The two disks of a context, and the one that recovery finds

  // The logical disk.
  function Shown(s: Ctx): (r: seq<Sector>)
    ensures |r| == 8 * s.cfg.SizeOfMap
    ensures forall x: nat | x / 8 < s.cfg.SizeOfMap :: r[x] == ReadSector(s, x)
  {
    seq(8 * s.cfg.SizeOfMap, x requires 0 <= x < 8 * s.cfg.SizeOfMap => ReadSector(s, x))
  }

  // What is stored.
  function Kept(s: Ctx): (r: seq<Sector>)
    ensures |r| == 8 * s.cfg.SizeOfMap
    ensures forall x: nat | x / 8 < s.cfg.SizeOfMap :: r[x] == StoredAt(s, x)
  {
    seq(8 * s.cfg.SizeOfMap, x requires 0 <= x < 8 * s.cfg.SizeOfMap => StoredAt(s, x))
  }

  // Recovery makes a context with the invariant of the device, and its logical disk is disk.
  ghost predicate Recovers(cfg: Config, d: Disk, disk: seq<Sector>) {
    && cfg.Valid() && DiskFits(cfg, d)
    && Inv(Recover(cfg, d)) && Recover(cfg, d).cfg == cfg && Shown(Recover(cfg, d)) == disk
  }

  ghost predicate Salvages(s: Ctx, d: Disk) {
    Recovers(s.cfg, d, Kept(s)) || Recovers(s.cfg, d, Shown(s))
  }

  lemma Is(disk: seq<Sector>, t: Ctx)
    requires |disk| == 8 * t.cfg.SizeOfMap
    requires forall x: nat | x / 8 < t.cfg.SizeOfMap :: disk[x] == ReadSector(t, x)
    ensures disk == Shown(t)
  {
    hide ReadSector;
  }

  lemma SameIsShown(s: Ctx, t: Ctx)
    requires SameContents(s, t)
    ensures Shown(s) == Shown(t)
  {
    hide ReadSector;
    Is(Shown(s), t);
  }

  lemma SameIsKept(s: Ctx, t: Ctx)
    requires t.cfg == s.cfg && t.mi.Map == s.mi.Map && t.disk.data == s.disk.data
    ensures Kept(s) == Kept(t)
  {
    forall x: nat | x / 8 < s.cfg.SizeOfMap ensures StoredAt(s, x) == StoredAt(t, x) {
    }
    hide StoredAt;
  }

  lemma DurableSalvages(s: Ctx, t: Ctx)
    requires Durable(t) && t.cfg == s.cfg && t.mi.Map == s.mi.Map && t.disk.data == s.disk.data
    ensures Recovers(s.cfg, t.disk, Kept(s))
  {
    hide Inv, Durable, Recover, ReadSector, StoredAt;
    SameIsKept(s, t);
    RecoveryRebuilds(t);
    Is(Kept(t), Recover(s.cfg, t.disk));
  }

  lemma SameSalvages(s: Ctx)
    requires Inv(s)
    ensures Recovers(s.cfg, s.disk, Kept(s))
  {
    InvIsDurable(s);
    DurableSalvages(s, s);
  }

  lemma FinalisedSalvages(s: Ctx)
    requires Inv(s)
    ensures Recovers(s.cfg, PurgeChunk(s).disk, Kept(s))
  {
    hide Durable, CacheOk, RelocOk, Recovers;
    PurgeChunkKeepsInv(s);
    DurableSalvages(s, PurgeChunk(s));
  }

  lemma TornSalvages(s: Ctx, d: Disk)
    requires Inv(s) && s.reloc.done && s.purge < LAST_PURGE_POS && s.cache.pos % 8 == 0 && PurgeTorn(s, d)
    ensures Salvages(s, d)
  {
    hide Inv, Recover, PurgeImage, ReadSector, StoredAt;
    var k: nat :| k <= 0x200 && d == Torn(s, k).disk;
    TornPurgeRecovers(s, k);
    if k <= 0x1f8 {
      Is(Kept(s), Recover(s.cfg, d));
    } else {
      Is(Shown(s), Recover(s.cfg, d));
    }
  }

  // ---- A write

  // The first n sectors of data on the disk.
  function With(disk: seq<Sector>, lba: nat, data: seq<Sector>, n: nat): seq<Sector>
    requires n <= |data| && lba + |data| <= |disk|
  {
    Splice(disk, lba, data[..n])
  }

  // disk is the logical disk with some of the first n sectors of the write, from its start.
  ghost predicate Halfway(disk: seq<Sector>, shown: seq<Sector>, lba: nat, data: seq<Sector>, n: nat)
    requires n <= |data| && lba + |data| <= |shown|
  {
    exists k: nat :: k <= n && disk == With(shown, lba, data, k)
  }

  // Recovery finds what was stored before the write, or what the client saw before it with
  // some of the data in place, from its start and without a gap.
  ghost predicate LeftBy(s: Ctx, lba: nat, data: seq<Sector>, d: Disk)
    requires lba + |data| <= 8 * s.cfg.SizeOfMap
  {
    || Recovers(s.cfg, d, Kept(s))
    || exists k: nat :: k <= |data| && Recovers(s.cfg, d, With(Shown(s), lba, data, k))
  }

  // The first done sectors of the request have been written, starting from s0, and purges
  // have stored some of them or none.
  ghost predicate WrittenSoFar(s0: Ctx, s: Ctx, j: Job) {
    && Inv(s) && s.cfg == s0.cfg && JobFits(s.cfg, j) && Written(s0, s, j.lba, j.data[..j.done])
    && (Kept(s) == Kept(s0) || Halfway(Kept(s), Shown(s0), j.lba, j.data, j.done))
  }

  lemma WrittenShows(s0: Ctx, s: Ctx, lba: nat, data: seq<Sector>, n: nat)
    requires n <= |data| && lba + |data| <= 8 * s0.cfg.SizeOfMap && Written(s0, s, lba, data[..n])
    ensures Shown(s) == With(Shown(s0), lba, data, n)
  {
    hide ReadSector;
    Is(With(Shown(s0), lba, data, n), s);
  }

  // A pass either leaves alone what is stored or stores what the client sees.
  lemma PassKeeps(s: Ctx, j: Job)
    requires Inv(s) && JobFits(s.cfg, j) && j.done < |j.data|
    ensures var t := WriteStep(s, j).0; Kept(t) == Kept(s) || Kept(t) == Shown(s)
  {
    hide Inv, WriteStep, Purging, StoredAt;
    StepKeepsInv(s, j);
    if Purging(Machine(s, Write(j))) {
      WritePurges(s, j);
      PurgeKeeps(s);
    } else {
      WriteStepStores(s, j);
      SameIsKept(s, WriteStep(s, j).0);
    }
  }

  lemma LogAndCache(s: Ctx)
    requires Inv(s)
    ensures LogOk(s) && CacheOk(s.cache, s.cfg.SizeOfMap)
  {
  }

  lemma PurgeKeeps(s: Ctx)
    requires Inv(s) && s.purge < LAST_PURGE_POS && s.cache.pos % 8 == 0
    ensures PurgeCache(s).cfg == s.cfg && Kept(PurgeCache(s)) == Shown(s)
  {
    LogAndCache(s);
    hide Inv, StoredAt, ReadSector, PurgeCache, LogOk, CacheOk;
    PurgeReads(s);
    forall x: nat | x / 8 < s.cfg.SizeOfMap ensures StoredAt(PurgeCache(s), x) == ReadSector(s, x) {
      PurgedSector(s, x);
    }
    assert forall x: nat | x / 8 < s.cfg.SizeOfMap :: Kept(PurgeCache(s))[x] == Shown(s)[x];
  }

  lemma HalfwayGrows(disk: seq<Sector>, shown: seq<Sector>, lba: nat, data: seq<Sector>, n: nat, m: nat)
    requires n <= m <= |data| && lba + |data| <= |shown| && Halfway(disk, shown, lba, data, n)
    ensures Halfway(disk, shown, lba, data, m)
  {
    hide With;
  }

  lemma PassWrites(s0: Ctx, s: Ctx, j: Job)
    requires WrittenSoFar(s0, s, j) && j.done < |j.data|
    ensures Inv(s) && JobFits(s.cfg, j)
    ensures var (t, r) := WriteStep(s, j);
            r == Job(j.lba, j.data, r.done) && j.done <= r.done <= |j.data| && WrittenSoFar(s0, t, r)
  {
    hide Inv, Written, WriteStep, Halfway, With;
    StepKeepsInv(s, j);
    PassKeeps(s, j);
    var (t, r) := WriteStep(s, j);
    assert j.data[..j.done] + j.data[j.done..r.done] == j.data[..r.done];
    WrittenJoin(s0, s, t, j.lba, j.data[..j.done], j.data[j.done..r.done]);
    if Kept(t) == Kept(s) {
      if Kept(s) != Kept(s0) {
        HalfwayGrows(Kept(s), Shown(s0), j.lba, j.data, j.done, r.done);
      }
    } else {
      WrittenShows(s0, s, j.lba, j.data, j.done);
      IsHalfway(Kept(t), Shown(s0), j.lba, j.data, j.done);
      HalfwayGrows(Kept(t), Shown(s0), j.lba, j.data, j.done, r.done);
    }
  }

  lemma IsHalfway(disk: seq<Sector>, shown: seq<Sector>, lba: nat, data: seq<Sector>, n: nat)
    requires n <= |data| && lba + |data| <= |shown| && disk == With(shown, lba, data, n)
    ensures Halfway(disk, shown, lba, data, n)
  {
  }

  lemma PassFails(s0: Ctx, s: Ctx, j: Job, d: Disk)
    requires WrittenSoFar(s0, s, j) && Salvages(s, d)
    ensures LeftBy(s0, j.lba, j.data, d)
  {
    hide Inv, Written, Recovers, With;
    if Recovers(s.cfg, d, Shown(s)) {
      WrittenShows(s0, s, j.lba, j.data, j.done);
    }
  }

  lemma PassBegins(s: Ctx, lba: nat, data: seq<Sector>)
    requires Inv(s) && JobFits(s.cfg, Job(lba, data, 0))
    ensures WrittenSoFar(s, s, Job(lba, data, 0))
  {
    hide Inv;
    assert data[..0] == [];
    NothingWritten(s, lba);
  }

  lemma PassEnds(s0: Ctx, s: Ctx, j: Job)
    requires WrittenSoFar(s0, s, j) && j.done == |j.data|
    ensures Inv(s) && Written(s0, s, j.lba, j.data)
  {
    hide Inv, Written;
    assert j.data[..j.done] == j.data;
  }

  // ---- A flush

  // Recovery finds what was stored before the flush or what the client saw, and if the flag
  // did not tell the truth, what was stored.
  ghost predicate HalfFlushed(s: Ctx, d: Disk) {
    Recovers(s.cfg, d, Kept(s)) || (FlagTellsTruth(s) && Recovers(s.cfg, d, Shown(s)))
  }

  // A flush has come from s0 to s.
  ghost predicate FlushedSoFar(s0: Ctx, s: Ctx) {
    && Inv(s) && s.cfg == s0.cfg
    && (FlagTellsTruth(s) <==> FlagTellsTruth(s0))
    && (FlagTellsTruth(s) ==> Shown(s) == Shown(s0))
    && (Kept(s) == Kept(s0) || (FlagTellsTruth(s) && Kept(s) == Shown(s0)))
  }

  lemma FlushPassKeeps(s: Ctx, finalize: bool)
    requires Inv(s)
    ensures FlushedSoFar(s, FlushStep(s, finalize).0)
  {
    hide Durable, RelocOk, CacheOk, SameContents;
    FlushStepKeepsInv(s, finalize);
    if s.cache.pos % 8 != 0 {
      UnalignedIsDone(s);
      FillTailKeepsInv(s);
      FillTailFlag(s);
      SameIsShown(s, FillTail(s));
      SameIsKept(s, FillTail(s));
    } else if s.dirty {
      DirtyIsDone(s);
      PurgedFlag(s);
      SameIsShown(s, PurgeCache(s));
      PurgeKeeps(s);
    } else if finalize && s.finalized < s.purge {
      FinalisedFlag(s);
      PurgeChunkKeepsInv(s);
      if FlagTellsTruth(s) {
        SameIsShown(s, PurgeChunk(s));
      }
      SameIsKept(s, PurgeChunk(s));
    }
  }

  lemma FlushedJoin(s: Ctx, t: Ctx, u: Ctx)
    requires FlushedSoFar(s, t) && FlushedSoFar(t, u)
    ensures FlushedSoFar(s, u)
  {
    hide Inv, FlagTellsTruth, Shown, Kept;
  }

  lemma FlushedNothing(s: Ctx)
    requires Inv(s)
    ensures FlushedSoFar(s, s)
  {
    hide Inv;
  }

  lemma DirtyFacts(s: Ctx)
    requires Inv(s)
    ensures s.dirty ==> s.purge < LAST_PURGE_POS && s.reloc.done && FlagTellsTruth(s)
  {
  }

  lemma FlushPassFails(s0: Ctx, s: Ctx, d: Disk)
    requires FlushedSoFar(s0, s) && FlushReady(s) && FlushLeft(s, d)
    ensures HalfFlushed(s0, d)
  {
    DirtyFacts(s);
    hide Inv, Recovers, PurgeTorn, MapStored, CacheOk, Shown, Kept, FlagTellsTruth;
    if d == s.disk {
      SameSalvages(s);
    } else if d == PurgeChunk(s).disk {
      FinalisedSalvages(s);
    } else {
      TornSalvages(s, d);
    }
  }

  // What a flush leaves that does not fail.
  lemma FlushRecovers(s: Ctx, finalize: bool)
    requires Inv(s)
    ensures Flushed(s, FlushRun(s, finalize), finalize)
    ensures Recovers(s.cfg, FlushRun(s, finalize).disk, if FlagTellsTruth(s) then Shown(s) else Kept(s))
  {
    hide Inv, FlushRun, FlagTellsTruth, SameContents, StoredAt, ReadSector, Recover, Flushed;
    FlushEnds(s, finalize);
    var t := FlushRun(s, finalize);
    FlushedRecoverable(s, t, finalize);
    if FlagTellsTruth(s) {
      FlushIsDurable(s, finalize);
      SameIsShown(s, Recover(s.cfg, t.disk));
    } else {
      UnflaggedIsLost(s, finalize);
      Is(Kept(s), Recover(s.cfg, t.disk));
    }
  }

  lemma FlushedRecoverable(s: Ctx, t: Ctx, finalize: bool)
    requires Flushed(s, t, finalize)
    ensures t.cfg == s.cfg
    ensures DiskFits(s.cfg, t.disk) && Inv(Recover(s.cfg, t.disk)) && Recover(s.cfg, t.disk).cfg == s.cfg
  {
    hide Recover, RelocOk, CacheOk;
    InvIsDurable(t);
    RecoveryRebuilds(t);
  }

  // ---- A flush on a medium that keeps failing

  // Whether the next pass of a flush purges.
  predicate PurgesNext(s: Ctx) {
    s.cache.pos % 8 == 0 && s.dirty
  }

  // A purge that fails behind its first k sectors: the table and the control sector have been
  // made already, and the rest of the context stays.
  function FailedPurge(s: Ctx, k: nat): (r: Ctx)
    requires s.purge < LAST_PURGE_POS && k <= 0x200
  {
    Torn(s, k).(table := Splice(s.table, s.purge / 8, PurgeEntries(s.cache)),
                cache := Cache(s.cache.lba, PurgeImage(s), s.cache.pos))
  }

  // The flush handler does not look at the mode: it sends the purge again.
  function FailedPurges(s: Ctx, ks: seq<nat>): (r: Ctx)
    requires s.purge < LAST_PURGE_POS && forall i | 0 <= i < |ks| :: ks[i] <= 0x200
    ensures r.purge == s.purge && r.cfg == s.cfg
    decreases |ks|
  {
    if ks == [] then s else FailedPurges(FailedPurge(s, ks[0]), ks[1..])
  }

  function Farthest(ks: seq<nat>): (r: nat)
    ensures (forall i | 0 <= i < |ks| :: ks[i] <= 0x200) ==> r <= 0x200
  {
    if ks == [] then 0 else var rest := Farthest(ks[1..]); if ks[0] < rest then rest else ks[0]
  }

  // Sending the same sectors again only matters as far as it comes.
  lemma SpliceAgain(d: seq<Sector>, at: nat, image: seq<Sector>, k: nat, l: nat)
    requires k <= |image| && l <= |image| && at + |image| <= |d|
    ensures Splice(Splice(d, at, image[..k]), at, image[..l]) == Splice(d, at, image[..if k < l then l else k])
  {
  }

  lemma FailedAgain(s: Ctx, k: nat, l: nat)
    requires s.purge < LAST_PURGE_POS && k <= 0x200 && l <= 0x200
    ensures var t := FailedPurge(s, k);
            && PurgeImage(t) == PurgeImage(s) && t.purge == s.purge && t.cfg == s.cfg && t.chunk == s.chunk
            && (PurgesNext(t) <==> PurgesNext(s))
            && Torn(t, l).disk == Torn(s, if k < l then l else k).disk
  {
    ChunksApart(s.chunk, s.cfg.MaxChunks);
    assert PurgeRecord(FailedPurge(s, k)) == PurgeRecord(s);
    SpliceAgain(s.disk.data, Plba(s.chunk, s.purge), PurgeImage(s), k, l);
    hide Splice;
  }

  lemma TornNothing(s: Ctx)
    requires s.purge < LAST_PURGE_POS
    ensures Torn(s, 0).disk == s.disk
  {
    ChunksApart(s.chunk, s.cfg.MaxChunks);
  }

  lemma {:induction false} FailedDisk(s: Ctx, ks: seq<nat>)
    requires s.purge < LAST_PURGE_POS && forall i | 0 <= i < |ks| :: ks[i] <= 0x200
    ensures PurgesNext(FailedPurges(s, ks)) <==> PurgesNext(s)
    ensures FailedPurges(s, ks).disk == Torn(s, Farthest(ks)).disk
    decreases |ks|
  {
    hide Torn, FailedPurge;
    if ks == [] {
      TornNothing(s);
    } else {
      FailedAgain(s, ks[0], Farthest(ks[1..]));
      FailedDisk(FailedPurge(s, ks[0]), ks[1..]);
    }
  }

  // Whatever part of it each attempt writes, the next pass is the purge again, so the flush
  // does not end while the medium fails; and a restart finds what was stored or what the
  // client saw, after any number of attempts.
  lemma FailingFlush(s: Ctx, ks: seq<nat>)
    requires Inv(s) && PurgesNext(s) && forall i | 0 <= i < |ks| :: ks[i] <= 0x200
    ensures s.purge < LAST_PURGE_POS
    ensures PurgesNext(FailedPurges(s, ks)) && Salvages(s, FailedPurges(s, ks).disk)
  {
    hide Inv, Torn, FailedPurges, Salvages;
    DirtyIsDone(s);
    FailedDisk(s, ks);
    assert PurgeTorn(s, FailedPurges(s, ks).disk);
    TornSalvages(s, FailedPurges(s, ks).disk);
  }
}
