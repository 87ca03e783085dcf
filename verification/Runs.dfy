// Whole runs: writes, flushes and crashes in any order, from any context with the invariant.
// A run behaves like a plain array of sectors with a second, durable copy: a purge makes the
// current contents durable, and a crash falls back to the durable contents - or, if it cuts
// a purge, to those or to the current ones, never to a mixture.
module Runs {
  import opened Geometry
  import opened Model
  import opened Invariant
  import opened LogicalDisk
  import opened Writing
  import opened Flushing
  import opened Recovery
  import opened Crash
  import opened TornPurge
  import opened TornControl

  // ---- The machine

  datatype Activity = Idle | Write(job: Job) | Flush(finalize: bool)

  datatype Machine = Machine(ctx: Ctx, activity: Activity)

  // Pass is one pass through the handler's loop. A crash comes between two device writes,
  // or cuts the purge of the next pass after k sectors, or leaves the control block of the
  // next pass broken.
  datatype Event =
    | BeginWrite(lba: nat, data: seq<Sector>) | BeginFlush(finalize: bool) | Pass
    | CrashBetween | CrashPurging(k: nat) | CrashFinalising(left: ChunkCtl)

  ghost predicate MachineOk(m: Machine) {
    && Inv(m.ctx)
    && (m.activity.Write? ==> JobFits(m.ctx.cfg, m.activity.job))
  }

  // Whether the next pass is a purge.
  predicate Purging(m: Machine) {
    var s := m.ctx;
    match m.activity
    case Idle => false
    case Write(j) =>
      && j.done < |j.data| && s.reloc.prepared && s.reloc.done && s.purge < LAST_PURGE_POS
      && FindCached(s.cache, NextLba(j), 0) == NOT_MAPPED && s.cache.pos >= LAST_CACHE_POS
    case Flush(_) => s.cache.pos % 8 == 0 && s.dirty
  }

  // Whether the next pass writes a control block.
  predicate Finalising(m: Machine) {
    var s := m.ctx;
    match m.activity
    case Idle => false
    case Write(j) => j.done < |j.data| && s.purge >= LAST_PURGE_POS && s.finalized < LAST_PURGE_POS
    case Flush(finalize) => s.cache.pos % 8 == 0 && !s.dirty && finalize && s.finalized < s.purge
  }

  function NextPass(m: Machine): Machine
    requires MachineOk(m)
  {
    match m.activity
    case Idle => m
    case Write(j) =>
      if j.done == |j.data| then m.(activity := Idle)
      else var (s', j') := WriteStep(m.ctx, j); Machine(s', Write(j'))
    case Flush(finalize) =>
      var (s', over) := FlushStep(m.ctx, finalize);
      Machine(s', if over then Idle else m.activity)
  }

  lemma WritePurges(s: Ctx, j: Job)
    requires Inv(s) && JobFits(s.cfg, j) && Purging(Machine(s, Write(j)))
    ensures s.reloc.done && s.purge < LAST_PURGE_POS && s.cache.pos % 8 == 0
    ensures WriteStep(s, j) == (PurgeCache(s), j)
  {
    PurgingWrite(s, j);
    hide Inv, FindCached, PurgeCache, Transfer, WriteStep, Purging;
    DoneTransfers(s, j);
    FullPurges(s, j);
  }

  lemma PurgingWrite(s: Ctx, j: Job)
    requires Purging(Machine(s, Write(j)))
    ensures j.done < |j.data| && s.reloc.done && s.purge < LAST_PURGE_POS
    ensures FindCached(s.cache, NextLba(j), 0) == NOT_MAPPED && s.cache.pos == LAST_CACHE_POS
  {
    hide FindCached;
  }

  lemma InvCache(s: Ctx)
    requires Inv(s)
    ensures CacheOk(s.cache, s.cfg.SizeOfMap)
  {
  }

  lemma FullPurges(s: Ctx, j: Job)
    requires CacheOk(s.cache, s.cfg.SizeOfMap) && s.purge < LAST_PURGE_POS
    requires JobFits(s.cfg, j) && j.done < |j.data|
    requires FindCached(s.cache, NextLba(j), 0) == NOT_MAPPED && s.cache.pos >= LAST_CACHE_POS
    ensures Transfer(s, j) == (PurgeCache(s), j)
  {
    hide CacheOk, FindCached, PurgeCache;
  }

  lemma FlushPurges(s: Ctx, finalize: bool)
    requires Inv(s) && Purging(Machine(s, Flush(finalize)))
    ensures s.reloc.done && s.purge < LAST_PURGE_POS && s.cache.pos % 8 == 0
    ensures FlushStep(s, finalize) == (PurgeCache(s), false)
  {
    DirtyIsDone(s);
    hide Inv, PurgeCache;
  }

  lemma PurgingCanPurge(m: Machine)
    requires MachineOk(m) && Purging(m)
    ensures m.ctx.reloc.done && m.ctx.purge < LAST_PURGE_POS && m.ctx.cache.pos % 8 == 0
    ensures NextPass(m).ctx == PurgeCache(m.ctx)
  {
    hide Inv, FindCached, PurgeCache, WriteStep, FlushStep;
    if m.activity.Write? {
      WritePurges(m.ctx, m.activity.job);
    } else if m.activity.Flush? {
      FlushPurges(m.ctx, m.activity.finalize);
    }
  }

  // Events that do not apply are ignored. The control block of the first chunk after
  // formatting is not left broken: see TornControl.TornControlExactly.
  function Next(m: Machine, e: Event): Machine
    requires MachineOk(m)
  {
    match e
    case BeginWrite(lba, data) =>
      if m.activity.Idle? && lba + |data| <= 8 * m.ctx.cfg.SizeOfMap then m.(activity := Write(Job(lba, data, 0)))
      else m
    case BeginFlush(finalize) =>
      if m.activity.Idle? then m.(activity := Flush(finalize)) else m
    case Pass => NextPass(m)
    case CrashBetween => Machine(Recover(m.ctx.cfg, m.ctx.disk), Idle)
    case CrashPurging(k) =>
      if Purging(m) && k <= 0x200 then
        PurgingCanPurge(m);
        Machine(Recover(m.ctx.cfg, Torn(m.ctx, k).disk), Idle)
      else m
    case CrashFinalising(left) =>
      if Finalising(m) && Followed(m.ctx) && !Accepted(m.ctx.cfg, left) then
        Machine(Recover(m.ctx.cfg, LeftOn(m.ctx, left)), Idle)
      else m
  }

  // ---- The array it behaves like

  // The sectors as the client sees them, and as a crash would leave them.
  datatype Contents = Contents(now: seq<Sector>, safe: seq<Sector>)

  ghost predicate Represents(s: Ctx, c: Contents) {
    && |c.now| == |c.safe| == 8 * s.cfg.SizeOfMap
    && forall x: nat | x / 8 < s.cfg.SizeOfMap :: ReadSector(s, x) == c.now[x] && StoredAt(s, x) == c.safe[x]
  }

  // Whether the next pass finalises the chunk within a flush, over whatever is still cached.
  predicate Overwriting(m: Machine) {
    var s := m.ctx;
    m.activity == Flush(true) && s.cache.pos % 8 == 0 && !s.dirty && s.finalized < s.purge
  }

  // The sectors cached in the first 256 positions give way to those of a control block.
  function Overwritten(c: Cache, ctl: ChunkCtl, now: seq<Sector>): (r: seq<Sector>)
    ensures |r| == |now|
    ensures forall x | 0 <= x < |now| ::
              r[x] == var pos := FindCached(c, x, 0); if pos < 0x100 then Control(ctl, pos) else now[x]
  {
    seq(|now|, x requires 0 <= x < |now| =>
      var pos := FindCached(c, x, 0); if pos < 0x100 then Control(ctl, pos) else now[x])
  }

  function NextContents(m: Machine, e: Event, c: Contents): (r: Contents)
    requires MachineOk(m) && |c.now| == |c.safe| == 8 * m.ctx.cfg.SizeOfMap
    ensures |r.now| == |r.safe| == |c.now|
  {
    match e
    case BeginWrite(_, _) => c
    case BeginFlush(_) => c
    case Pass =>
      if Purging(m) then Contents(c.now, c.now)
      else if m.activity.Write? && m.activity.job.done < |m.activity.job.data| then
        var j := m.activity.job;
        StepKeepsInv(m.ctx, j);
        c.(now := Splice(c.now, NextLba(j), j.data[j.done..WriteStep(m.ctx, j).1.done]))
      else if Overwriting(m) then
        c.(now := Overwritten(m.ctx.cache, NextPass(m).ctx.disk.ctl[m.ctx.chunk], c.now))
      else c
    case CrashBetween => Contents(c.safe, c.safe)
    case CrashPurging(k) =>
      if !Purging(m) || k > 0x200 then c
      else if k <= 0x1f8 then Contents(c.safe, c.safe) else Contents(c.now, c.now)
    case CrashFinalising(left) =>
      if Finalising(m) && Followed(m.ctx) && !Accepted(m.ctx.cfg, left) then Contents(c.safe, c.safe) else c
  }

  lemma WriteStepStores(s: Ctx, j: Job)
    requires Inv(s) && JobFits(s.cfg, j) && j.done < |j.data| && !Purging(Machine(s, Write(j)))
    ensures WriteStep(s, j).0.mi.Map == s.mi.Map && WriteStep(s, j).0.disk.data == s.disk.data
  {
    hide Durable, RelocOk, CacheOk;
    PhaseFacts(s);
  }

  // A purge makes the current contents durable.
  lemma PurgeRefines(s: Ctx, c: Contents)
    requires Inv(s) && s.purge < LAST_PURGE_POS && s.cache.pos % 8 == 0 && Represents(s, c)
    ensures Represents(PurgeCache(s), Contents(c.now, c.now))
  {
    hide RelocOk, LogOk, CacheOk, PurgeCache, ReadSector, StoredAt;
    PurgeReads(s);
    forall x: nat | x / 8 < s.cfg.SizeOfMap ensures StoredAt(PurgeCache(s), x) == ReadSector(s, x) {
      PurgedSector(s, x);
    }
  }

  // Writing to the cache leaves the durable contents alone.
  lemma WrittenRefines(s: Ctx, s': Ctx, lba: nat, data: seq<Sector>, c: Contents)
    requires Represents(s, c) && Written(s, s', lba, data) && lba + |data| <= 8 * s.cfg.SizeOfMap
    requires s'.mi.Map == s.mi.Map && s'.disk.data == s.disk.data
    ensures Represents(s', c.(now := Splice(c.now, lba, data)))
  {
  }

  lemma SameRefines(s: Ctx, s': Ctx, c: Contents)
    requires Represents(s, c) && SameContents(s, s')
    requires s'.mi.Map == s.mi.Map && s'.disk.data == s.disk.data
    ensures Represents(s', c)
  {
  }

  lemma WritePassRefines(s: Ctx, j: Job, c: Contents)
    requires Inv(s) && JobFits(s.cfg, j) && j.done < |j.data| && Represents(s, c)
    ensures var m := Machine(s, Write(j));
            && MachineOk(m) && MachineOk(NextPass(m)) && NextPass(m).ctx.cfg == s.cfg
            && Represents(NextPass(m).ctx, NextContents(m, Pass, c))
  {
    hide Inv, Represents, Written, WriteStep, Purging;
    var m := Machine(s, Write(j));
    var (s', j') := WriteStep(s, j);
    StepKeepsInv(s, j);
    if Purging(m) {
      PurgingCanPurge(m);
      PurgeRefines(s, c);
    } else {
      WriteStepStores(s, j);
      WrittenRefines(s, s', NextLba(j), j.data[j.done..j'.done], c);
    }
  }

  lemma FinaliseRefines(s: Ctx, c: Contents)
    requires Represents(s, c)
    ensures var s' := PurgeChunk(s);
            Represents(s', c.(now := Overwritten(s.cache, s'.disk.ctl[s.chunk], c.now)))
  {
    var s' := PurgeChunk(s);
    hide FindCached, ReadSector;
    forall x: nat | x / 8 < s.cfg.SizeOfMap
      ensures ReadSector(s', x) == Overwritten(s.cache, s'.disk.ctl[s.chunk], c.now)[x]
      ensures StoredAt(s', x) == c.safe[x]
    {
      FinaliseReads(s, x);
    }
  }

  lemma FlushPassRefines(s: Ctx, finalize: bool, c: Contents)
    requires Inv(s) && Represents(s, c)
    ensures var m := Machine(s, Flush(finalize));
            && MachineOk(m) && MachineOk(NextPass(m)) && NextPass(m).ctx.cfg == s.cfg
            && Represents(NextPass(m).ctx, NextContents(m, Pass, c))
  {
    hide Durable, RelocOk, CacheOk, Represents, SameContents;
    FlushStepKeepsInv(s, finalize);
    SameReads(s, s);
    if s.cache.pos % 8 != 0 {
      UnalignedIsDone(s);
      FillTailKeepsInv(s);
      SameRefines(s, FillTail(s), c);
    } else if s.dirty {
      DirtyIsDone(s);
      PurgeRefines(s, c);
    } else if finalize && s.finalized < s.purge {
      FinaliseRefines(s, c);
    }
  }

  lemma CrashRefines(m: Machine, e: Event, c: Contents)
    requires MachineOk(m) && Traced(m.ctx) && Represents(m.ctx, c)
    requires e.CrashBetween? || e.CrashPurging? || e.CrashFinalising?
    ensures MachineOk(Next(m, e)) && Next(m, e).ctx.cfg == m.ctx.cfg && Traced(Next(m, e).ctx)
    ensures Represents(Next(m, e).ctx, NextContents(m, e, c))
  {
    hide Inv, Recover, Purging, Finalising, Followed, Traced, StoredAt, ReadSector, Accepted;
    InvIsDurable(m.ctx);
    hide Durable;
    if e.CrashBetween? {
      RecoveryRebuilds(m.ctx);
      RecoverTraced(m.ctx);
      NothingCached(Next(m, e).ctx);
    } else if e.CrashPurging? {
      if Purging(m) && e.k <= 0x200 {
        PurgingCanPurge(m);
        TornPurgeRecovers(m.ctx, e.k);
        TornTraced(m.ctx, e.k);
        NothingCached(Next(m, e).ctx);
      }
    } else if Finalising(m) && Followed(m.ctx) && !Accepted(m.ctx.cfg, e.left) {
      TornControlRecovers(m.ctx, e.left);
      NothingCached(Next(m, e).ctx);
    }
  }

  lemma InvIsDurable(s: Ctx)
    requires Inv(s)
    ensures Durable(s)
  {
  }

  lemma NothingCached(s: Ctx)
    requires s.cache.pos == 0
    ensures forall x: nat | x / 8 < s.cfg.SizeOfMap :: ReadSector(s, x) == StoredAt(s, x)
  {
  }

  // ---- What a restart needs if a control block breaks

  // A step that changes nothing of it.
  ghost predicate SamePlace(s: Ctx, t: Ctx) {
    && t.cfg == s.cfg && t.chunk == s.chunk && t.purge == s.purge && t.table == s.table
    && t.disk == s.disk && t.mi == s.mi
  }

  lemma SamePlaceTraced(s: Ctx, t: Ctx)
    requires Traced(s) && SamePlace(s, t)
    ensures Traced(t)
  {
    hide Traced, Followed;
    TracedFrame(s, t);
  }

  lemma TransferPlace(s: Ctx, j: Job)
    requires CacheOk(s.cache, s.cfg.SizeOfMap) && s.purge < LAST_PURGE_POS
    requires JobFits(s.cfg, j) && j.done < |j.data|
    ensures Transfer(s, j).0 == PurgeCache(s) || SamePlace(s, Transfer(s, j).0)
  {
    hide CacheOk, FindCached, PurgeCache;
  }

  lemma RelocatePlace(s: Ctx)
    requires s.cache.pos % 8 == 0
    ensures SamePlace(s, RelocateCached(s)) && SamePlace(s, RelocateRead(RelocateCached(s)))
  {
    hide RelocateScan;
  }

  lemma WriteTraced(s: Ctx, j: Job)
    requires Inv(s) && JobFits(s.cfg, j) && j.done < |j.data| && Traced(s)
    ensures Traced(WriteStep(s, j).0)
  {
    hide CacheOk, FindCached, PurgeCache, PurgeChunk, SwitchChunk, PrepareRelocate, Transfer, Traced;
    hide RelocateCached, RelocateRead;
    PhaseFacts(s);
    InvCache(s);
    InvIsDurable(s);
    hide Inv, Durable;
    if s.purge >= LAST_PURGE_POS {
      if s.finalized < LAST_PURGE_POS {
        TracedChunk(s);
      } else {
        FinalisedAt(s);
        LeftTraced(s);
      }
    } else if !s.reloc.prepared {
      PreparePlace(s);
      SamePlaceTraced(s, PrepareRelocate(s));
    } else if !s.reloc.done {
      RelocatePlace(s);
      SamePlaceTraced(s, WriteStep(s, j).0);
    } else {
      TransferPlace(s, j);
      if SamePlace(s, Transfer(s, j).0) {
        SamePlaceTraced(s, Transfer(s, j).0);
      } else {
        TracedPurge(s);
      }
    }
  }

  lemma FinalisedAt(s: Ctx)
    ensures s.finalized <= LAST_PURGE_POS
  {
  }

  lemma PreparePlace(s: Ctx)
    ensures SamePlace(s, PrepareRelocate(s))
  {
  }

  lemma FlushTraced(s: Ctx, finalize: bool)
    requires Inv(s) && Traced(s)
    ensures Traced(FlushStep(s, finalize).0)
  {
    hide Durable, RelocOk, CacheOk, PurgeCache, PurgeChunk, Traced;
    InvCache(s);
    if s.cache.pos % 8 != 0 {
      SamePlaceTraced(s, FillTail(s));
    } else if s.dirty {
      DirtyIsDone(s);
      TracedPurge(s);
    } else {
      TracedChunk(s);
    }
  }

  // The context of a run that started on a formatted medium.
  ghost predicate RunOk(m: Machine) {
    MachineOk(m) && Traced(m.ctx)
  }

  // One event of the run is one event of the array.
  lemma EventRefines(m: Machine, e: Event, c: Contents)
    requires RunOk(m) && Represents(m.ctx, c)
    ensures RunOk(Next(m, e)) && Next(m, e).ctx.cfg == m.ctx.cfg
    ensures Represents(Next(m, e).ctx, NextContents(m, e, c))
  {
    hide Inv, Represents, Recover, Traced, Followed;
    match e
    case BeginWrite(_, _) =>
    case BeginFlush(_) =>
    case Pass =>
      match m.activity {
        case Idle =>
        case Write(j) =>
          if j.done < |j.data| {
            WritePassRefines(m.ctx, j, c);
            WriteTraced(m.ctx, j);
          }
        case Flush(finalize) =>
          FlushPassRefines(m.ctx, finalize, c);
          FlushTraced(m.ctx, finalize);
      }
    case CrashBetween => CrashRefines(m, e, c);
    case CrashPurging(_) => CrashRefines(m, e, c);
    case CrashFinalising(_) => CrashRefines(m, e, c);
  }

  // The machine and the array after a whole run.
  function RunOf(m: Machine, c: Contents, events: seq<Event>): (r: (Machine, Contents))
    requires RunOk(m) && Represents(m.ctx, c)
    decreases |events|
  {
    if events == [] then (m, c)
    else
      EventRefines(m, events[0], c);
      RunOf(Next(m, events[0]), NextContents(m, events[0], c), events[1..])
  }

  // Crash refinement over whole runs.
  lemma {:induction false} RunRefines(m: Machine, c: Contents, events: seq<Event>)
    requires RunOk(m) && Represents(m.ctx, c)
    ensures var (m', c') := RunOf(m, c, events);
            RunOk(m') && Represents(m'.ctx, c')
    decreases |events|
  {
    if events != [] {
      EventRefines(m, events[0], c);
      RunRefines(Next(m, events[0]), NextContents(m, events[0], c), events[1..]);
    }
  }
}
