// Readers against the writer: a read thread computes a physical range under the lock and
// reads it later, while the writer goes on. Threads that may still hold old addresses are
// marked (driver/vgate.c) and waited for before their chunk is written again.
module Readers {
  import opened Geometry
  import opened BlockLog
  import opened Model
  import opened Invariant
  import opened LogKeeping
  import opened LogicalDisk
  import opened Writing
  import opened Flushing
  import opened Reading
  import Runs
  import Gate

  // A device read in flight: where it started, and what the client should see.
  datatype Op = NoRead | DeviceRead(plba: nat, seen: seq<Sector>)

  // issued: the writer has marked the readers, and the control block of the full chunk is on
  // its way to the device.
  datatype Sys = Sys(m: Runs.Machine, gate: Gate.Gate, ops: seq<Op>, issued: bool)

  // Scheduler stands for the critical sections of the scheduler, Issue and Finish for the two
  // ends of one round of a read thread, Pass for one pass of the writer.
  datatype Event =
    | Scheduler(e: Gate.Event) | Issue(i: nat, lba: nat, len: nat) | Finish(i: nat)
    | Begin(request: Runs.Event) | Pass

  predicate Overlaps(op: Op, lo: int, hi: int) {
    op.DeviceRead? && op.seen != [] && op.plba < hi && lo < op.plba + |op.seen|
  }

  // The part of the current chunk that purges still have to fill.
  predicate InUnwritten(s: Ctx, op: Op) {
    Overlaps(op, Plba(s.chunk, s.purge), Plba(s.chunk, LAST_PURGE_POS))
  }

  // The part of the next chunk that purges will fill.
  predicate InNext(s: Ctx, op: Op) {
    Overlaps(op, Plba(s.next, StartOf(s.next)), Plba(s.next, LAST_PURGE_POS))
  }

  // The current chunk is full and certain to be left.
  predicate Leaving(sys: Sys) {
    sys.m.ctx.purge == LAST_PURGE_POS && (sys.m.ctx.finalized == LAST_PURGE_POS || sys.issued)
  }

  // No read in the part of the chunk that is about to be written, unless its thread is
  // marked and the writer has yet to wait for it.
  ghost predicate OpOk(sys: Sys, i: nat)
    requires i < |sys.ops| && i < |sys.gate.workers|
  {
    var s, op, w := sys.m.ctx, sys.ops[i], sys.gate.workers[i];
    op.DeviceRead? ==>
      && w.link == Gate.BUSY
      && op.plba + |op.seen| <= |s.disk.data| && s.disk.data[op.plba..op.plba + |op.seen|] == op.seen
      && (InUnwritten(s, op) ==> w.marked && (s.reloc.prepared ==> sys.gate.waiting))
      && (Leaving(sys) && InNext(s, op) ==> w.marked)
  }

  // The time in which threads are marked: from the pass of an unfinished write that finalises
  // a full chunk until the next chunk is prepared, and while the writer waits for them.
  predicate MarksOut(sys: Sys) {
    var s, activity := sys.m.ctx, sys.m.activity;
    && activity.Write? && activity.job.done < |activity.job.data|
    && (if s.purge == LAST_PURGE_POS then s.finalized == LAST_PURGE_POS || sys.issued
        else !s.reloc.prepared || sys.gate.waiting)
  }

  predicate WriterOk(sys: Sys) {
    var s, activity := sys.m.ctx, sys.m.activity;
    && (sys.gate.threadsMarked > 0 ==> MarksOut(sys))
    && (!activity.Idle? ==> sys.gate.otherActive == 1)
    && (sys.issued ==> activity.Write? && activity.job.done < |activity.job.data|
                       && s.purge == LAST_PURGE_POS && s.finalized < LAST_PURGE_POS)
    && (sys.gate.waiting ==> activity.Write? && s.reloc.prepared && !s.reloc.done && s.purge < LAST_PURGE_POS)
  }

  ghost predicate SysFits(sys: Sys) {
    && Runs.MachineOk(sys.m) && Gate.GateOk(sys.gate) && |sys.ops| == Gate.READ_THREADS
    && WriterOk(sys)
  }

  ghost predicate SysOk(sys: Sys) {
    SysFits(sys) && forall i | 0 <= i < Gate.READ_THREADS :: OpOk(sys, i)
  }

  // ---- The steps

  // A round of read thread i: from memory at once, or by a read that is now in flight.
  function IssueRead(sys: Sys, i: nat, lba: nat, len: nat): Sys
    requires i < |sys.ops| && 0 < len && lba + len <= 8 * sys.m.ctx.cfg.SizeOfMap
  {
    match ReadRound(sys.m.ctx, lba, len)
    case Memory(_) => sys
    case Device(plba, n) => sys.(ops := sys.ops[i := DeviceRead(plba, Expected(sys.m.ctx, lba, n))])
  }

  function Expected(s: Ctx, lba: nat, n: nat): (r: seq<Sector>)
    requires lba + n <= 8 * s.cfg.SizeOfMap
    ensures |r| == n && forall k | 0 <= k < n :: r[k] == ReadSector(s, lba + k)
  {
    seq(n, k requires 0 <= k < n => ReadSector(s, lba + k))
  }

  // Whether the next pass is the write handler finalising a full chunk.
  predicate FinalisesFull(sys: Sys) {
    var s, activity := sys.m.ctx, sys.m.activity;
    && activity.Write? && activity.job.done < |activity.job.data|
    && s.purge >= LAST_PURGE_POS && s.finalized < LAST_PURGE_POS
  }

  predicate Prepares(sys: Sys) {
    var s, activity := sys.m.ctx, sys.m.activity;
    activity.Write? && activity.job.done < |activity.job.data| && s.purge < LAST_PURGE_POS && !s.reloc.prepared
  }

  // Whether the next pass is a flush that finalises a full chunk: nobody is marked then.
  predicate FinalisesUnmarked(sys: Sys) {
    var s := sys.m.ctx;
    && sys.m.activity == Runs.Flush(true) && s.cache.pos % 8 == 0 && !s.dirty
    && s.purge == LAST_PURGE_POS && s.finalized < LAST_PURGE_POS
  }

  // Whether no read in flight is in the next chunk.
  predicate NextClear(sys: Sys) {
    forall i | 0 <= i < |sys.ops| :: !InNext(sys.m.ctx, sys.ops[i])
  }

  function WriterPass(sys: Sys): Sys
    requires SysFits(sys)
  {
    if FinalisesFull(sys) && !sys.issued then
      sys.(gate := Gate.MarkReaders(sys.gate), issued := true)
    else
      sys.(m := Runs.NextPass(sys.m), issued := false,
           gate := if Prepares(sys) then Gate.WaitMarked(sys.gate).0 else sys.gate)
  }

  predicate Scheduled(sys: Sys, e: Gate.Event) {
    && Gate.Enabled(sys.gate, e) && !e.Mark? && !e.Wait?
    && (e.ReadDone? ==> e.i < |sys.ops| && sys.ops[e.i].NoRead?)
    && (e.OtherDone? ==> sys.m.activity.Idle?)
  }

  // Events that do not apply are ignored.
  function Next(sys: Sys, e: Event): Sys
    requires SysFits(sys)
  {
    match e
    case Scheduler(g) => if Scheduled(sys, g) then sys.(gate := Gate.Happen(sys.gate, g).0) else sys
    case Issue(i, lba, len) =>
      if i < Gate.READ_THREADS && sys.gate.workers[i].link == Gate.BUSY && sys.ops[i].NoRead?
         && 0 < len && lba + len <= 8 * sys.m.ctx.cfg.SizeOfMap
      then IssueRead(sys, i, lba, len) else sys
    case Finish(i) => if i < Gate.READ_THREADS then sys.(ops := sys.ops[i := NoRead]) else sys
    case Begin(b) =>
      if (b.BeginWrite? || b.BeginFlush?) && sys.m.activity.Idle? && sys.gate.otherActive == 1
      then sys.(m := Runs.Next(sys.m, b)) else sys
    case Pass => if sys.gate.waiting then sys else WriterPass(sys)
  }

  // ---- A read is only ever issued for live blocks

  lemma InvParts(s: Ctx)
    requires Inv(s)
    ensures LogOk(s) && CacheOk(s.cache, s.cfg.SizeOfMap)
    ensures s.purge == LAST_PURGE_POS ==> s.mi.info[s.next].Used == 0
  {
  }

  lemma LiveSector(s: Ctx, lba: nat, len: nat, x: nat)
    requires LogOk(s) && CacheOk(s.cache, s.cfg.SizeOfMap)
    requires 0 < len && lba + len <= 8 * s.cfg.SizeOfMap && ReadRound(s, lba, len).Device?
    requires ReadRound(s, lba, len).plba <= x < ReadRound(s, lba, len).plba + ReadRound(s, lba, len).n
    ensures InChunk(x, s.chunk) ==> x < Plba(s.chunk, s.purge)
    ensures InChunk(x, s.next) ==> s.mi.info[s.next].Used != 0
  {
    hide LogOk, CacheOk, FindCached, JoinLen;
    var plba := ReadRound(s, lba, len).plba;
    DeviceRoundStored(s, lba, len, x - plba);
    MappedSector(s, (lba + (x - plba)) / 8, (lba + (x - plba)) % 8);
  }

  lemma MappedIsUsed(s: Ctx, b: nat, c: nat)
    requires UsedCounts(s.mi) && b < s.cfg.SizeOfMap && c < s.cfg.MaxChunks && InChunk(s.mi.Map[b], c)
    ensures s.mi.info[c].Used != 0
  {
    CountZero(s.mi.Map, c);
  }

  lemma MappedSector(s: Ctx, b: nat, i: nat)
    requires LogOk(s) && b < s.cfg.SizeOfMap && s.mi.Map[b] != NOT_MAPPED && i < 8
    ensures InChunk(s.mi.Map[b] + i, s.chunk) ==> s.mi.Map[b] + i < Plba(s.chunk, s.purge)
    ensures InChunk(s.mi.Map[b] + i, s.next) ==> s.mi.info[s.next].Used != 0
  {
    MappedAt(s, b);
    CountsKept(s);
    hide LogOk, UsedCounts;
    var x := s.mi.Map[b] + i;
    SectorInChunk(s.mi.Map[b], i);
    InChunkIff(x, s.chunk);
    InChunkIff(x, s.next);
    InChunkIff(s.mi.Map[b], s.next);
    if InChunk(x, s.next) {
      MappedIsUsed(s, b, s.next);
    }
  }

  lemma CountsKept(s: Ctx)
    requires LogOk(s)
    ensures UsedCounts(s.mi)
  {
  }

  lemma MappedAt(s: Ctx, b: nat)
    requires LogOk(s) && b < s.cfg.SizeOfMap && s.mi.Map[b] != NOT_MAPPED
    ensures s.mi.Map[b] % 8 == 0
    ensures ChunkOf(s.mi.Map[b]) == s.chunk ==> s.mi.Map[b] + 8 <= Plba(s.chunk, s.purge)
  {
    LocatedIn(s, b);
    hide LogOk, Segs;
  }

  // A block lies in one chunk.
  lemma SectorInChunk(p: nat, i: nat)
    requires p % 8 == 0 && i < 8
    ensures ChunkOf(p + i) == ChunkOf(p)
  {
  }

  lemma IssuedOp(s: Ctx, lba: nat, len: nat)
    requires Inv(s) && 0 < len && lba + len <= 8 * s.cfg.SizeOfMap && ReadRound(s, lba, len).Device?
    ensures var r := ReadRound(s, lba, len);
            && lba + r.n <= 8 * s.cfg.SizeOfMap && r.plba + r.n <= |s.disk.data|
            && s.disk.data[r.plba..r.plba + r.n] == Expected(s, lba, r.n)
            && var op := DeviceRead(r.plba, Expected(s, lba, r.n));
               && !InUnwritten(s, op)
               && (s.purge == LAST_PURGE_POS ==> !InNext(s, op))
  {
    InvParts(s);
    hide Inv, LogOk, CacheOk, FindCached, ReadRound;
    DeviceRound(s, lba, len);
    var r := ReadRound(s, lba, len);
    var op := DeviceRead(r.plba, Expected(s, lba, r.n));
    if InUnwritten(s, op) {
      var x := if r.plba < Plba(s.chunk, s.purge) then Plba(s.chunk, s.purge) else r.plba;
      LiveSector(s, lba, len, x);
    }
    if s.purge == LAST_PURGE_POS && InNext(s, op) {
      var x := if r.plba < Plba(s.next, StartOf(s.next)) then Plba(s.next, StartOf(s.next)) else r.plba;
      LiveSector(s, lba, len, x);
    }
  }

  lemma TenWorkers(g: Gate.Gate)
    requires Gate.GateOk(g)
    ensures |g.workers| == Gate.READ_THREADS
  {
  }

  // A step leaves the read of thread i safe.
  ghost predicate KeepsOp(sys: Sys, sys': Sys, i: nat)
    requires i < |sys.ops| && i < |sys.gate.workers|
  {
    OpOk(sys, i) ==> i < |sys'.ops| && i < |sys'.gate.workers| && OpOk(sys', i)
  }

  lemma IssueKeepsOp(sys: Sys, i: nat, lba: nat, len: nat, k: nat)
    requires Inv(sys.m.ctx) && |sys.ops| == |sys.gate.workers| == Gate.READ_THREADS && WriterOk(sys)
    requires i < Gate.READ_THREADS && sys.gate.workers[i].link == Gate.BUSY
    requires 0 < len && lba + len <= 8 * sys.m.ctx.cfg.SizeOfMap
    requires k < Gate.READ_THREADS
    ensures KeepsOp(sys, IssueRead(sys, i, lba, len), k)
  {
    hide Inv, ReadRound, Expected, InUnwritten, InNext, MarksOut;
    if ReadRound(sys.m.ctx, lba, len).Device? {
      IssuedOp(sys.m.ctx, lba, len);
    }
  }

  lemma IssueFits(sys: Sys, i: nat, lba: nat, len: nat)
    requires SysFits(sys) && i < Gate.READ_THREADS && 0 < len && lba + len <= 8 * sys.m.ctx.cfg.SizeOfMap
    ensures SysFits(IssueRead(sys, i, lba, len))
  {
    hide Gate.GateOk, Inv, ReadRound, Expected;
  }

  // ---- The scheduler's steps

  lemma HappenFrame(g: Gate.Gate, e: Gate.Event, i: nat)
    requires Gate.GateOk(g) && Gate.Enabled(g, e) && !e.Mark? && !e.Wait? && i < Gate.READ_THREADS
    requires e != Gate.ReadDone(i) && g.workers[i].link == Gate.BUSY
    ensures Gate.Happen(g, e).0.workers[i] == g.workers[i]
  {
    if e.ReadDone? {
      Gate.RetireKeeps(g, e.i);
    } else if e.Read? && g.active && g.readActive < Gate.READ_THREADS {
      Gate.FreeListHead(g);
    }
  }

  lemma HappenWriter(g: Gate.Gate, e: Gate.Event)
    requires Gate.GateOk(g) && Gate.Enabled(g, e) && !e.Mark? && !e.Wait?
    ensures var g' := Gate.Happen(g, e).0;
            && (g'.waiting ==> g.waiting)
            && g'.threadsMarked <= g.threadsMarked
            && (g.waiting && !g'.waiting ==> g'.threadsMarked == 0)
            && (!e.OtherDone? && g.otherActive == 1 ==> g'.otherActive == 1)
  {
    if e.ReadDone? {
      Gate.RetireKeeps(g, e.i);
    }
  }

  lemma SchedulerFits(sys: Sys, e: Gate.Event)
    requires SysFits(sys) && Scheduled(sys, e)
    ensures SysFits(sys.(gate := Gate.Happen(sys.gate, e).0))
  {
    hide Runs.MachineOk;
    Gate.HappenKeeps(sys.gate, e);
    HappenWriter(sys.gate, e);
    hide Gate.Happen, Gate.GateOk;
  }

  lemma SchedulerKeepsOp(sys: Sys, e: Gate.Event, i: nat)
    requires SysFits(sys) && Scheduled(sys, e) && i < Gate.READ_THREADS && |sys.gate.workers| == Gate.READ_THREADS
    ensures KeepsOp(sys, sys.(gate := Gate.Happen(sys.gate, e).0), i)
  {
    hide Gate.Happen, Gate.GateOk, Runs.MachineOk, InUnwritten, InNext, MarksOut;
    var g, g' := sys.gate, Gate.Happen(sys.gate, e).0;
    Gate.HappenKeeps(g, e);
    GateFacts(g');
    HappenWriter(g, e);
    Gate.NoneMarked(g'.workers);
    if sys.ops[i].DeviceRead? && g.workers[i].link == Gate.BUSY {
      HappenFrame(g, e, i);
    }
  }

  // ---- The writer's steps

  // What a pass may do to the places that reads depend on.
  datatype Effect = Stays | Purges | Finalises | Leaves | Prepared

  ghost predicate HasEffect(s: Ctx, s': Ctx, f: Effect) {
    match f
    case Purges => s.purge < LAST_PURGE_POS && s.reloc.done && s' == PurgeCache(s)
    case Finalises => s' == PurgeChunk(s)
    case Leaves => s.purge == LAST_PURGE_POS == s.finalized && s' == SwitchChunk(s)
    case Prepared => s' == PrepareRelocate(s)
    case Stays =>
      && s'.chunk == s.chunk && s'.next == s.next && s'.purge == s.purge && s'.finalized == s.finalized
      && s'.reloc.prepared == s.reloc.prepared && s'.disk == s.disk
  }

  function WriteEffectOf(s: Ctx, j: Job): Effect
    requires j.done < |j.data|
  {
    if s.purge >= LAST_PURGE_POS then (if s.finalized < LAST_PURGE_POS then Finalises else Leaves)
    else if !s.reloc.prepared then Prepared
    else if s.reloc.done && FindCached(s.cache, NextLba(j), 0) == NOT_MAPPED && s.cache.pos >= LAST_CACHE_POS then
      Purges
    else Stays
  }

  function EffectOf(sys: Sys): Effect {
    var s := sys.m.ctx;
    match sys.m.activity
    case Idle => Stays
    case Write(j) => if j.done < |j.data| then WriteEffectOf(s, j) else Stays
    case Flush(finalize) =>
      if s.cache.pos % 8 != 0 then Stays
      else if s.dirty then Purges
      else if finalize && s.finalized < s.purge then Finalises
      else Stays
  }

  lemma TransferEffect(s: Ctx, j: Job)
    requires CacheOk(s.cache, s.cfg.SizeOfMap) && s.purge < LAST_PURGE_POS && s.reloc.done
    requires JobFits(s.cfg, j) && j.done < |j.data|
    ensures HasEffect(s, Transfer(s, j).0,
              if FindCached(s.cache, NextLba(j), 0) == NOT_MAPPED && s.cache.pos >= LAST_CACHE_POS then Purges
              else Stays)
  {
    hide CacheOk, FindCached, PurgeCache;
  }

  lemma RelocateEffect(s: Ctx)
    requires s.cache.pos % 8 == 0
    ensures HasEffect(s, RelocateCached(s), Stays) && HasEffect(s, RelocateRead(RelocateCached(s)), Stays)
  {
    hide RelocateScan;
  }

  lemma WriteEffect(s: Ctx, j: Job)
    requires Inv(s) && JobFits(s.cfg, j) && j.done < |j.data|
    ensures HasEffect(s, WriteStep(s, j).0, WriteEffectOf(s, j))
  {
    hide CacheOk, FindCached, PurgeCache, PurgeChunk, SwitchChunk, PrepareRelocate, Transfer;
    hide RelocateCached, RelocateRead;
    PhaseFacts(s);
    InvParts(s);
    hide Inv;
    if s.purge < LAST_PURGE_POS && s.reloc.prepared {
      if s.reloc.done {
        TransferEffect(s, j);
      } else {
        RelocateEffect(s);
      }
    }
  }

  lemma PassEffect(sys: Sys)
    requires SysFits(sys)
    ensures HasEffect(sys.m.ctx, Runs.NextPass(sys.m).ctx, EffectOf(sys))
  {
    hide Gate.GateOk, OpOk, Durable, RelocOk, CacheOk, PurgeCache, PurgeChunk, SwitchChunk, PrepareRelocate;
    match sys.m.activity
    case Idle =>
    case Write(j) =>
      if j.done < |j.data| {
        WriteEffect(sys.m.ctx, j);
        hide HasEffect, WriteStep, WriteEffectOf;
      }
    case Flush(_) =>
      if sys.m.ctx.cache.pos % 8 == 0 && sys.m.ctx.dirty {
        DirtyIsDone(sys.m.ctx);
      }
  }

  // A purge leaves the sectors of every read in flight alone.
  lemma PurgeSpares(s: Ctx, op: Op)
    requires s.purge < LAST_PURGE_POS && op.DeviceRead? && !InUnwritten(s, op)
    requires op.plba + |op.seen| <= |s.disk.data| && s.disk.data[op.plba..op.plba + |op.seen|] == op.seen
    ensures var s' := PurgeCache(s);
            && op.plba + |op.seen| <= |s'.disk.data| && s'.disk.data[op.plba..op.plba + |op.seen|] == op.seen
            && !InUnwritten(s', op)
  {
    PurgeAt(s);
    var s' := PurgeCache(s);
    PurgeWrites(s, 0);
    hide PurgeCache;
    forall k | 0 <= k < |op.seen| ensures s'.disk.data[op.plba + k] == op.seen[k] {
      PurgeWrites(s, op.plba + k);
      assert op.seen[k] == s.disk.data[op.plba..op.plba + |op.seen|][k];
    }
  }

  lemma PurgeAt(s: Ctx)
    requires s.purge < LAST_PURGE_POS
    ensures PurgeCache(s).chunk == s.chunk && PurgeCache(s).next == s.next
    ensures PurgeCache(s).purge == s.purge + 0x200 && PurgeCache(s).finalized == s.finalized
    ensures PurgeCache(s).reloc.prepared == s.reloc.prepared
    ensures 0 < |s.disk.data|
  {
    hide UpdateMap, PurgeImage;
  }

  // After a purge the chunk is not yet certain to be left.
  lemma PurgeKeepsOp(sys: Sys, sys': Sys, i: nat)
    requires i < |sys.ops| && i < |sys.gate.workers| && WriterOk(sys) && !sys.gate.waiting && !sys.issued
    requires sys.m.ctx.purge < LAST_PURGE_POS && sys.m.ctx.reloc.prepared
    requires sys'.m.ctx == PurgeCache(sys.m.ctx) && sys'.ops == sys.ops && sys'.gate == sys.gate && !sys'.issued
    ensures KeepsOp(sys, sys', i)
  {
    PurgeAt(sys.m.ctx);
    hide PurgeCache;
    if OpOk(sys, i) && sys.ops[i].DeviceRead? {
      PurgeSpares(sys.m.ctx, sys.ops[i]);
    }
  }

  // The chunk that is entered was the next one, and its readers are marked.
  lemma LeaveKeepsOp(sys: Sys, sys': Sys, i: nat)
    requires i < |sys.ops| && i < |sys.gate.workers| && WriterOk(sys) && !sys.gate.waiting
    requires sys.m.ctx.purge == LAST_PURGE_POS == sys.m.ctx.finalized
    requires sys'.m.ctx == SwitchChunk(sys.m.ctx) && sys'.ops == sys.ops && sys'.gate == sys.gate && !sys'.issued
    ensures KeepsOp(sys, sys', i)
  {
  }

  // Nobody is marked any more once the writer need not wait.
  lemma PreparedKeepsOp(sys: Sys, sys': Sys, i: nat)
    requires i < |sys.ops| && i < |sys.gate.workers| && !sys.gate.waiting && !sys.issued
    requires sys.m.ctx.purge < LAST_PURGE_POS && !sys.m.ctx.reloc.prepared
    requires sys.gate.threadsMarked == Gate.CountMarked(sys.gate.workers)
    requires sys'.m.ctx == PrepareRelocate(sys.m.ctx) && sys'.ops == sys.ops && !sys'.issued
    requires sys'.gate == Gate.WaitMarked(sys.gate).0
    ensures KeepsOp(sys, sys', i)
  {
    Gate.NoneMarked(sys.gate.workers);
  }

  lemma FinaliseKeepsOp(sys: Sys, sys': Sys, i: nat)
    requires i < |sys.ops| && i < |sys.gate.workers|
    requires sys.m.ctx.purge < LAST_PURGE_POS || Leaving(sys) || !InNext(sys.m.ctx, sys.ops[i])
    requires sys'.m.ctx == PurgeChunk(sys.m.ctx) && sys'.ops == sys.ops && sys'.gate == sys.gate && !sys'.issued
    ensures KeepsOp(sys, sys', i)
  {
  }

  lemma StayKeepsOp(sys: Sys, sys': Sys, i: nat)
    requires i < |sys.ops| && i < |sys.gate.workers| && HasEffect(sys.m.ctx, sys'.m.ctx, Stays)
    requires sys'.ops == sys.ops && sys'.gate == sys.gate && !sys'.issued
    ensures KeepsOp(sys, sys', i)
  {
  }

  lemma GateFacts(g: Gate.Gate)
    requires Gate.GateOk(g)
    ensures |g.workers| == Gate.READ_THREADS && g.threadsMarked == Gate.CountMarked(g.workers)
  {
  }

  lemma Phases(s: Ctx)
    requires Inv(s)
    ensures s.purge <= LAST_PURGE_POS && (s.reloc.done ==> s.reloc.prepared)
    ensures s.finalized < s.purge ==> s.finalized < LAST_PURGE_POS
  {
  }

  lemma PassKeepsOp(sys: Sys, i: nat)
    requires SysFits(sys) && !sys.gate.waiting && i < Gate.READ_THREADS
    requires !(FinalisesFull(sys) && !sys.issued) && (FinalisesUnmarked(sys) ==> NextClear(sys))
    ensures |sys.gate.workers| == Gate.READ_THREADS && KeepsOp(sys, WriterPass(sys), i)
  {
    PassEffect(sys);
    GateFacts(sys.gate);
    Phases(sys.m.ctx);
    hide Runs.NextPass, Inv, Gate.GateOk, PurgeCache, PurgeChunk, SwitchChunk, PrepareRelocate;
    hide Runs.Purging, OpOk, KeepsOp;
    var sys' := WriterPass(sys);
    match EffectOf(sys)
    case Purges => PurgeKeepsOp(sys, sys', i);
    case Prepared => PreparedKeepsOp(sys, sys', i);
    case Leaves => LeaveKeepsOp(sys, sys', i);
    case Finalises => FinaliseKeepsOp(sys, sys', i);
    case Stays => StayKeepsOp(sys, sys', i);
  }

  // Marking gives every read in flight a marked thread.
  lemma MarkKeepsOp(sys: Sys, i: nat)
    requires SysFits(sys) && !sys.gate.waiting && FinalisesFull(sys) && !sys.issued && i < Gate.READ_THREADS
    ensures |sys.gate.workers| == |WriterPass(sys).gate.workers| == Gate.READ_THREADS
    ensures KeepsOp(sys, WriterPass(sys), i)
  {
    GateFacts(sys.gate);
    Gate.MarkReadersMarksBusy(sys.gate);
    GateFacts(Gate.MarkReaders(sys.gate));
    hide Inv, Gate.GateOk, Gate.MarkReaders;
  }

  lemma WaitKeepsGate(g: Gate.Gate)
    requires Gate.GateOk(g) && g.otherActive == 1 && !g.waiting
    ensures var g' := Gate.WaitMarked(g).0;
            Gate.GateOk(g') && g'.otherActive == 1
  {
    Gate.WaitMarkedKeeps(g);
  }

  lemma PassKeepsMachine(m: Runs.Machine)
    requires Runs.MachineOk(m)
    ensures Runs.MachineOk(Runs.NextPass(m))
    ensures Runs.NextPass(m).activity.Idle? || Runs.NextPass(m).activity == m.activity
         || (m.activity.Write? && Runs.NextPass(m).activity.Write?)
    ensures m.activity.Idle? ==> Runs.NextPass(m) == m
    ensures m.activity.Write? && m.activity.job.done < |m.activity.job.data| ==> Runs.NextPass(m).activity.Write?
  {
    hide Durable, RelocOk, CacheOk;
    match m.activity
    case Idle =>
    case Write(j) =>
      if j.done < |j.data| {
        StepKeepsInv(m.ctx, j);
      }
    case Flush(finalize) =>
      FlushStepKeepsInv(m.ctx, finalize);
  }

  lemma MarkFits(sys: Sys)
    requires SysFits(sys) && !sys.gate.waiting && FinalisesFull(sys) && !sys.issued
    ensures SysFits(WriterPass(sys))
  {
    Phases(sys.m.ctx);
    Gate.MarkReadersMarksBusy(sys.gate);
    hide Inv, Gate.GateOk, Gate.MarkReaders;
  }

  // The passes of a write in the time of marks, one after the other.
  lemma PassMarks(sys: Sys)
    requires SysFits(sys) && !sys.gate.waiting && !(FinalisesFull(sys) && !sys.issued)
    ensures WriterPass(sys).gate.threadsMarked > 0 ==> MarksOut(WriterPass(sys))
  {
    if sys.gate.threadsMarked > 0 {
      var m, j := sys.m, sys.m.activity.job;
      if m.ctx.purge < LAST_PURGE_POS {
        PreparePass(m);
      } else {
        FullPass(m);
      }
      hide Runs.NextPass, Inv, Gate.GateOk, PurgeChunk, SwitchChunk, PrepareRelocate;
      FullAt(m.ctx);
    }
  }

  lemma FullPass(m: Runs.Machine)
    requires Runs.MachineOk(m) && m.activity.Write? && m.activity.job.done < |m.activity.job.data|
    requires m.ctx.purge == LAST_PURGE_POS
    ensures Runs.NextPass(m)
         == m.(ctx := if m.ctx.finalized < LAST_PURGE_POS then PurgeChunk(m.ctx) else SwitchChunk(m.ctx))
  {
    hide Inv, PurgeChunk, SwitchChunk;
  }

  lemma FullAt(s: Ctx)
    ensures PurgeChunk(s).purge == s.purge == PurgeChunk(s).finalized
    ensures SwitchChunk(s).purge < LAST_PURGE_POS && !SwitchChunk(s).reloc.prepared
    ensures PrepareRelocate(s).purge == s.purge
  {
  }

  lemma PassFits(sys: Sys)
    requires SysFits(sys) && !sys.gate.waiting
    ensures SysFits(WriterPass(sys))
  {
    if FinalisesFull(sys) && !sys.issued {
      MarkFits(sys);
    } else {
      PassMarks(sys);
      PassKeepsMachine(sys.m);
      if Prepares(sys) {
        WaitKeepsGate(sys.gate);
        PreparePass(sys.m);
      }
      hide Runs.NextPass, Runs.MachineOk, Gate.GateOk, MarksOut;
    }
  }

  lemma PreparePass(m: Runs.Machine)
    requires Runs.MachineOk(m) && m.activity.Write? && m.activity.job.done < |m.activity.job.data|
    requires m.ctx.purge < LAST_PURGE_POS && !m.ctx.reloc.prepared
    ensures Runs.NextPass(m) == m.(ctx := PrepareRelocate(m.ctx)) && !PrepareRelocate(m.ctx).reloc.done
  {
    PhaseFacts(m.ctx);
    hide Inv;
  }

  lemma BeginFits(sys: Sys, b: Runs.Event)
    requires SysFits(sys) && (b.BeginWrite? || b.BeginFlush?) && sys.m.activity.Idle? && sys.gate.otherActive == 1
    ensures SysFits(sys.(m := Runs.Next(sys.m, b)))
  {
    hide Gate.GateOk, Inv;
  }

  // ---- All interleavings

  lemma FinishFits(sys: Sys, i: nat)
    requires SysFits(sys) && i < |sys.ops|
    ensures SysFits(sys.(ops := sys.ops[i := NoRead]))
  {
    hide Gate.GateOk, Inv;
  }

  lemma StepFits(sys: Sys, e: Event)
    requires SysFits(sys)
    ensures SysFits(Next(sys, e))
  {
    SysGate(sys);
    hide SysFits, WriterPass, Gate.Happen, Scheduled, Runs.Next, IssueRead;
    match e
    case Scheduler(g) =>
      if Scheduled(sys, g) {
        SchedulerFits(sys, g);
      }
    case Issue(i, lba, len) =>
      if i < Gate.READ_THREADS && 0 < len && lba + len <= 8 * sys.m.ctx.cfg.SizeOfMap {
        IssueFits(sys, i, lba, len);
      }
    case Finish(i) =>
      if i < Gate.READ_THREADS {
        FinishFits(sys, i);
      }
    case Begin(b) =>
      if (b.BeginWrite? || b.BeginFlush?) && sys.m.activity.Idle? && sys.gate.otherActive == 1 {
        BeginFits(sys, b);
      }
    case Pass =>
      if !sys.gate.waiting {
        PassFits(sys);
      }
  }

  lemma SysGate(sys: Sys)
    requires SysFits(sys)
    ensures |sys.gate.workers| == |sys.ops| == Gate.READ_THREADS && Inv(sys.m.ctx) && WriterOk(sys)
  {
    TenWorkers(sys.gate);
  }

  lemma FinishKeepsOp(sys: Sys, k: nat, i: nat)
    requires k < |sys.ops| && i < |sys.ops| && i < |sys.gate.workers|
    ensures KeepsOp(sys, sys.(ops := sys.ops[k := NoRead]), i)
  {
  }

  lemma BeginKeepsOp(sys: Sys, b: Runs.Event, i: nat)
    requires SysFits(sys) && i < |sys.ops| && i < |sys.gate.workers| && (b.BeginWrite? || b.BeginFlush?)
    ensures KeepsOp(sys, sys.(m := Runs.Next(sys.m, b)), i)
  {
    hide Inv;
  }

  lemma SomePassKeepsOp(sys: Sys, i: nat)
    requires SysFits(sys) && !sys.gate.waiting && i < Gate.READ_THREADS
    requires FinalisesUnmarked(sys) ==> NextClear(sys)
    ensures |sys.gate.workers| == Gate.READ_THREADS && KeepsOp(sys, WriterPass(sys), i)
  {
    if FinalisesFull(sys) && !sys.issued {
      MarkKeepsOp(sys, i);
    } else {
      PassKeepsOp(sys, i);
    }
    hide SysFits, KeepsOp, WriterPass;
  }

  lemma SameKeepsOp(sys: Sys, i: nat)
    requires i < |sys.ops| && i < |sys.gate.workers|
    ensures KeepsOp(sys, sys, i)
  {
  }

  lemma StepKeepsOp(sys: Sys, e: Event, i: nat)
    requires SysFits(sys) && (e.Pass? && FinalisesUnmarked(sys) ==> NextClear(sys))
    requires i < Gate.READ_THREADS && |sys.gate.workers| == Gate.READ_THREADS
    ensures KeepsOp(sys, Next(sys, e), i)
  {
    SysGate(sys);
    SameKeepsOp(sys, i);
    hide SysFits, WriterPass, KeepsOp, Gate.Happen, Scheduled, Runs.Next, IssueRead, FinalisesUnmarked, NextClear;
    match e
    case Scheduler(g) =>
      if Scheduled(sys, g) {
        SchedulerKeepsOp(sys, g, i);
      }
    case Issue(k, lba, len) =>
      if k < Gate.READ_THREADS && sys.gate.workers[k].link == Gate.BUSY
         && 0 < len && lba + len <= 8 * sys.m.ctx.cfg.SizeOfMap {
        IssueKeepsOp(sys, k, lba, len, i);
      }
    case Finish(k) =>
      if k < Gate.READ_THREADS {
        FinishKeepsOp(sys, k, i);
      }
    case Begin(b) =>
      if b.BeginWrite? || b.BeginFlush? {
        BeginKeepsOp(sys, b, i);
      }
    case Pass =>
      if !sys.gate.waiting {
        SomePassKeepsOp(sys, i);
      }
  }

  // Every step of every interleaving keeps the readers safe, if a flush only finalises a full
  // chunk while no read of the next chunk is in flight.
  lemma StepKeeps(sys: Sys, e: Event)
    requires SysOk(sys) && (e.Pass? && FinalisesUnmarked(sys) ==> NextClear(sys))
    ensures SysOk(Next(sys, e))
  {
    StepFits(sys, e);
    SysGate(sys);
    SysGate(Next(sys, e));
    forall i | 0 <= i < Gate.READ_THREADS ensures OpOk(Next(sys, e), i) {
      hide SysFits, OpOk, Next, FinalisesUnmarked, NextClear;
      assert OpOk(sys, i);
      StepKeepsOp(sys, e, i);
    }
  }

  // In a flush no thread is marked.
  lemma FlushUnmarked(sys: Sys)
    requires SysFits(sys) && sys.m.activity.Flush?
    ensures sys.gate.threadsMarked == 0 && !sys.gate.waiting
    ensures forall i | 0 <= i < |sys.gate.workers| :: !sys.gate.workers[i].marked
  {
    GateFacts(sys.gate);
    Gate.NoneMarked(sys.gate.workers);
  }

  ghost function After(sys: Sys, e: Event): (r: Sys)
    requires SysFits(sys)
    ensures SysFits(r) && |r.ops| == Gate.READ_THREADS
  {
    StepFits(sys, e);
    Next(sys, e)
  }

  ghost function AnyRun(sys: Sys, events: seq<Event>): (r: Sys)
    requires SysFits(sys)
    ensures SysFits(r) && |r.ops| == Gate.READ_THREADS
    decreases |events|
  {
    if events == [] then sys
    else
      AnyRun(After(sys, events[0]), events[1..])
  }

  // Whether every flush of a run that finalises a full chunk does so while no read of the
  // next chunk is in flight.
  ghost predicate ClearAlways(sys: Sys, events: seq<Event>)
    requires SysFits(sys)
    decreases |events|
  {
    events == [] ||
      ((events[0].Pass? && FinalisesUnmarked(sys) ==> NextClear(sys))
       && ClearAlways(After(sys, events[0]), events[1..]))
  }

  // A purge is in flight from the pass that issues it until the next pass of the writer.
  ghost predicate PurgeInFlight(sys: Sys) {
    Runs.MachineOk(sys.m) && Runs.Purging(sys.m)
  }

  // The read of thread i will not meet a purge, and will return what it should.
  ghost predicate SafeFor(sys: Sys, i: nat) {
    i < |sys.ops| &&
    var s, op := sys.m.ctx, sys.ops[i];
    && (PurgeInFlight(sys) ==> !Overlaps(op, Plba(s.chunk, s.purge), Plba(s.chunk, s.purge + 0x200)))
    && (op.DeviceRead? ==>
          op.plba + |op.seen| <= |s.disk.data| && s.disk.data[op.plba..op.plba + |op.seen|] == op.seen)
  }

  // While a purge is in flight, no read in flight overlaps it.
  lemma NoOverlap(sys: Sys, i: nat)
    requires SysOk(sys) && i < Gate.READ_THREADS && PurgeInFlight(sys)
    ensures var s := sys.m.ctx;
            |sys.ops| == Gate.READ_THREADS
            && !Overlaps(sys.ops[i], Plba(s.chunk, s.purge), Plba(s.chunk, s.purge + 0x200))
  {
    SysGate(sys);
    assert OpOk(sys, i);
    Runs.PurgingCanPurge(sys.m);
    Phases(sys.m.ctx);
    hide Runs.MachineOk, Gate.GateOk, Runs.Purging;
  }

  lemma OkIsSafe(sys: Sys, i: nat)
    requires SysOk(sys) && i < Gate.READ_THREADS
    ensures SafeFor(sys, i)
  {
    SysGate(sys);
    assert OpOk(sys, i);
    if PurgeInFlight(sys) {
      NoOverlap(sys, i);
    }
    hide Runs.MachineOk, Gate.GateOk, Runs.Purging;
  }

  ghost predicate AllSafe(sys: Sys) {
    forall i | 0 <= i < Gate.READ_THREADS :: SafeFor(sys, i)
  }

  // Over every interleaving of readers, writer and scheduler: purges and reads in flight
  // never meet, and a device read returns the sectors as they were when it was issued.
  lemma {:induction false} RunSafe(sys: Sys, events: seq<Event>)
    requires SysOk(sys) && ClearAlways(sys, events)
    ensures SysOk(AnyRun(sys, events)) && AllSafe(AnyRun(sys, events))
    decreases |events|
  {
    if events == [] {
      forall i | 0 <= i < Gate.READ_THREADS ensures SafeFor(sys, i) {
        OkIsSafe(sys, i);
      }
    } else {
      StepKeeps(sys, events[0]);
      RunSafe(Next(sys, events[0]), events[1..]);
    }
  }

  // The driver behind recovery: no reads in flight, nobody marked.
  function InitialSys(s: Ctx): Sys {
    Sys(Runs.Machine(s, Runs.Idle), Gate.InitialGate(), seq(Gate.READ_THREADS, i => NoRead), false)
  }

  lemma InitialSysOk(s: Ctx)
    requires Inv(s)
    ensures SysOk(InitialSys(s))
  {
    hide Inv, Gate.GateOk;
    Gate.InitialGateOk();
  }

  // A device read still in flight after any further run finds on the device what it was
  // issued for.
  lemma SeenStays(sys: Sys, events: seq<Event>, i: nat, op: Op)
    requires SysOk(sys) && ClearAlways(sys, events) && i < Gate.READ_THREADS
    requires op.DeviceRead? && AnyRun(sys, events).ops[i] == op
    ensures var d := AnyRun(sys, events).m.ctx.disk;
            op.plba + |op.seen| <= |d.data| && d.data[op.plba..op.plba + |op.seen|] == op.seen
  {
    hide SysFits, OpOk, AnyRun, ClearAlways, PurgeInFlight;
    RunSafe(sys, events);
    assert SafeFor(AnyRun(sys, events), i);
  }

  // What a read just issued waits for is what the logical disk holds.
  lemma IssuedExpects(sys: Sys, i: nat, lba: nat, len: nat)
    requires i < |sys.ops| && 0 < len && lba + len <= 8 * sys.m.ctx.cfg.SizeOfMap
    requires ReadRound(sys.m.ctx, lba, len).Device?
    ensures var r, op := ReadRound(sys.m.ctx, lba, len), IssueRead(sys, i, lba, len).ops[i];
            op.DeviceRead? && op.plba == r.plba && |op.seen| == r.n && Delivers(sys.m.ctx, lba, op.seen)
  {
  }
}
