// How a flush comes to finalise a full chunk while a read of the next chunk is in flight: the
// read is issued for a block that still lives there, and stays in flight while the chunk fills.
module MetReader {
  import opened Geometry
  import opened Model
  import opened Invariant
  import opened LogKeeping
  import opened Relocation
  import opened Writing
  import opened Reading
  import opened Recovery
  import opened Readers
  import opened Unmarked
  import opened ChunkFill
  import Runs
  import Gate

  // ---- The read

  lemma LiveIsInNext(s: Ctx, b: nat)
    requires Inv(s) && s.cache.pos == 0 && b < s.cfg.SizeOfMap
    requires s.mi.Map[b] != NOT_MAPPED && InChunk(s.mi.Map[b], s.next)
    ensures var r := ReadRound(s, 8 * b, 1);
            && r == Device(s.mi.Map[b], 1)
            && InNext(s, DeviceRead(r.plba, Expected(s, 8 * b, 1)))
  {
    InvParts(s);
    LocatedIn(s, b);
    InChunkIff(s.mi.Map[b], s.next);
    hide LogOk, Inv;
  }

  // The scheduler with the other thread at work.
  function OtherAtWork(): Gate.Gate {
    Gate.InitialGateOk();
    Gate.Happen(Gate.InitialGate(), Gate.Other(0)).0
  }

  lemma GateReads() returns (g: Gate.Gate)
    ensures Gate.GateOk(OtherAtWork()) && g == Gate.Happen(OtherAtWork(), Gate.Read(0)).0
    ensures |g.workers| == Gate.READ_THREADS && g.workers[0].link == Gate.BUSY
    ensures g.otherActive == 1 && g.threadsMarked == 0 && !g.waiting
  {
    Gate.InitialGateOk();
    Gate.HappenKeeps(Gate.InitialGate(), Gate.Other(0));
    Gate.HappenKeeps(OtherAtWork(), Gate.Read(0));
    g := Gate.Happen(OtherAtWork(), Gate.Read(0)).0;
  }

  // The other thread is at work, and no read is in flight.
  ghost predicate Alone(sys: Sys) {
    Undisturbed(sys) && sys.gate == OtherAtWork() && sys.ops == seq(Gate.READ_THREADS, i => NoRead)
  }

  lemma OtherGate()
    ensures Gate.GateOk(Gate.InitialGate()) && Gate.Enabled(Gate.InitialGate(), Gate.Other(0))
    ensures OtherAtWork() == Gate.Happen(Gate.InitialGate(), Gate.Other(0)).0
    ensures var g := OtherAtWork(); g.otherActive == 1 && g.threadsMarked == 0 && !g.waiting
  {
    Gate.InitialGateOk();
    hide Gate.GateOk;
  }

  lemma OtherStarts(s: Ctx)
    requires Inv(s)
    ensures SysFits(InitialSys(s))
    ensures var t := After(InitialSys(s), Scheduler(Gate.Other(0)));
            Alone(t) && t.m == Runs.Machine(s, Runs.Idle)
  {
    hide Inv, Gate.GateOk, Gate.Happen, Gate.InitialGate, OtherAtWork, MarksOut;
    InitialSysOk(s);
    OtherGate();
    StepFits(InitialSys(s), Scheduler(Gate.Other(0)));
  }

  lemma ThreadTakes(sys: Sys, g: Gate.Gate)
    requires Undisturbed(sys) && sys.gate == OtherAtWork() && g == Gate.Happen(OtherAtWork(), Gate.Read(0)).0
    requires g.otherActive == 1 && g.threadsMarked == 0 && !g.waiting
    ensures var t := After(sys, Scheduler(Gate.Read(0)));
            t == sys.(gate := g) && Undisturbed(t)
  {
    hide Inv, Gate.GateOk, Gate.Happen, OtherAtWork, MarksOut;
    StepFits(sys, Scheduler(Gate.Read(0)));
  }

  lemma ReadIssues(sys: Sys, b: nat)
    requires Undisturbed(sys) && |sys.gate.workers| == Gate.READ_THREADS && sys.gate.workers[0].link == Gate.BUSY
    requires sys.ops[0].NoRead? && b < sys.m.ctx.cfg.SizeOfMap
    requires ReadRound(sys.m.ctx, 8 * b, 1) == Device(sys.m.ctx.mi.Map[b], 1)
    ensures var t := After(sys, Issue(0, 8 * b, 1));
            && t == sys.(ops := sys.ops[0 := DeviceRead(sys.m.ctx.mi.Map[b], Expected(sys.m.ctx, 8 * b, 1))])
            && Undisturbed(t)
  {
    hide Inv, Gate.GateOk, ReadRound, Expected, MarksOut;
    StepFits(sys, Issue(0, 8 * b, 1));
  }

  // A read thread takes a request for block b and sends it to the device.
  lemma ReadStarts(sys: Sys, b: nat) returns (events: seq<Event>)
    requires Alone(sys) && sys.m.ctx.cache.pos == 0 && b < sys.m.ctx.cfg.SizeOfMap
    requires sys.m.ctx.mi.Map[b] != NOT_MAPPED && InChunk(sys.m.ctx.mi.Map[b], sys.m.ctx.next)
    ensures SysFits(sys) && ClearAlways(sys, events)
    ensures var t := AnyRun(sys, events);
            Undisturbed(t) && t.m == sys.m && |t.ops| > 0 && InNext(t.m.ctx, t.ops[0])
  {
    hide ClearAlways, AnyRun, Gate.GateOk, Inv, After, InNext, Gate.Happen, ReadRound, Expected;
    var s := sys.m.ctx;
    SysGate(sys);
    hide SysFits;
    var g := GateReads();
    ThreadTakes(sys, g);
    LiveIsInNext(s, b);
    var r, i := Scheduler(Gate.Read(0)), Issue(0, 8 * b, 1);
    var sys1 := After(sys, r);
    ReadIssues(sys1, b);
    var t := After(sys1, i);
    events := [r] + ([i] + []);
    OneStep(sys, r, [i] + []);
    OneStep(sys1, i, []);
    NothingMore(t);
  }

  // ---- The chunk fills under it

  lemma SameNext(s: Ctx, t: Ctx)
    requires s.next == t.next
    ensures forall op: Op :: InNext(s, op) <==> InNext(t, op)
  {
  }

  lemma FilledReads(sys: Sys, t: Sys, w: nat)
    requires Filled(sys, t, w) && |sys.ops| > 0 && InNext(sys.m.ctx, sys.ops[0])
    ensures !NextClear(t) && t.m.ctx.cfg == sys.m.ctx.cfg
  {
    SameNext(sys.m.ctx, t.m.ctx);
    hide Undisturbed, InNext;
  }

  // A write that waits, a read of a block in the next chunk, and the chunk filled behind it.
  lemma ReadAndFill(sys: Sys, j: Job, b: nat) returns (events: seq<Event>)
    requires Alone(sys) && sys.m.activity == Runs.Write(j) && Waits(sys.m.ctx, j) && sys.m.ctx.cache.pos == 0
    requires b < sys.m.ctx.cfg.SizeOfMap
    requires sys.m.ctx.mi.Map[b] != NOT_MAPPED && InChunk(sys.m.ctx.mi.Map[b], sys.m.ctx.next)
    ensures SysFits(sys) && ClearAlways(sys, events)
    ensures var t := AnyRun(sys, events);
            FinalisesUnmarked(t) && !NextClear(t) && t.m.ctx.cfg == sys.m.ctx.cfg
  {
    hide SysFits, ClearAlways, AnyRun, After, FinalisesUnmarked, NextClear, Waits, InNext, Alone, Filled;
    var read := ReadStarts(sys, b);
    var t := AnyRun(sys, read);
    var fill := FillChunk(t, j);
    FilledReads(t, AnyRun(t, fill), j.lba / 8);
    RunOn(sys, read, fill);
    events := read + fill;
  }

  // From any context as recovery leaves it, with a block in the next chunk and a block
  // elsewhere, the driver can come to such a flush.
  lemma FlushMeetsReader(s: Ctx, b: nat, other: nat) returns (events: seq<Event>)
    requires Inv(s) && s.cache.pos == 0 && !s.dirty && s.purge < LAST_PURGE_POS
    requires b < s.cfg.SizeOfMap && s.mi.Map[b] != NOT_MAPPED && InChunk(s.mi.Map[b], s.next)
    requires other < s.cfg.SizeOfMap && !InChunk(s.mi.Map[other], s.next)
    ensures SysFits(InitialSys(s)) && ClearAlways(InitialSys(s), events)
    ensures var t := AnyRun(InitialSys(s), events);
            SysOk(t) && FinalisesUnmarked(t) && !NextClear(t) && t.m.ctx.cfg == s.cfg
  {
    hide SysFits, SysOk, ClearAlways, AnyRun, After, FinalisesUnmarked, NextClear, Inv, Waits, InitialSys;
    var j := Job(8 * other, Zeros(8), 0);
    var begun := OneBegins(s, other);
    var rest := ReadAndFill(AnyRun(InitialSys(s), begun), j, b);
    InitialSysOk(s);
    RunOn(InitialSys(s), begun, rest);
    events := begun + rest;
    RunSafe(InitialSys(s), events);
  }

  // The other thread begins the write of one block.
  lemma OneBegins(s: Ctx, other: nat) returns (events: seq<Event>)
    requires Inv(s) && s.cache.pos == 0 && !s.dirty && s.purge < LAST_PURGE_POS
    requires other < s.cfg.SizeOfMap && !InChunk(s.mi.Map[other], s.next)
    ensures SysFits(InitialSys(s)) && ClearAlways(InitialSys(s), events)
    ensures var t, j := AnyRun(InitialSys(s), events), Job(8 * other, Zeros(8), 0);
            Alone(t) && t.m == Runs.Machine(s, Runs.Write(j)) && Waits(s, j)
  {
    hide SysFits, ClearAlways, AnyRun, After, Waits, InitialSys, Inv, OtherAtWork;
    var j := Job(8 * other, Zeros(8), 0);
    EmptyWaits(s, j);
    OtherStarts(s);
    var o, e := Scheduler(Gate.Other(0)), Begin(Runs.BeginWrite(j.lba, j.data));
    var sys := After(InitialSys(s), o);
    Begins(sys, j);
    events := [o] + ([e] + []);
    OneStep(InitialSys(s), o, [e] + []);
    OneStep(sys, e, []);
    NothingMore(After(sys, e));
  }

  // ---- The exact condition

  lemma LeftIs(s: Ctx)
    requires Inv(s) && s.purge == LAST_PURGE_POS
    ensures var t := SwitchChunk(PurgeChunk(s));
            && Inv(t) && t.cfg == s.cfg && t.mi.Map == s.mi.Map && t.cache.pos == s.cache.pos && t.dirty == s.dirty
            && t.purge < LAST_PURGE_POS
  {
    hide Durable, RelocOk, CacheOk;
    PurgeChunkKeepsInv(s);
    SwitchKeepsInv(PurgeChunk(s));
  }

  // Whether some block is stored outside the chunk that will be emptied after the next, or
  // not at all.
  ghost predicate BlockElsewhere(s: Ctx, b: nat) {
    b < s.cfg.SizeOfMap && !InChunk(s.mi.Map[b], SwitchChunk(PurgeChunk(s)).next)
  }

  lemma FullContext(sys: Sys)
    requires SysFits(sys) && FinalisesUnmarked(sys)
    ensures Inv(sys.m.ctx) && sys.m.ctx.purge == LAST_PURGE_POS && |sys.ops| == Gate.READ_THREADS
  {
    hide Inv, Gate.GateOk;
  }

  // The next chunk is entered by the write of that block.
  lemma EntersWaiting(sys: Sys, b: nat) returns (t: Sys)
    requires SysFits(sys) && FinalisesUnmarked(sys) && BlockElsewhere(sys.m.ctx, b)
    ensures SysFits(After(sys, Pass))
    ensures var j := Job(8 * b, Zeros(8), 0);
            && t == AnyRun(After(sys, Pass), Onward(j)) && ClearAlways(After(sys, Pass), Onward(j))
            && Undisturbed(t) && t.ops == sys.ops && t.m.activity == Runs.Write(j) && Waits(t.m.ctx, j)
            && t.m.ctx.chunk == sys.m.ctx.next && t.m.ctx.purge == StartOf(sys.m.ctx.next)
  {
    hide SysFits, AnyRun, ClearAlways, FinalisesUnmarked, After, Onward, Waits, Inv, PurgeChunk, SwitchChunk;
    var s, j := sys.m.ctx, Job(8 * b, Zeros(8), 0);
    FullContext(sys);
    NothingLeft(s);
    LeftIs(s);
    ChunkLeft(s);
    ChunkLeft(PurgeChunk(s));
    t := EntersNext(sys, j);
    hide Undisturbed;
    EmptyWaits(t.m.ctx, j);
  }

  // Writing that block again and again brings the purge that overlaps the read.
  lemma ReaderMetBy(sys: Sys, i: nat, b: nat) returns (events: seq<Event>)
    requires SysFits(sys) && FinalisesUnmarked(sys) && BlockElsewhere(sys.m.ctx, b)
    requires i < Gate.READ_THREADS && InNext(sys.m.ctx, sys.ops[i])
    ensures ClearAlways(After(sys, Pass), events) && !SafeFor(AnyRun(After(sys, Pass), events), i)
  {
    hide SysFits, AnyRun, ClearAlways, FinalisesUnmarked, SafeFor, Meets, Overlaps, After, Onward, Waits, Undisturbed;
    hide BlockElsewhere, InNext;
    FullContext(sys);
    var q := SlotOfRead(sys.m.ctx, sys.ops[i]);
    var t := EntersWaiting(sys, b);
    var j := Job(8 * b, Zeros(8), 0);
    var on := FillTo(t, j, q);
    RunOn(After(sys, Pass), Onward(j), on);
    events := Onward(j) + on;
    MetIsUnsafe(AnyRun(After(sys, Pass), events), sys.m.ctx.next, q, i);
  }

  // When a flush finalises a full chunk, all that follows is safe exactly if no read of the
  // next chunk is in flight at that moment. Left open are logical disks of fewer than 64
  // blocks, all stored in one chunk that is emptied after the next: they may be cached as a
  // whole, and the writer need not purge again then.
  lemma UnmarkedSafeExactly(sys: Sys)
    requires SysOk(sys) && FinalisesUnmarked(sys)
    requires 64 <= sys.m.ctx.cfg.SizeOfMap || exists b: nat :: BlockElsewhere(sys.m.ctx, b)
    ensures StaysSafe(After(sys, Pass)) <==> NextClear(sys)
  {
    SysFitsIn(sys);
    hide SysFits, SysOk, After, FinalisesUnmarked, StaysSafe, InNext, BlockElsewhere;
    if NextClear(sys) {
      ClearIsSafe(sys);
    } else {
      var i: nat :| i < |sys.ops| && InNext(sys.m.ctx, sys.ops[i]);
      var events;
      if 64 <= sys.m.ctx.cfg.SizeOfMap {
        events := ReaderMet(sys, i);
      } else {
        var b: nat :| BlockElsewhere(sys.m.ctx, b);
        events := ReaderMetBy(sys, i, b);
      }
      NotSafe(After(sys, Pass), events, i);
    }
  }
}
