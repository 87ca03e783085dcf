// A flush that finalises a full chunk marks no read threads (driver/vflush.c). That keeps
// the readers safe exactly when no read of the next chunk is in flight then; otherwise the
// writer goes on until a purge meets the read.
module Unmarked {
  import opened Geometry
  import opened Model
  import opened Invariant
  import opened CacheIndex
  import opened Relocation
  import opened Writing
  import opened Termination
  import opened Readers
  import opened Context
  import Runs
  import Gate

  // ---- Runs that follow each other

  lemma {:induction false} RunOn(sys: Sys, first: seq<Event>, rest: seq<Event>)
    requires SysFits(sys)
    ensures AnyRun(sys, first + rest) == AnyRun(AnyRun(sys, first), rest)
    ensures ClearAlways(sys, first) && ClearAlways(AnyRun(sys, first), rest) ==> ClearAlways(sys, first + rest)
    decreases |first|
  {
    hide SysFits, After;
    if first == [] {
      assert [] + rest == rest;
    } else {
      assert (first + rest)[1..] == first[1..] + rest;
      RunOn(After(sys, first[0]), first[1..], rest);
    }
  }

  lemma OneStep(sys: Sys, e: Event, rest: seq<Event>)
    requires SysFits(sys) && (e.Pass? ==> !FinalisesUnmarked(sys))
    ensures AnyRun(sys, [e] + rest) == AnyRun(After(sys, e), rest)
    ensures ClearAlways(After(sys, e), rest) ==> ClearAlways(sys, [e] + rest)
  {
    hide SysFits, After, FinalisesUnmarked, NextClear;
    assert ([e] + rest)[1..] == rest;
  }

  // ---- The writer on its own

  // The other thread is at work, and nobody is marked or waited for.
  ghost predicate Undisturbed(sys: Sys) {
    SysFits(sys) && sys.gate.otherActive == 1 && sys.gate.threadsMarked == 0 && !sys.gate.waiting && !sys.issued
  }

  function MovedTo(sys: Sys, s: Ctx, activity: Runs.Activity): Sys {
    sys.(m := Runs.Machine(s, activity))
  }

  lemma WritePasses(sys: Sys, j: Job)
    requires Undisturbed(sys) && sys.m.activity == Runs.Write(j) && j.done < |j.data|
    requires sys.m.ctx.purge < LAST_PURGE_POS || sys.m.ctx.finalized == LAST_PURGE_POS
    ensures Inv(sys.m.ctx) && JobFits(sys.m.ctx.cfg, j) && !FinalisesUnmarked(sys)
    ensures var (s, r) := WriteStep(sys.m.ctx, j);
            After(sys, Pass) == MovedTo(sys, s, Runs.Write(r)) && Undisturbed(After(sys, Pass))
  {
    hide Inv, WriteStep, Gate.GateOk, Gate.MarkReaders, MarksOut;
    StepFits(sys, Pass);
  }

  lemma WriteEnds(sys: Sys, j: Job)
    requires Undisturbed(sys) && sys.m.activity == Runs.Write(j) && j.done == |j.data|
    ensures After(sys, Pass) == MovedTo(sys, sys.m.ctx, Runs.Idle) && Undisturbed(After(sys, Pass))
    ensures !FinalisesUnmarked(sys)
  {
    hide Inv, WriteStep, Gate.GateOk, Gate.MarkReaders, MarksOut;
    StepFits(sys, Pass);
  }

  lemma Begins(sys: Sys, j: Job)
    requires Undisturbed(sys) && sys.m.activity.Idle? && JobFits(sys.m.ctx.cfg, j) && j.done == 0
    ensures var e := Begin(Runs.BeginWrite(j.lba, j.data));
            After(sys, e) == MovedTo(sys, sys.m.ctx, Runs.Write(j)) && Undisturbed(After(sys, e))
  {
    hide Inv, Gate.GateOk, MarksOut;
    StepFits(sys, Begin(Runs.BeginWrite(j.lba, j.data)));
  }

  // ---- A large write purges

  ghost predicate Holds(c: Cache, x: nat) {
    exists p | 0 <= p < c.pos :: c.lba[p] == x
  }

  // The sectors from lba to end are cached.
  ghost predicate Covers(c: Cache, lba: nat, end: nat) {
    forall x: nat | lba <= x < end :: Holds(c, x)
  }

  // Everything that is cached stays so.
  ghost predicate Grows(c: Cache, c': Cache) {
    c.pos <= c'.pos && forall p | 0 <= p < c.pos :: c'.lba[p] == c.lba[p]
  }

  lemma PushGrows(c: Cache, lba: nat, data: seq<Sector>)
    requires c.pos + |data| <= LAST_CACHE_POS
    ensures Grows(c, Push(c, lba, data)) && Covers(Push(c, lba, data), lba, lba + |data|)
  {
    var c' := Push(c, lba, data);
    forall x: nat | lba <= x < lba + |data| ensures Holds(c', x) {
      assert c'.lba[c.pos + (x - lba)] == x;
    }
  }

  lemma GrowsOn(c: Cache, c': Cache, c'': Cache)
    requires Grows(c, c') && Grows(c', c'')
    ensures Grows(c, c'')
  {
  }

  lemma CopiedGrows(s: Ctx)
    requires s.cache.pos % 8 == 0 && s.cache.pos < LAST_CACHE_POS && s.reloc.pos < LAST_PURGE_POS
    requires s.reloc.start <= s.reloc.pos < s.reloc.end
    ensures Grows(s.cache, Copied(s).cache)
  {
    hide Push;
    var at := s.reloc.pos - s.reloc.start;
    PushGrows(s.cache, s.reloc.table[s.reloc.pos / 8], s.reloc.mem[at..at + 8]);
  }

  lemma {:induction false} ScanGrows(s: Ctx)
    requires s.cache.pos % 8 == 0
    ensures Grows(s.cache, RelocateScan(s).cache)
    decreases LAST_PURGE_POS - s.reloc.pos
  {
    ScanSteps(s);
    Same(s);
    hide Grows, LiveSlot, RelocateScan;
    if s.reloc.pos >= LAST_PURGE_POS {
    } else if !LiveSlot(s.mi.Map, s.reloc.table, s.next, s.reloc.pos / 8) {
      SkippedAt(s);
      ScanGrows(Skipped(s));
    } else if s.cache.pos < LAST_CACHE_POS && s.reloc.start <= s.reloc.pos < s.reloc.end {
      CopiedAt(s);
      CopiedGrows(s);
      ScanGrows(Copied(s));
      GrowsOn(s.cache, Copied(s).cache, RelocateScan(s).cache);
    }
  }

  lemma Same(s: Ctx)
    ensures Grows(s.cache, s.cache)
  {
  }

  lemma HitCovers(s: Ctx, j: Job)
    requires CacheOk(s.cache, s.cfg.SizeOfMap) && j.done < |j.data|
    requires FindCached(s.cache, NextLba(j), 0) != NOT_MAPPED
    ensures var (t, r) := HitWrite(s, j);
            Grows(s.cache, t.cache) && Covers(t.cache, NextLba(j), NextLba(r))
  {
    var c, pos := s.cache, FindCached(s.cache, NextLba(j), 0);
    FindCachedFrom(c, s.cfg.SizeOfMap, NextLba(j), 0);
    hide CacheOk, FindCached;
    var (t, r) := HitWrite(s, j);
    forall x: nat | NextLba(j) <= x < NextLba(r) ensures Holds(t.cache, x) {
      assert t.cache.lba[pos + (x - NextLba(j))] == x;
    }
  }

  lemma AppendCovers(s: Ctx, j: Job)
    requires j.done < |j.data| && s.cache.pos < LAST_CACHE_POS
    ensures var (t, r) := Append(s, j);
            Grows(s.cache, t.cache) && Covers(t.cache, NextLba(j), NextLba(r))
  {
    hide Push;
    var n := AppendLen(s.cache, NextLba(j), |j.data| - j.done, 1);
    PushGrows(s.cache, NextLba(j), j.data[j.done..j.done + n]);
  }

  lemma FillGrows(s: Ctx, lba: nat, n: nat)
    requires lba / 8 < s.cfg.SizeOfMap && lba % 8 + n <= 8 && s.cache.pos + n <= LAST_CACHE_POS
    ensures Grows(s.cache, Fill(s, lba, n).cache)
  {
    hide Push;
    PushGrows(s.cache, lba, Stored(s, lba, n));
  }

  // Behind relocation.
  lemma TransferCovers(s: Ctx, j: Job)
    requires CacheOk(s.cache, s.cfg.SizeOfMap) && s.purge < LAST_PURGE_POS
    requires JobFits(s.cfg, j) && j.done < |j.data|
    requires FindCached(s.cache, NextLba(j), 0) != NOT_MAPPED || s.cache.pos < LAST_CACHE_POS
    ensures var (t, r) := Transfer(s, j);
            Grows(s.cache, t.cache) && Covers(t.cache, NextLba(j), NextLba(r))
  {
    hide CacheOk, FindCached, PurgeCache, Fill, HitWrite, Append, Grows, Holds;
    var c, lba := s.cache, NextLba(j);
    if FindCached(c, lba, 0) != NOT_MAPPED {
      HitCovers(s, j);
    } else if c.pos % 8 != 0 && c.lba[c.pos - 1] + 1 != lba {
      TailFits(c, s.cfg.SizeOfMap);
      FillGrows(s, c.lba[c.pos - 1] + 1, 8 - c.pos % 8);
    } else if c.pos % 8 == 0 && lba % 8 != 0 {
      FillGrows(s, lba - lba % 8, if lba / 8 == (j.lba + |j.data|) / 8 then 8 else lba % 8);
    } else {
      AppendCovers(s, j);
    }
  }

  lemma PassGrows(s: Ctx, j: Job)
    requires Inv(s) && JobFits(s.cfg, j) && j.done < |j.data| && s.purge < LAST_PURGE_POS
    requires !Runs.Purging(Runs.Machine(s, Runs.Write(j)))
    ensures var (t, r) := WriteStep(s, j);
            Grows(s.cache, t.cache) && Covers(t.cache, NextLba(j), NextLba(r))
  {
    hide FindCached, CacheOk, Transfer, RelocateCached, PrepareRelocate, RelocateRead, Grows;
    Runs.InvCache(s);
    PhaseFacts(s);
    hide Inv;
    if !s.reloc.prepared {
      PreparedGrows(s);
    } else if !s.reloc.done {
      RelocatedGrows(s);
    } else {
      TransferCovers(s, j);
    }
  }

  lemma RelocatedGrows(s: Ctx)
    requires s.cache.pos % 8 == 0
    ensures Grows(s.cache, RelocateCached(s).cache) && Grows(s.cache, RelocateRead(RelocateCached(s)).cache)
  {
    ScanGrows(s);
    Same(s);
    WindowGrows(RelocateCached(s));
    hide RelocateScan, RelocateRead, Grows, RatioMet;
  }

  lemma PreparedGrows(s: Ctx)
    ensures Grows(s.cache, PrepareRelocate(s).cache)
  {
  }

  lemma WindowGrows(s: Ctx)
    ensures RelocateRead(s).cache == s.cache
  {
  }

  lemma CoversMore(c: Cache, c': Cache, n: nat, m: nat)
    requires Covers(c, 0, n) && Grows(c, c') && Covers(c', n, m)
    ensures Covers(c', 0, m)
  {
    forall x: nat | x < m ensures Holds(c', x) {
      if x < n {
        assert Holds(c, x);
        var p :| 0 <= p < c.pos && c.lba[p] == x;
        assert c'.lba[p] == x;
      }
    }
  }

  // A cache does not hold as many sectors.
  lemma NotAllCached(c: Cache, n: nat)
    requires LAST_CACHE_POS < n
    ensures !Covers(c, 0, n)
  {
    if Covers(c, 0, n) {
      var a := c.lba[..c.pos];
      forall x: nat | x < n ensures Among(a, x) {
        assert Holds(c, x);
        var p :| 0 <= p < c.pos && c.lba[p] == x;
        assert a[p] == x;
      }
      FirstMissing(a, n);
    }
  }

  predicate Among(a: seq<nat>, x: nat) {
    exists i | 0 <= i < |a| :: a[i] == x
  }

  lemma {:induction false} FirstMissing(a: seq<nat>, n: nat)
    requires forall x: nat | x < n :: Among(a, x)
    ensures n <= |a|
    decreases n
  {
    if n > 0 {
      assert Among(a, n - 1);
      var i :| 0 <= i < |a| && a[i] == n - 1;
      var b := a[..i] + a[i + 1..];
      forall x: nat | x < n - 1 ensures Among(b, x) {
        assert Among(a, x);
        var k :| 0 <= k < |a| && a[k] == x;
        assert b[if k < i then k else k - 1] == x;
      }
      FirstMissing(b, n - 1);
    }
  }

  // The request that does it.
  function Large(): (data: seq<Sector>)
    ensures |data| == 0x200
  {
    Zeros(0x200)
  }

  // The writer is about to purge slot q of chunk c.
  ghost predicate Meets(sys: Sys, c: nat, q: nat) {
    PurgeInFlight(sys) && sys.m.ctx.chunk == c && sys.m.ctx.purge == q
  }

  // The writer has come to chunk c, not behind slot q.
  ghost predicate OnWay(sys: Sys, c: nat, q: nat) {
    && Undisturbed(sys) && sys.m.ctx.chunk == c && sys.m.ctx.purge <= q < LAST_PURGE_POS && q % 0x200 == 0
    && 64 <= sys.m.ctx.cfg.SizeOfMap
  }

  // The large write, which began at from, has purged or has filled the cache.
  ghost predicate Filling(sys: Sys, j: Job, from: nat) {
    && sys.m.activity == Runs.Write(j) && j.lba == 0 && j.data == Large() && j.done <= |j.data|
    && (from < sys.m.ctx.purge || (from == sys.m.ctx.purge && Covers(sys.m.ctx.cache, 0, j.done)))
  }

  lemma PurgePasses(sys: Sys, j: Job, c: nat, q: nat, from: nat)
    requires OnWay(sys, c, q) && Filling(sys, j, from) && j.done < |j.data|
    requires Runs.Purging(sys.m) && sys.m.ctx.purge != q
    ensures var t := After(sys, Pass);
            t.ops == sys.ops && OnWay(t, c, q) && Filling(t, j, from)
    ensures Inv(sys.m.ctx) && JobFits(sys.m.ctx.cfg, j) && !FinalisesUnmarked(sys)
    ensures WriteStep(sys.m.ctx, j).1 == j
    ensures After(sys, Pass) == MovedTo(sys, WriteStep(sys.m.ctx, j).0, Runs.Write(j))
  {
    hide Inv, SysFits, After, FindCached, Covers;
    WritePasses(sys, j);
    MachineFits(sys);
    Runs.WritePurges(sys.m.ctx, j);
    PurgeAt(sys.m.ctx);
    NextSlot(sys.m.ctx, q);
    PurgeKeepsCfg(sys.m.ctx);
  }

  lemma PurgeKeepsCfg(s: Ctx)
    requires s.purge < LAST_PURGE_POS
    ensures PurgeCache(s).cfg == s.cfg
  {
  }

  lemma MachineFits(sys: Sys)
    requires SysFits(sys)
    ensures Runs.MachineOk(sys.m)
  {
  }

  lemma NextSlot(s: Ctx, q: nat)
    requires s.purge < q && q % 0x200 == 0
    ensures s.purge + 0x200 <= q
  {
  }

  lemma OtherPasses(sys: Sys, j: Job, c: nat, q: nat, from: nat)
    requires OnWay(sys, c, q) && Filling(sys, j, from) && j.done < |j.data|
    requires !Runs.Purging(sys.m)
    ensures Inv(sys.m.ctx) && JobFits(sys.m.ctx.cfg, j) && !FinalisesUnmarked(sys)
    ensures var (s, r) := WriteStep(sys.m.ctx, j);
            var t := After(sys, Pass);
            && t == MovedTo(sys, s, Runs.Write(r)) && t.ops == sys.ops
            && r == j.(done := r.done) && j.done <= r.done <= |j.data|
            && OnWay(t, c, q) && Filling(t, r, from)
  {
    hide Inv, SysFits, After, FindCached, Covers, Grows, Runs.Purging, WriteStep;
    WritePasses(sys, j);
    MachineFits(sys);
    StaysInPlace(sys.m.ctx, j);
    PassGrows(sys.m.ctx, j);
    var (s, r) := WriteStep(sys.m.ctx, j);
    StepKeepsInv(sys.m.ctx, j);
    if from == sys.m.ctx.purge {
      CoversMore(sys.m.ctx.cache, s.cache, j.done, r.done);
    }
  }

  lemma StaysInPlace(s: Ctx, j: Job)
    requires Inv(s) && JobFits(s.cfg, j) && j.done < |j.data| && s.purge < LAST_PURGE_POS
    requires !Runs.Purging(Runs.Machine(s, Runs.Write(j)))
    ensures WriteStep(s, j).0.chunk == s.chunk && WriteStep(s, j).0.purge == s.purge
  {
    WriteEffect(s, j);
    PhaseFacts(s);
    PreparedInPlace(s);
    hide Inv, WriteStep, PrepareRelocate, PurgeCache;
  }

  lemma PreparedInPlace(s: Ctx)
    ensures PrepareRelocate(s).chunk == s.chunk && PrepareRelocate(s).purge == s.purge
  {
  }

  lemma SomePasses(sys: Sys, j: Job, c: nat, q: nat, from: nat)
    requires OnWay(sys, c, q) && Filling(sys, j, from) && j.done < |j.data|
    requires !(Runs.Purging(sys.m) && sys.m.ctx.purge == q)
    ensures Inv(sys.m.ctx) && JobFits(sys.m.ctx.cfg, j) && SysFits(sys) && !FinalisesUnmarked(sys)
    ensures var (s, r) := WriteStep(sys.m.ctx, j);
            var t := After(sys, Pass);
            && t == MovedTo(sys, s, Runs.Write(r)) && t.ops == sys.ops
            && r == j.(done := r.done) && j.done <= r.done <= |j.data|
            && OnWay(t, c, q) && Filling(t, r, from)
  {
    if Runs.Purging(sys.m) {
      PurgePasses(sys, j, c, q, from);
    } else {
      OtherPasses(sys, j, c, q, from);
    }
    hide OnWay, Filling, SysFits, After, WriteStep, Runs.Purging;
  }

  // The large write either comes to slot q or ends with at least one slot purged.
  lemma {:induction false} WriteOn(sys: Sys, j: Job, c: nat, q: nat, from: nat) returns (events: seq<Event>)
    requires OnWay(sys, c, q) && Filling(sys, j, from)
    ensures SysFits(sys) && ClearAlways(sys, events) && AnyRun(sys, events).ops == sys.ops
    ensures var t := AnyRun(sys, events);
            Meets(t, c, q) || (t.m.activity.Idle? && OnWay(t, c, q) && from < t.m.ctx.purge)
    decreases |j.data| - j.done, Tier(sys.m.ctx, j), Phase(sys.m.ctx), ScanLeft(sys.m.ctx), Unaligned(sys.m.ctx)
  {
    hide OnWay, Filling, SysFits, AnyRun, ClearAlways, After, Tier, Phase, ScanLeft, Unaligned, WriteStep;
    hide FinalisesUnmarked, Meets, Runs.Purging;
    FillingFacts(sys, j, c, q, from);
    if j.done == |j.data| {
      LargeEnds(sys, j, c, q, from);
      events := [Pass] + [];
      OneStep(sys, Pass, []);
      NothingMore(After(sys, Pass));
    } else if Runs.Purging(sys.m) && sys.m.ctx.purge == q {
      events := [];
      NothingMore(sys);
      MeetsHere(sys, c, q);
    } else {
      SomePasses(sys, j, c, q, from);
      StepCloser(sys.m.ctx, j);
      var rest := WriteOn(After(sys, Pass), WriteStep(sys.m.ctx, j).1, c, q, from);
      events := [Pass] + rest;
      OneStep(sys, Pass, rest);
    }
  }

  lemma FillingFacts(sys: Sys, j: Job, c: nat, q: nat, from: nat)
    requires OnWay(sys, c, q) && Filling(sys, j, from)
    ensures j.done <= |j.data|
    ensures SysFits(sys) && Inv(sys.m.ctx) && JobFits(sys.m.ctx.cfg, j) && sys.m.ctx.chunk == c
  {
    hide Inv, Gate.GateOk;
  }

  lemma MeetsHere(sys: Sys, c: nat, q: nat)
    requires SysFits(sys) && Runs.Purging(sys.m) && sys.m.ctx.chunk == c && sys.m.ctx.purge == q
    ensures Meets(sys, c, q)
  {
  }

  lemma NothingMore(sys: Sys)
    requires SysFits(sys)
    ensures AnyRun(sys, []) == sys && ClearAlways(sys, [])
  {
  }

  // By then the cache would be too small.
  lemma LargeEnds(sys: Sys, j: Job, c: nat, q: nat, from: nat)
    requires OnWay(sys, c, q) && Filling(sys, j, from) && j.done == |j.data|
    ensures !FinalisesUnmarked(sys)
    ensures var t := After(sys, Pass);
            t.ops == sys.ops && t.m.activity.Idle? && OnWay(t, c, q) && from < t.m.ctx.purge
  {
    hide SysFits, After, Covers;
    WriteEnds(sys, j);
    NotAllCached(sys.m.ctx.cache, 0x200);
  }

  lemma LargeBegins(sys: Sys, j: Job, c: nat, q: nat)
    requires OnWay(sys, c, q) && sys.m.activity.Idle? && j == Job(0, Large(), 0)
    ensures SysFits(sys)
    ensures var t := After(sys, Begin(Runs.BeginWrite(j.lba, j.data)));
            t.ops == sys.ops && OnWay(t, c, q) && Filling(t, j, sys.m.ctx.purge)
  {
    hide SysFits, After;
    Begins(sys, j);
  }

  // Write after write, the writer comes to slot q.
  lemma {:induction false} Rounds(sys: Sys, c: nat, q: nat) returns (events: seq<Event>)
    requires OnWay(sys, c, q) && sys.m.activity.Idle?
    ensures SysFits(sys) && ClearAlways(sys, events)
    ensures AnyRun(sys, events).ops == sys.ops && Meets(AnyRun(sys, events), c, q)
    decreases q - sys.m.ctx.purge
  {
    var j := Job(0, Large(), 0);
    LargeBegins(sys, j, c, q);
    var e := Begin(Runs.BeginWrite(j.lba, j.data));
    hide SysFits, After, AnyRun, ClearAlways, Meets, Filling;
    var first := WriteOn(After(sys, e), j, c, q, sys.m.ctx.purge);
    events := [e] + first;
    OneStep(sys, e, first);
    var t := AnyRun(sys, events);
    if !Meets(t, c, q) {
      var rest := Rounds(t, c, q);
      RunOn(sys, events, rest);
      events := events + rest;
    }
  }

  // ---- Behind a flush that has finalised a full chunk

  // The rest of the flush, the next write, and its first pass.
  function Onward(j: Job): seq<Event> {
    [Pass] + ([Begin(Runs.BeginWrite(j.lba, j.data))] + ([Pass] + []))
  }

  lemma FlushFinalises(sys: Sys)
    requires SysFits(sys) && FinalisesUnmarked(sys)
    ensures After(sys, Pass) == MovedTo(sys, PurgeChunk(sys.m.ctx), sys.m.activity) && Undisturbed(After(sys, Pass))
  {
    hide Inv, Gate.GateOk, MarksOut, PurgeChunk;
    FlushUnmarked(sys);
    StepFits(sys, Pass);
  }

  lemma FlushIsOver(sys: Sys)
    requires Undisturbed(sys) && sys.m.activity == Runs.Flush(true)
    requires sys.m.ctx.cache.pos == 0 && !sys.m.ctx.dirty && sys.m.ctx.finalized == sys.m.ctx.purge
    ensures After(sys, Pass) == MovedTo(sys, sys.m.ctx, Runs.Idle) && Undisturbed(After(sys, Pass))
    ensures !FinalisesUnmarked(sys)
  {
    hide Inv, Gate.GateOk, MarksOut;
    StepFits(sys, Pass);
  }

  lemma ChunkLeft(s: Ctx)
    ensures PurgeChunk(s).cfg == s.cfg && PurgeChunk(s).next == s.next && PurgeChunk(s).cache.pos == s.cache.pos
    ensures PurgeChunk(s).purge == s.purge == PurgeChunk(s).finalized && PurgeChunk(s).dirty == s.dirty
    ensures SwitchChunk(s).cfg == s.cfg && SwitchChunk(s).chunk == s.next && SwitchChunk(s).purge == StartOf(s.next)
  {
  }

  lemma WriteLeaves(s: Ctx, j: Job)
    requires Inv(s) && JobFits(s.cfg, j) && j.done < |j.data| && s.purge == LAST_PURGE_POS == s.finalized
    ensures WriteStep(s, j) == (SwitchChunk(s), j)
  {
    hide Inv;
  }

  lemma NothingLeft(s: Ctx)
    requires Inv(s) && s.purge == LAST_PURGE_POS
    ensures s.cache.pos == 0 && !s.dirty
  {
  }

  // The three steps of Onward.
  lemma EntersNext(sys: Sys, j: Job) returns (t: Sys)
    requires SysFits(sys) && FinalisesUnmarked(sys)
    requires JobFits(sys.m.ctx.cfg, j) && j.done == 0 < |j.data|
    ensures SysFits(After(sys, Pass)) && t == AnyRun(After(sys, Pass), Onward(j))
    ensures ClearAlways(After(sys, Pass), Onward(j))
    ensures Undisturbed(t) && t == MovedTo(sys, SwitchChunk(PurgeChunk(sys.m.ctx)), Runs.Write(j))
  {
    var s := PurgeChunk(sys.m.ctx);
    assert Inv(sys.m.ctx) && sys.m.ctx.purge == LAST_PURGE_POS;
    NothingLeft(sys.m.ctx);
    ChunkLeft(sys.m.ctx);
    FlushFinalises(sys);
    hide SysFits, After, AnyRun, ClearAlways, PurgeChunk, SwitchChunk, Inv, FinalisesUnmarked, NextClear;
    var sys1 := After(sys, Pass);
    FlushIsOver(sys1);
    var sys2 := After(sys1, Pass);
    Begins(sys2, j);
    var e := Begin(Runs.BeginWrite(j.lba, j.data));
    var sys3 := After(sys2, e);
    WritePasses(sys3, j);
    WriteLeaves(s, j);
    t := After(sys3, Pass);
    OneStep(sys1, Pass, [e] + ([Pass] + []));
    OneStep(sys2, e, [Pass] + []);
    OneStep(sys3, Pass, []);
    NothingMore(t);
  }

  lemma ComesToNext(sys: Sys, q: nat) returns (t: Sys)
    requires SysFits(sys) && FinalisesUnmarked(sys) && 64 <= sys.m.ctx.cfg.SizeOfMap
    requires StartOf(sys.m.ctx.next) <= q < LAST_PURGE_POS && q % 0x200 == 0
    ensures SysFits(After(sys, Pass)) && t == AnyRun(After(sys, Pass), Onward(Job(0, Large(), 0)))
    ensures ClearAlways(After(sys, Pass), Onward(Job(0, Large(), 0)))
    ensures t.ops == sys.ops && OnWay(t, sys.m.ctx.next, q)
    ensures Filling(t, Job(0, Large(), 0), t.m.ctx.purge)
  {
    hide SysFits, After, AnyRun, ClearAlways, PurgeChunk, SwitchChunk, FinalisesUnmarked, Covers, Onward;
    t := EntersNext(sys, Job(0, Large(), 0));
    ChunkLeft(sys.m.ctx);
    ChunkLeft(PurgeChunk(sys.m.ctx));
    CoversNone(t.m.ctx.cache);
  }

  lemma CoversNone(c: Cache)
    ensures Covers(c, 0, 0)
  {
  }

  // The first slot of the next chunk that a read of it meets.
  lemma SlotOfRead(s: Ctx, op: Op) returns (q: nat)
    requires InNext(s, op)
    ensures StartOf(s.next) <= q < LAST_PURGE_POS && q % 0x200 == 0
    ensures Overlaps(op, Plba(s.next, q), Plba(s.next, q + 0x200))
  {
    var lo := Plba(s.next, StartOf(s.next));
    var x: nat := (if op.plba < lo then lo else op.plba) - Plba(s.next, 0);
    q := x - x % 0x200;
  }

  lemma MetIsUnsafe(sys: Sys, c: nat, q: nat, i: nat)
    requires i < |sys.ops| && Meets(sys, c, q) && Overlaps(sys.ops[i], Plba(c, q), Plba(c, q + 0x200))
    ensures !SafeFor(sys, i)
  {
    hide PurgeInFlight;
  }

  // A read of the next chunk that nobody waits for: the run goes on until a purge is in
  // flight that overlaps it.
  lemma ReaderMet(sys: Sys, i: nat) returns (events: seq<Event>)
    requires SysFits(sys) && FinalisesUnmarked(sys) && 64 <= sys.m.ctx.cfg.SizeOfMap
    requires i < Gate.READ_THREADS && InNext(sys.m.ctx, sys.ops[i])
    ensures ClearAlways(After(sys, Pass), events) && !SafeFor(AnyRun(After(sys, Pass), events), i)
  {
    var c := sys.m.ctx.next;
    var q := SlotOfRead(sys.m.ctx, sys.ops[i]);
    var t := ComesToNext(sys, q);
    hide SysFits, AnyRun, ClearAlways, FinalisesUnmarked, SafeFor, Meets, Overlaps, OnWay, Filling;
    hide After, Onward;
    var sys1 := After(sys, Pass);
    var on := WriteOn(t, Job(0, Large(), 0), c, q, t.m.ctx.purge);
    RunOn(sys1, Onward(Job(0, Large(), 0)), on);
    events := Onward(Job(0, Large(), 0)) + on;
    var u := AnyRun(sys1, events);
    if !Meets(u, c, q) {
      var rest := Rounds(u, c, q);
      RunOn(sys1, events, rest);
      events := events + rest;
    }
    MetIsUnsafe(AnyRun(sys1, events), c, q, i);
  }

  // ---- The exact condition

  ghost predicate StaysSafe(sys: Sys)
    requires SysFits(sys)
  {
    forall events: seq<Event> :: ClearAlways(sys, events) ==> AllSafe(AnyRun(sys, events))
  }

  // No run from here goes wrong.
  lemma ClearIsSafe(sys: Sys)
    requires SysOk(sys) && FinalisesUnmarked(sys) && NextClear(sys)
    ensures SysFits(After(sys, Pass)) && StaysSafe(After(sys, Pass))
  {
    StepKeeps(sys, Pass);
    var t := Next(sys, Pass);
    hide SysFits, SysOk, Next, FinalisesUnmarked, AllSafe, AnyRun, ClearAlways;
    forall events: seq<Event> | ClearAlways(t, events) ensures AllSafe(AnyRun(t, events)) {
      RunSafe(t, events);
    }
  }

  lemma SysFitsIn(sys: Sys)
    requires SysOk(sys)
    ensures SysFits(sys) && |sys.ops| == Gate.READ_THREADS
  {
    hide OpOk;
  }

  lemma NotSafe(sys: Sys, events: seq<Event>, i: nat)
    requires SysFits(sys) && ClearAlways(sys, events) && i < Gate.READ_THREADS && !SafeFor(AnyRun(sys, events), i)
    ensures !StaysSafe(sys)
  {
    hide SysFits, ClearAlways, SafeFor, AnyRun;
    assert !AllSafe(AnyRun(sys, events));
  }
}
