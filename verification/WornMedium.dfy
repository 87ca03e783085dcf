// A run from a formatted medium behind which a purge meets a read: the medium's other chunks
// are more worn than the first one, so the first one is emptied again right after it was
// filled.
module WornMedium {
  import opened Geometry
  import opened BlockLog
  import opened Model
  import opened Choice
  import opened Invariant
  import opened Writing
  import opened Recovery
  import opened Format
  import opened Readers
  import opened Unmarked
  import opened Wear
  import opened ChunkFill
  import opened MetReader
  import Runs
  import Gate

  // ---- The choice of the chunk to empty

  // The first chunk has been finalised w times; the others are worn from an earlier format.
  predicate Worn(s: Ctx, w: nat) {
    && s.cfg == WornConfig()
    && forall c | 0 <= c < 7 :: s.mi.info[c].WCN == if c == 1 then w else 10
  }

  function WornConfig(): Config {
    Config(1, 7, 64, 7, 50, 50)
  }

  lemma {:induction false} CountAtMost(m: seq<nat>, c: int)
    ensures CountIn(m, c) <= |m|
  {
    if m != [] {
      CountAtMost(m[1..], c);
    }
  }

  // The score of a chunk by its wear, when few blocks are in use.
  lemma WornScore(info: seq<ChunkInfo>, c: nat)
    requires c < |info| && 0 <= info[c].Used <= 64
    ensures info[c].WCN == 2 ==> Score(WornConfig(), info, c, 10) <= 306
    ensures info[c].WCN == 10 ==> Score(WornConfig(), info, c, 10) >= 1020
  {
    hide Score;
    if info[c].WCN == 2 || info[c].WCN == 10 {
      ScoreIs(WornConfig(), info, c, 10);
    }
  }

  // The first chunk is emptied next, whatever chunk is entered.
  lemma FirstIsNext(info: seq<ChunkInfo>, chunk: nat)
    requires |info| == 7 && chunk < 7 && chunk != 1
    requires forall c | 0 <= c < 7 :: 0 <= info[c].Used <= 64 && info[c].WCN == if c == 1 then 2 else 10
    ensures FindNextChunk(WornConfig(), info, chunk, StartOf(chunk)) == 1
  {
    hide Score, FindNextChunk;
    ChoiceExactly(WornConfig(), info, chunk, StartOf(chunk));
    var next := FindNextChunk(WornConfig(), info, chunk, StartOf(chunk));
    assert Holds90(info, 1, StartOf(chunk));
    WornScore(info, 1);
    WornScore(info, next);
  }

  lemma FewUsed(s: Ctx, c: nat)
    requires Inv(s) && s.cfg == WornConfig() && c < 7
    ensures 0 <= s.mi.info[c].Used <= 64
  {
    CountAtMost(s.mi.Map, c);
  }

  lemma LeftIsNext(s: Ctx)
    requires Inv(s) && Worn(s, 1) && s.chunk == 1 && s.purge == LAST_PURGE_POS
    ensures SwitchChunk(PurgeChunk(s)).next == 1
  {
    forall c | 0 <= c < 7 ensures 0 <= s.mi.info[c].Used <= 64 {
      FewUsed(s, c);
    }
    hide Inv, FindNextChunk;
    FirstIsNext(SwitchChunk(PurgeChunk(s)).mi.info, s.next);
  }

  // ---- The medium

  function WornCtl(c: nat): ChunkCtl {
    if c == 1 then BlankCtl() else BlankCtl().(Intact := true, Version := LEVELING_VERSION, WCN := 10)
  }

  function Before(): (d: Disk)
    ensures DiskFits(WornConfig(), d) && Fresh(WornConfig(), d)
  {
    Disk(Zeros(0x1c0000), seq(7, c requires 0 <= c => WornCtl(c)))
  }

  // The context that recovery makes of it after it was formatted.
  function Started(): Ctx {
    Recover(WornConfig(), Formatted())
  }

  function Formatted(): (d: Disk)
    ensures DiskFits(WornConfig(), d)
  {
    FormatDisk(WornConfig(), Before(), false, Zeros(0x200), Zeros(65))
  }

  lemma StartedIs()
    ensures var s := Started();
            && Inv(s) && s.cache.pos == 0 && !s.dirty && s.purge == 0 && s.chunk == 1 && Worn(s, 1)
            && forall b | 0 <= b < 64 :: s.mi.Map[b] == NOT_MAPPED
  {
    hide Inv, Recover, FormatDisk, WearOk;
    FormatThenRecover(WornConfig(), Before(), false, Zeros(0x200), Zeros(65));
    RecoveredIsIdle(WornConfig(), Formatted());
    FormatWear(WornConfig(), Before(), false, Zeros(0x200), Zeros(65));
  }

  // ---- The run

  // The first chunk is full of block 0, and the flush is about to finalise it.
  ghost predicate FirstFull(sys: Sys) {
    && Alone(sys) && FinalisesUnmarked(sys) && Worn(sys.m.ctx, 1) && sys.m.ctx.chunk == 1
    && sys.m.ctx.mi.Map[0] != NOT_MAPPED && InChunk(sys.m.ctx.mi.Map[0], 1) && sys.m.ctx.mi.Map[1] == NOT_MAPPED
  }

  lemma FillsWorn(s: Ctx, t: Ctx)
    requires Fills(s, t, 0) && Worn(s, 1) && s.chunk == 1 && s.cache.pos == 0 && s.mi.Map[1] == NOT_MAPPED
    ensures Worn(t, 1) && t.chunk == 1 && t.mi.Map[1] == NOT_MAPPED
  {
    assert Untouched(s, 1);
  }

  lemma FillsFirst() returns (events: seq<Event>)
    ensures Inv(Started()) && SysFits(InitialSys(Started()))
    ensures ClearAlways(InitialSys(Started()), events) && FirstFull(AnyRun(InitialSys(Started()), events))
  {
    hide Inv, Started, SysFits, ClearAlways, AnyRun, After, Waits, InitialSys, OtherAtWork, FinalisesUnmarked;
    StartedIs();
    var s := Started();
    var j := Job(8 * 0, Zeros(8), 0);
    var begun := OneBegins(s, 0);
    var t := AnyRun(InitialSys(s), begun);
    var fill := FillChunk(t, j);
    FillsWorn(s, AnyRun(t, fill).m.ctx);
    RunOn(InitialSys(s), begun, fill);
    events := begun + fill;
  }

  // The chunk is left by the write of block 1, and the first one is emptied next.
  lemma FirstLeft(sys: Sys) returns (t: Sys)
    requires FirstFull(sys)
    ensures SysFits(sys) && SysFits(After(sys, Pass)) && NextClear(sys)
    ensures var j := Job(8, Zeros(8), 0);
            && t == AnyRun(After(sys, Pass), Onward(j)) && ClearAlways(After(sys, Pass), Onward(j))
            && Alone(t) && t.m.activity == Runs.Write(j) && Waits(t.m.ctx, j) && t.m.ctx.cache.pos == 0
            && t.m.ctx.cfg == sys.m.ctx.cfg && t.m.ctx.next == 1 && t.m.ctx.mi.Map == sys.m.ctx.mi.Map
  {
    hide SysFits, After, AnyRun, ClearAlways, Onward, Inv, PurgeChunk, SwitchChunk, Waits, OtherAtWork;
    var j, s := Job(8, Zeros(8), 0), sys.m.ctx;
    FirstContext(sys);
    NothingLeft(s);
    LeftIsNext(s);
    t := EntersNext(sys, j);
    LeftIs(s);
    EmptyWaits(t.m.ctx, j);
  }

  lemma FirstContext(sys: Sys)
    requires FirstFull(sys)
    ensures SysFits(sys) && Inv(sys.m.ctx) && sys.m.ctx.purge == LAST_PURGE_POS
  {
    hide OtherAtWork;
  }

  lemma OneClear(sys: Sys, rest: seq<Event>)
    requires SysFits(sys) && NextClear(sys)
    ensures AnyRun(sys, [Pass] + rest) == AnyRun(After(sys, Pass), rest)
    ensures ClearAlways(After(sys, Pass), rest) ==> ClearAlways(sys, [Pass] + rest)
  {
    hide SysFits, After, FinalisesUnmarked, NextClear;
    assert ([Pass] + rest)[1..] == rest;
  }

  // From the full first chunk to the flush that misses a reader.
  lemma FillsSecond(sys: Sys) returns (events: seq<Event>)
    requires FirstFull(sys)
    ensures SysFits(sys) && ClearAlways(sys, events)
    ensures var t := AnyRun(sys, events);
            FinalisesUnmarked(t) && !NextClear(t) && t.m.ctx.cfg == WornConfig()
  {
    hide SysFits, After, AnyRun, ClearAlways, Onward, FinalisesUnmarked, NextClear, Waits, Alone;
    var j := Job(8, Zeros(8), 0);
    var left := FirstLeft(sys);
    var rest := ReadAndFill(left, j, 0);
    RunOn(After(sys, Pass), Onward(j), rest);
    OneClear(sys, Onward(j) + rest);
    events := [Pass] + (Onward(j) + rest);
  }

  // A run from a freshly formatted medium that ends with a purge in flight over the sectors
  // of a read in flight.
  ghost predicate MeetsReader(cfg: Config, d: Disk, boot: seq<Sector>, events: seq<Event>) {
    && cfg.Valid() && DiskFits(cfg, d) && Fresh(cfg, d) && |boot| == 65
    && (forall i | 0 <= i < 65 :: !Ours(cfg, boot[i]))
    && var s := Recover(cfg, FormatDisk(cfg, d, false, Zeros(0x200), boot));
       && Inv(s) && SysFits(InitialSys(s))
       && exists i | 0 <= i < Gate.READ_THREADS :: !SafeFor(AnyRun(InitialSys(s), events), i)
  }

  lemma StartedMeets(events: seq<Event>, i: nat)
    requires Inv(Started()) && SysFits(InitialSys(Started())) && i < Gate.READ_THREADS
    requires !SafeFor(AnyRun(InitialSys(Started()), events), i)
    ensures MeetsReader(WornConfig(), Before(), Zeros(65), events)
  {
    hide Inv, SysFits, SafeFor, AnyRun, InitialSys, Recover, FormatDisk, Before, Fresh;
  }

  lemma UnmarkedFromFormat()
    ensures exists cfg: Config, d: Disk, boot: seq<Sector>, events: seq<Event> :: MeetsReader(cfg, d, boot, events)
  {
    hide Inv, SysFits, ClearAlways, AnyRun, After, SafeFor, FirstFull, InitialSys, InNext, Started, MeetsReader;
    hide Before, WornConfig;
    var first := FillsFirst();
    var full := AnyRun(InitialSys(Started()), first);
    var second, met, i := MetBehind(full);
    JoinMet(InitialSys(Started()), first, second, met);
    StartedMeets((first + second) + ([Pass] + met), i);
  }

  lemma MetBehind(full: Sys) returns (second: seq<Event>, met: seq<Event>, i: nat)
    requires FirstFull(full)
    ensures SysFits(full) && i < Gate.READ_THREADS
    ensures !SafeFor(AnyRun(After(AnyRun(full, second), Pass), met), i)
  {
    hide SysFits, ClearAlways, AnyRun, After, SafeFor, FirstFull, InNext;
    second := FillsSecond(full);
    var missed := AnyRun(full, second);
    i :| i < |missed.ops| && InNext(missed.m.ctx, missed.ops[i]);
    met := ReaderMet(missed, i);
  }

  lemma JoinMet(sys: Sys, first: seq<Event>, second: seq<Event>, met: seq<Event>)
    requires SysFits(sys)
    ensures AnyRun(sys, (first + second) + ([Pass] + met))
         == AnyRun(After(AnyRun(AnyRun(sys, first), second), Pass), met)
  {
    hide SysFits, After;
    RunOn(sys, first, second);
    RunOn(sys, first + second, [Pass] + met);
    assert ([Pass] + met)[1..] == met;
  }
}
