// Whether the chunk chosen to be emptied fits into what the current chunk can still take:
// by the 90% test, or because the least used chunk cannot hold more than its share.
module Capacity {
  import opened Geometry
  import opened BlockLog
  import opened Model
  import opened Invariant

  // The blocks stored in chunks 0..n-1.
  ghost function CountBelow(m: seq<nat>, n: nat): nat {
    if m == [] then 0 else (if m[0] < 0x40000 * n then 1 else 0) + CountBelow(m[1..], n)
  }

  lemma {:induction false} CountBelowStep(m: seq<nat>, n: nat)
    ensures CountBelow(m, n + 1) == CountBelow(m, n) + CountIn(m, n)
  {
    if m != [] {
      CountBelowStep(m[1..], n);
    }
  }

  lemma {:induction false} CountBelowBounds(m: seq<nat>, n: nat)
    ensures CountBelow(m, n) <= |m|
    ensures CountBelow(m, 0) == 0
  {
    if m != [] {
      CountBelowBounds(m[1..], n);
    }
  }

  ghost function SumUsed(info: seq<ChunkInfo>): int {
    if info == [] then 0 else SumUsed(info[..|info| - 1]) + info[|info| - 1].Used
  }

  lemma {:induction false} SumIsCountBelow(m: seq<nat>, info: seq<ChunkInfo>)
    requires UsedCounts(MapInfo(m, info))
    ensures SumUsed(info) == CountBelow(m, |info|)
    decreases |info|
  {
    if info == [] {
      CountBelowBounds(m, 0);
    } else {
      SumIsCountBelow(m, info[..|info| - 1]);
      CountBelowStep(m, |info| - 1);
    }
  }

  ghost function Mapped(m: seq<nat>): nat {
    if m == [] then 0 else (if m[0] != NOT_MAPPED then 1 else 0) + Mapped(m[1..])
  }

  lemma {:induction false} MappedIsCountBelow(m: seq<nat>, n: nat)
    requires InRange(m, n) && n <= 500
    ensures CountBelow(m, n) == Mapped(m)
  {
    if m != [] {
      assert forall b | 0 <= b < |m[1..]| :: m[1..][b] == m[b + 1];
      MappedIsCountBelow(m[1..], n);
    }
  }

  // Conservation over the whole device: the Used counters add up to the mapped blocks.
  lemma UsedTotal(s: Ctx)
    requires LogOk(s)
    ensures SumUsed(s.mi.info) == Mapped(s.mi.Map) <= s.cfg.SizeOfMap
  {
    SumIsCountBelow(s.mi.Map, s.mi.info);
    MappedIsCountBelow(s.mi.Map, s.cfg.MaxChunks);
    CountBelowBounds(s.mi.Map, s.cfg.MaxChunks);
  }

  lemma {:induction false} LeastShare(m: seq<nat>, info: seq<ChunkInfo>, n: nat, skip: nat, least: int)
    requires UsedCounts(MapInfo(m, info)) && n <= |info|
    requires forall c | 0 <= c < n && c != skip :: least <= info[c].Used
    ensures least * (if skip < n then n - 1 else n) <= CountBelow(m, n)
    decreases n
  {
    if n == 0 {
      CountBelowBounds(m, 0);
    } else {
      LeastShare(m, info, n - 1, skip, least);
      CountBelowStep(m, n - 1);
      if skip != n - 1 {
        assert least * (if skip < n then n - 1 else n) == least * (if skip < n - 1 then n - 2 else n - 1) + least;
      }
    }
  }

  lemma ShareBound(least: int, others: int, blocks: int)
    requires 6 <= others && least * others <= blocks && blocks * 10 <= (others + 1) * 0x40000
    ensures least <= 30583
  {
    assert (least - 30584) * others == least * others - 30584 * others;
    assert 30584 <= least ==> 0 <= (least - 30584) * others;
  }

  // Pigeonhole: with at least 7 chunks and a map of at most MAX_CHUNKS * SIZE_OF_CHUNK / 10
  // blocks, the least used of the other chunks holds at most 30583 blocks.
  lemma PigeonholeBound(cfg: Config, mi: MapInfo, chunk: nat, next: nat)
    requires cfg.Valid() && |mi.Map| == cfg.SizeOfMap && |mi.info| == cfg.MaxChunks && UsedCounts(mi)
    requires chunk < cfg.MaxChunks && next < cfg.MaxChunks
    requires forall c | 0 <= c < cfg.MaxChunks && c != chunk :: mi.info[next].Used <= mi.info[c].Used
    ensures mi.info[next].Used <= 30583
  {
    var least := mi.info[next].Used;
    LeastShare(mi.Map, mi.info, cfg.MaxChunks, chunk, least);
    CountBelowBounds(mi.Map, cfg.MaxChunks);
    ShareBound(least, cfg.MaxChunks - 1, cfg.SizeOfMap);
  }

  // A freshly entered chunk has room for its victim.
  lemma VictimFits(cfg: Config, mi: MapInfo, chunk: nat)
    requires cfg.Valid() && |mi.Map| == cfg.SizeOfMap && |mi.info| == cfg.MaxChunks && UsedCounts(mi)
    requires chunk < cfg.MaxChunks
    ensures var next := FindNextChunk(cfg, mi.info, chunk, StartOf(chunk));
            next != chunk && Room(mi.info[next].Used, (LAST_PURGE_POS - StartOf(chunk)) / 8)
  {
    var next := FindNextChunk(cfg, mi.info, chunk, StartOf(chunk));
    if !Admissible(mi.info, next, StartOf(chunk)) {
      PigeonholeBound(cfg, mi, chunk, next);
    }
  }

  // After recovery the choice is made afresh, perhaps with the chunk partly or completely
  // written; the victim of before the crash shows that some chunk still fits.
  lemma VictimFitsAgain(cfg: Config, info: seq<ChunkInfo>, chunk: nat, purge: nat, before: nat)
    requires |info| >= 2 && chunk < |info| && purge <= LAST_PURGE_POS && purge % 0x200 == 0
    requires before < |info| && before != chunk && Room(info[before].Used, (LAST_PURGE_POS - purge) / 8)
    requires forall c | 0 <= c < |info| :: 0 <= info[c].Used
    ensures var next := FindNextChunk(cfg, info, chunk, purge);
            next != chunk && Room(info[next].Used, (LAST_PURGE_POS - purge) / 8)
  {
  }

  // One purge of the relocation schedule, for each of the three ways relocation is done.
  lemma ScheduleKept(used: int, target: int, source: int, remaining: int)
    requires 0 < target && 0 <= source && 64 * source < 63 * target
    requires used * target <= source * remaining
    ensures (used - 63) * target <= source * (remaining - 64)
  {
    assert (used - 63) * target == used * target - 63 * target;
    assert source * (remaining - 64) == source * remaining - 64 * source;
  }

  lemma ScheduleGivesRoom(used: int, target: int, source: int, remaining: int)
    requires 0 < target && 0 <= source && 64 * source < 63 * target
    requires 0 <= used && 0 <= remaining
    requires used * target <= source * remaining
    ensures Room(used, remaining)
  {
    var ut, sr := used * target, source * remaining;
    if remaining == 0 {
      assert sr == 0;
      TimesAtLeast(used, target);
    } else {
      TimesAtLeast(63 * target - 64 * source, remaining);
      Spread(target, source, remaining);
      if 64 * used >= 63 * remaining {
        TimesAtLeast(64 * used - 63 * remaining, target);
        Spread(remaining, used, target);
        Commute(target, remaining);
      }
    }
  }

  lemma TimesAtLeast(a: int, k: int)
    requires 0 <= a && 0 < k
    ensures a <= a * k
  {
  }

  lemma Spread(a: int, b: int, k: int)
    ensures (63 * a - 64 * b) * k == 63 * (a * k) - 64 * (b * k)
    ensures (64 * b - 63 * a) * k == 64 * (b * k) - 63 * (a * k)
  {
  }

  lemma Commute(a: int, b: int)
    ensures a * b == b * a
  {
  }
}
