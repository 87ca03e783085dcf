// A write request ends: relocation, padding, purges and a chunk switch can only delay it
// for a bounded number of passes before the client's data moves on.
module Termination {
  import opened Geometry
  import opened BlockLog
  import opened Model
  import opened Invariant
  import opened CacheIndex
  import opened LogicalDisk
  import opened Relocation
  import opened Writing

  // Everything cached was moved out of the victim by relocation.
  ghost predicate Clean(s: Ctx)
    requires CacheOk(s.cache, s.cfg.SizeOfMap)
  {
    s.cache.pos % 8 == 0 && Outgoing(s) == s.cache.pos / 8
  }

  // The next pass certainly transfers client data.
  ghost predicate Ready(s: Ctx, j: Job) {
    && s.reloc.done
    && (FindCached(s.cache, NextLba(j), 0) != NOT_MAPPED
        || (s.cache.pos % 8 != 0 && s.cache.pos < LAST_CACHE_POS && NextLba(j) == s.cache.lba[s.cache.pos - 1] + 1))
  }

  ghost function SlotsLeft(s: Ctx): nat {
    (LAST_PURGE_POS - s.purge) / 0x200
  }

  // How far the run is from client progress, counted in purges.
  ghost function Tier(s: Ctx, j: Job): nat
    requires CacheOk(s.cache, s.cfg.SizeOfMap)
  {
    if Ready(s, j) then 0
    else if s.purge >= LAST_PURGE_POS then (if s.finalized < LAST_PURGE_POS then 602 else 601)
    else if Clean(s) then 1 + SlotsLeft(s)
    else 700
  }

  ghost function Phase(s: Ctx): nat {
    if !s.reloc.prepared then 2 else if !s.reloc.done then 1 else 0
  }

  ghost function ScanLeft(s: Ctx): nat {
    2 * (LAST_PURGE_POS - s.reloc.pos) + if s.reloc.start <= s.reloc.pos < s.reloc.end then 0 else 1
  }

  ghost function Unaligned(s: Ctx): nat {
    if s.cache.pos % 8 != 0 then 1 else 0
  }

  ghost predicate Closer(s: Ctx, s': Ctx, j: Job)
    requires CacheOk(s.cache, s.cfg.SizeOfMap) && CacheOk(s'.cache, s'.cfg.SizeOfMap)
  {
    || Tier(s', j) < Tier(s, j)
    || (Tier(s', j) == Tier(s, j)
        && (|| Phase(s') < Phase(s)
            || (Phase(s') == Phase(s)
                && (ScanLeft(s') < ScanLeft(s) || (ScanLeft(s') == ScanLeft(s) && Unaligned(s') < Unaligned(s))))))
  }

  lemma EmptyIsClean(s: Ctx)
    requires s.cache.pos == 0 && CacheOk(s.cache, s.cfg.SizeOfMap)
    ensures Clean(s)
  {
    assert Heads(s.cache) == [];
  }

  lemma {:induction false} ScanAdvances(s: Ctx)
    requires s.cache.pos % 8 == 0
    ensures s.reloc.pos <= RelocateScan(s).reloc.pos
    ensures s.reloc.start <= s.reloc.pos < s.reloc.end && !RelocateScan(s).reloc.done
            ==> s.reloc.pos < RelocateScan(s).reloc.pos
    decreases LAST_PURGE_POS - s.reloc.pos
  {
    if s.reloc.pos >= LAST_PURGE_POS {
    } else if !LiveSlot(s.mi.Map, s.reloc.table, s.next, s.reloc.pos / 8) {
      ScanAdvances(Skipped(s));
    } else if s.cache.pos < LAST_CACHE_POS && s.reloc.start <= s.reloc.pos < s.reloc.end {
      ScanAdvances(Copied(s));
    }
  }

  lemma RelocateCloser(s: Ctx, j: Job)
    requires Inv(s) && s.reloc.prepared && !s.reloc.done && s.purge < LAST_PURGE_POS && s.cache.pos % 8 == 0
    requires Staged(s)
    ensures var t := RelocateCached(s);
            var s' := if t.reloc.done then t else RelocateRead(t);
            CacheOk(s'.cache, s'.cfg.SizeOfMap) && Closer(s, s', j)
  {
    hide Durable, RelocOk, CacheOk, Staged;
    RelocateKeepsInv(s);
    ScanAdvances(s);
    var t := RelocateCached(s);
    StagedOutgoing(s);
    StagedOutgoing(t);
    if !t.reloc.done {
      ReadKeepsInv(t);
      assert Outgoing(RelocateRead(t)) == Outgoing(t);
    }
  }

  // A purge of relocated blocks only never takes the last slot of a chunk.
  lemma CleanLeavesRoom(s: Ctx)
    requires Inv(s) && s.reloc.done && s.cache.pos >= LAST_CACHE_POS && Clean(s)
    ensures s.purge + 0x200 < LAST_PURGE_POS
  {
    hide Durable, RelocOk, CacheOk, Outgoing;
    DoneWithin(s);
    PurgeEmpties(s);
    PurgeKeepsInv(s);
    CountKept(s);
    CountKept(PurgeCache(s));
  }

  lemma PurgeCloser(s: Ctx, j: Job)
    requires Inv(s) && s.reloc.done && s.purge < LAST_PURGE_POS && s.cache.pos >= LAST_CACHE_POS && !Ready(s, j)
    ensures CacheOk(PurgeCache(s).cache, s.cfg.SizeOfMap) && Closer(s, PurgeCache(s), j)
  {
    hide Durable, RelocOk, CacheOk, Clean;
    PurgeKeepsInv(s);
    EmptyIsClean(PurgeCache(s));
    if Clean(s) {
      CleanLeavesRoom(s);
    }
  }

  lemma CountKept(s: Ctx)
    requires Inv(s)
    ensures 0 <= s.mi.info[s.next].Used
    ensures Room(s.mi.info[s.next].Used, Remaining(s))
  {
    assert s.mi.info[s.next].Used == CountIn(s.mi.Map, s.next);
  }

  lemma FillTailCloser(s: Ctx, j: Job)
    requires Inv(s) && s.reloc.done && s.cache.pos % 8 != 0 && !Ready(s, j)
    ensures CacheOk(FillTail(s).cache, s.cfg.SizeOfMap) && Closer(s, FillTail(s), j)
  {
    hide Durable, RelocOk, CacheOk, FindCached, Stored, Outgoing, SameContents, LogOk;
    FillTailKeepsInv(s);
    DoneWithin(s);
  }

  lemma FillHeadCloser(s: Ctx, j: Job)
    requires Inv(s) && s.reloc.done && s.cache.pos % 8 == 0 && s.cache.pos < LAST_CACHE_POS
    requires j.done < |j.data| && NextLba(j) / 8 < s.cfg.SizeOfMap && NextLba(j) % 8 != 0
    requires FindCached(s.cache, NextLba(j), 0) == NOT_MAPPED
    ensures CacheOk(FillHead(s, j).cache, s.cfg.SizeOfMap) && Closer(s, FillHead(s, j), j)
  {
    hide Durable, RelocOk, CacheOk;
    FillHeadKeepsInv(s, j);
    DoneWithin(s);
    FillHeadReady(s, j);
  }

  lemma FillHeadReady(s: Ctx, j: Job)
    requires CacheOk(s.cache, s.cfg.SizeOfMap) && s.reloc.done
    requires s.cache.pos % 8 == 0 && s.cache.pos < LAST_CACHE_POS
    requires j.done < |j.data| && NextLba(j) / 8 < s.cfg.SizeOfMap && NextLba(j) % 8 != 0
    requires FindCached(s.cache, NextLba(j), 0) == NOT_MAPPED
    ensures Ready(FillHead(s, j), j)
  {
    hide CacheOk, FindCached;
    var lba := NextLba(j);
    if lba / 8 == (j.lba + |j.data|) / 8 {
      WholeHeadHits(s.cache, s.cfg.SizeOfMap, lba, Stored(s, lba - lba % 8, 8));
    } else {
      PartHeadLeadsUp(s.cache, s.cfg.SizeOfMap, lba, Stored(s, lba - lba % 8, lba % 8));
    }
  }

  lemma WholeHeadHits(c: Cache, blocks: nat, lba: nat, data: seq<Sector>)
    requires CacheOk(c, blocks) && c.pos % 8 == 0 && c.pos < LAST_CACHE_POS
    requires FindCached(c, lba, 0) == NOT_MAPPED && lba / 8 < blocks && |data| == 8
    ensures FindCached(Push(c, lba - lba % 8, data), lba, 0) != NOT_MAPPED
  {
    hide CacheOk, FindCached, Push, Appendable;
    HeadFits(c, blocks, lba, 8);
    PushFindsNew(c, blocks, lba - lba % 8, data, lba);
  }

  lemma PartHeadLeadsUp(c: Cache, blocks: nat, lba: nat, data: seq<Sector>)
    requires c.pos % 8 == 0 && c.pos < LAST_CACHE_POS && 0 < |data| == lba % 8
    ensures var c' := Push(c, lba - lba % 8, data);
            c'.pos % 8 != 0 && c'.pos < LAST_CACHE_POS && lba == c'.lba[c'.pos - 1] + 1
  {
  }

  lemma StepCloser(s: Ctx, j: Job)
    requires Inv(s) && JobFits(s.cfg, j) && j.done < |j.data|
    ensures var (s', j') := WriteStep(s, j);
            CacheOk(s'.cache, s'.cfg.SizeOfMap) && (j.done < j'.done || (j' == j && Closer(s, s', j)))
  {
    hide Durable, RelocOk, CacheOk, Staged;
    StepKeepsInv(s, j);
    PhaseFacts(s);
    if s.purge >= LAST_PURGE_POS {
      EmptyIsClean(WriteStep(s, j).0);
    } else if !s.reloc.prepared {
      UnpreparedIsEmpty(s);
      EmptyIsClean(s);
      EmptyIsClean(PrepareRelocate(s));
    } else if !s.reloc.done {
      StagedNow(s);
      RelocateCloser(s, j);
    } else {
      TransferCloser(s, j);
    }
  }

  lemma UnpreparedIsEmpty(s: Ctx)
    requires Inv(s) && !s.reloc.prepared
    ensures s.cache.pos == 0
  {
  }

  lemma StagedNow(s: Ctx)
    requires Inv(s) && s.reloc.prepared && !s.reloc.done
    ensures Staged(s)
  {
  }

  lemma TransferCloser(s: Ctx, j: Job)
    requires Inv(s) && s.reloc.done && s.purge < LAST_PURGE_POS && JobFits(s.cfg, j) && j.done < |j.data|
    ensures var (s', j') := Transfer(s, j);
            CacheOk(s'.cache, s'.cfg.SizeOfMap) && (j.done < j'.done || (j' == j && Closer(s, s', j)))
  {
    hide Durable, RelocOk, CacheOk;
    TransferKeepsInv(s, j);
    var c, lba := s.cache, NextLba(j);
    if FindCached(c, lba, 0) != NOT_MAPPED {
    } else if c.pos >= LAST_CACHE_POS {
      PurgeCloser(s, j);
    } else if c.pos % 8 != 0 && c.lba[c.pos - 1] + 1 != lba {
      FillTailCloser(s, j);
    } else if c.pos % 8 == 0 && lba % 8 != 0 {
      FillHeadCloser(s, j);
    }
  }

  // The whole request with successful I/O.
  function WriteRun(s: Ctx, j: Job): (r: (Ctx, Job))
    requires Inv(s) && JobFits(s.cfg, j)
    decreases |j.data| - j.done, Tier(s, j), Phase(s), ScanLeft(s), Unaligned(s)
  {
    if j.done == |j.data| then (s, j)
    else
      StepKeepsInv(s, j);
      StepCloser(s, j);
      var (s', j') := WriteStep(s, j);
      WriteRun(s', j')
  }

  // Every write ends with all its sectors transferred, and replaces exactly those sectors.
  lemma {:induction false} WriteCompletes(s: Ctx, j: Job)
    requires Inv(s) && JobFits(s.cfg, j)
    ensures var (s', j') := WriteRun(s, j);
            && j' == j.(done := |j.data|) && Inv(s')
            && Written(s, s', NextLba(j), j.data[j.done..])
    decreases |j.data| - j.done, Tier(s, j), Phase(s), ScanLeft(s), Unaligned(s)
  {
    hide Inv, Tier, Phase, ScanLeft, Unaligned, Written, WriteStep;
    if j.done == |j.data| {
      NothingWritten(s, NextLba(j));
    } else {
      StepKeepsInv(s, j);
      StepCloser(s, j);
      var (s', j') := WriteStep(s, j);
      WriteCompletes(s', j');
      assert j.data[j.done..j'.done] + j.data[j'.done..] == j.data[j.done..];
      WrittenJoin(s, s', WriteRun(s', j').0, NextLba(j), j.data[j.done..j'.done], j.data[j'.done..]);
    }
  }
}
