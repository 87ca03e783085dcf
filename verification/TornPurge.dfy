// A crash or a failure in the middle of a purge: recovery finds the state before the purge
// or the state after it, never a mixture.
module TornPurge {
  import opened Geometry
  import opened Model
  import opened Invariant
  import opened LogKeeping
  import opened DeviceKeeping
  import opened LogicalDisk
  import opened Relocation
  import opened Recovery
  import opened Crash

  // The device after the first k sectors of a purge.
  function Torn(s: Ctx, k: nat): Ctx
    requires s.purge < LAST_PURGE_POS && k <= 0x200
  {
    ChunksApart(s.chunk, s.cfg.MaxChunks);
    s.(disk := s.disk.(data := Splice(s.disk.data, Plba(s.chunk, s.purge), PurgeImage(s)[..k])))
  }

  ghost predicate SameRecords(s: Ctx, data: seq<Sector>) {
    && |data| == |s.disk.data|
    && forall c, q | 0 <= c < s.cfg.MaxChunks && 0 <= q < LAST_PURGE_POS && q % 0x200 == 0
                     && 0 <= ControlAt(c, q) < |data| :: data[ControlAt(c, q)] == s.disk.data[ControlAt(c, q)]
  }

  // Recovery's sources are the control blocks and the purge control sectors only.
  lemma DurableOtherData(s: Ctx, data: seq<Sector>)
    requires Durable(s) && SameRecords(s, data)
    ensures Durable(s.(disk := s.disk.(data := data)))
  {
    var s' := s.(disk := s.disk.(data := data));
    assert Segs(s') == Segs(s);
    if Entered(s) {
      var p :| LeadsTo(s, p);
      assert LeadsTo(s', p);
    }
    OtherDataRecords(s, data);
  }

  lemma OtherDataRecords(s: Ctx, data: seq<Sector>)
    requires Recorded(s) && SameRecords(s, data)
    ensures Recorded(s.(disk := s.disk.(data := data)))
  {
    var s' := s.(disk := s.disk.(data := data));
    forall q | s.finalized <= q < s.purge && q % 0x200 == 0 ensures RecordAt(s', q) {
      assert RecordAt(s, q);
      ControlApart(s.cfg.MaxChunks, s.chunk, q, s.chunk, q);
    }
    forall c, q | 0 <= c < s.cfg.MaxChunks && 0 <= q < LAST_PURGE_POS && q % 0x200 == 0 ensures Dated(s', c, q) {
      assert Dated(s, c, q);
      ControlApart(s.cfg.MaxChunks, c, q, c, q);
    }
  }

  lemma EarlyRecords(s: Ctx, k: nat)
    requires s.purge < LAST_PURGE_POS && k <= 0x1f8
    ensures SameRecords(s, Torn(s, k).disk.data)
  {
    var data := Torn(s, k).disk.data;
    forall c, q | 0 <= c < s.cfg.MaxChunks && 0 <= q < LAST_PURGE_POS && q % 0x200 == 0
                  && 0 <= ControlAt(c, q) < |data|
      ensures data[ControlAt(c, q)] == s.disk.data[ControlAt(c, q)]
    {
      ControlApart(s.cfg.MaxChunks, c, q, s.chunk, s.purge);
    }
  }

  // Before the control sector is written, the purge might as well not have begun.
  lemma TornEarly(s: Ctx, k: nat)
    requires Durable(s) && s.purge < LAST_PURGE_POS && k <= 0x1f8
    ensures Durable(Torn(s, k))
    ensures forall x: nat | x / 8 < s.cfg.SizeOfMap :: StoredAt(Torn(s, k), x) == StoredAt(s, x)
  {
    EarlyRecords(s, k);
    DurableOtherData(s, Torn(s, k).disk.data);
    forall x: nat | x / 8 < s.cfg.SizeOfMap ensures StoredAt(Torn(s, k), x) == StoredAt(s, x) {
      if s.mi.Map[x / 8] != NOT_MAPPED {
        StoredElsewhere(s, x);
      }
    }
  }

  // Once the control sector is written, all the blocks are.
  function Landed(s: Ctx, k: nat): Ctx
    requires s.purge < LAST_PURGE_POS && k <= 0x200
  {
    PurgeCache(s).(disk := Torn(s, k).disk)
  }

  lemma LandedData(s: Ctx, k: nat, i: nat)
    requires s.purge < LAST_PURGE_POS && 0x1f9 <= k <= 0x200 && i < |s.disk.data|
    requires !(Plba(s.chunk, s.purge) + 0x1f9 <= i < Plba(s.chunk, s.purge) + 0x200)
    ensures |Torn(s, k).disk.data| == |s.disk.data|
    ensures Torn(s, k).disk.data[i] == PurgeCache(s).disk.data[i]
  {
    hide PurgeCache;
    PurgeWrites(s, i);
    ChunksApart(s.chunk, s.cfg.MaxChunks);
  }

  lemma TornLate(s: Ctx, k: nat)
    requires Inv(s) && s.reloc.done && s.purge < LAST_PURGE_POS && s.cache.pos % 8 == 0 && 0x1f9 <= k <= 0x200
    ensures Durable(Landed(s, k))
    ensures forall x: nat | x / 8 < s.cfg.SizeOfMap :: StoredAt(Landed(s, k), x) == ReadSector(s, x)
  {
    var s', data := PurgeCache(s), Torn(s, k).disk.data;
    PurgeKeepsInv(s);
    hide PurgeCache, RelocOk, Recorded, Finalised, Entered, Torn;
    LandedRecords(s, k);
    DurableOtherData(s', data);
    forall x: nat | x / 8 < s.cfg.SizeOfMap ensures StoredAt(Landed(s, k), x) == ReadSector(s, x) {
      LandedStored(s, k, x);
    }
  }

  lemma LandedRecords(s: Ctx, k: nat)
    requires s.purge < LAST_PURGE_POS && 0x1f9 <= k <= 0x200
    ensures Torn(s, k).disk.ctl == PurgeCache(s).disk.ctl
    ensures SameRecords(PurgeCache(s), Torn(s, k).disk.data)
  {
    var data := Torn(s, k).disk.data;
    forall c, q | 0 <= c < s.cfg.MaxChunks && 0 <= q < LAST_PURGE_POS && q % 0x200 == 0
                  && 0 <= ControlAt(c, q) < |data|
      ensures data[ControlAt(c, q)] == PurgeCache(s).disk.data[ControlAt(c, q)]
    {
      ControlApart(s.cfg.MaxChunks, c, q, s.chunk, s.purge);
      LandedData(s, k, ControlAt(c, q));
    }
  }

  lemma LandedStored(s: Ctx, k: nat, x: nat)
    requires s.purge < LAST_PURGE_POS && s.cache.pos % 8 == 0 && 0x1f9 <= k <= 0x200
    requires LogOk(s) && CacheOk(s.cache, s.cfg.SizeOfMap) && LogOk(PurgeCache(s))
    requires x / 8 < s.cfg.SizeOfMap
    ensures StoredAt(Landed(s, k), x) == ReadSector(s, x)
  {
    PurgedSector(s, x);
    if PurgeCache(s).mi.Map[x / 8] != NOT_MAPPED {
      NotInControlSlot(PurgeCache(s), x, s.chunk, s.purge);
      hide PurgeCache, LogOk;
      LandedData(s, k, PurgeCache(s).mi.Map[x / 8] + x % 8);
    }
  }

  // No block is stored behind the control sector of a purge slot, or on it.
  lemma NotInControlSlot(s: Ctx, x: nat, c: nat, q: nat)
    requires LogOk(s) && x / 8 < s.cfg.SizeOfMap && s.mi.Map[x / 8] != NOT_MAPPED
    requires c < s.cfg.MaxChunks && q < LAST_PURGE_POS && q % 0x200 == 0
    ensures s.mi.Map[x / 8] + x % 8 < |s.disk.data|
    ensures !(Plba(c, q) + 0x1f8 <= s.mi.Map[x / 8] + x % 8 < Plba(c, q) + 0x200)
  {
    LocatedIn(s, x / 8);
    var d, k := ChunkOf(s.mi.Map[x / 8]), SlotOf(s.mi.Map[x / 8]);
    if c < d {
      ChunksApart(c, d);
    } else if d < c {
      ChunksApart(d, c);
    } else {
      SlotNotLast(k, q, x % 8);
    }
  }

  lemma SlotNotLast(k: nat, q: nat, i: nat)
    requires k % 0x40 != 0x3f && q % 0x200 == 0 && i < 8
    ensures !(q + 0x1f8 <= 8 * k + i < q + 0x200)
  {
    var h := q / 8;
    assert q == 8 * h && h % 0x40 == 0;
    assert (h + 0x3f) % 0x40 == 0x3f;
  }

  // A crash inside a purge: recovery sees the state before it or the state after it.
  lemma TornPurgeRecovers(s: Ctx, k: nat)
    requires Inv(s) && s.reloc.done && s.purge < LAST_PURGE_POS && s.cache.pos % 8 == 0 && k <= 0x200
    ensures var r := Recover(s.cfg, Torn(s, k).disk);
            && Inv(r) && r.cfg == s.cfg && r.cache.pos == 0
            && r.mi.Map == (if k <= 0x1f8 then s.mi.Map else PurgeCache(s).mi.Map)
            && forall x: nat | x / 8 < s.cfg.SizeOfMap ::
                 ReadSector(r, x) == if k <= 0x1f8 then StoredAt(s, x) else ReadSector(s, x)
  {
    hide RelocOk, CacheOk, LogOk, Recorded, Finalised, Entered, Recover;
    if k <= 0x1f8 {
      TornEarly(s, k);
      RecoveryRebuilds(Torn(s, k));
    } else {
      TornLate(s, k);
      RecoveryRebuilds(Landed(s, k));
    }
  }
}
