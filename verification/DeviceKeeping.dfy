// Every step keeps the device able to tell recovery where the current chunk stands: its
// control block or its predecessor's, then one record per purge, and nothing mistakable
// for a record behind the last one.
module DeviceKeeping {
  import opened Geometry
  import opened BlockLog
  import opened Model
  import opened Invariant

  // The control sector positions of two purge slots differ, and lie in their own slot only.
  lemma ControlApart(chunks: nat, c: int, q: int, d: int, r: int)
    requires 0 <= c < chunks && 0 <= q < LAST_PURGE_POS && q % 0x200 == 0
    requires 0 <= d < chunks && 0 <= r < LAST_PURGE_POS && r % 0x200 == 0
    ensures Plba(d, r) <= ControlAt(c, q) < Plba(d, r) + 0x200 <==> c == d && q == r
    ensures 0 <= ControlAt(c, q) < Plba(chunks, 0)
    ensures ControlAt(c, q) == Plba(c, q) + 0x1f8
  {
    if c < d {
      ChunksApart(c, d);
    } else if d < c {
      ChunksApart(d, c);
    }
    ChunksApart(c, chunks);
  }

  lemma PurgeData(s: Ctx, c: int, q: int)
    requires s.purge < LAST_PURGE_POS
    requires 0 <= c < s.cfg.MaxChunks && 0 <= q < LAST_PURGE_POS && q % 0x200 == 0
    ensures 0 <= ControlAt(c, q) < |s.disk.data| == |PurgeCache(s).disk.data|
    ensures PurgeCache(s).disk.data[ControlAt(c, q)]
         == if c == s.chunk && q == s.purge then Record(PurgeRecord(s)) else s.disk.data[ControlAt(c, q)]
  {
    ControlApart(s.cfg.MaxChunks, c, q, s.chunk, s.purge);
  }

  lemma PurgeLeavesRecord(s: Ctx)
    requires s.purge < LAST_PURGE_POS && CacheOk(s.cache, s.cfg.SizeOfMap)
    ensures RecordAt(PurgeCache(s), s.purge)
  {
    PurgeData(s, s.chunk, s.purge);
    forall i | 0 <= i < 0x40
      ensures PurgeCache(s).table[s.purge / 8 + i] == PurgeEntries(s.cache)[i]
      ensures NamesOrNot(s.cfg, PurgeEntries(s.cache)[i])
    {
      if 8 * i < s.cache.pos {
        assert Placed(s.cache, s.cfg.SizeOfMap, 8 * i);
      }
    }
  }

  lemma PurgeKeepsRecord(s: Ctx, q: int)
    requires s.purge < LAST_PURGE_POS && 0 <= q < s.purge && q % 0x200 == 0 && RecordAt(s, q)
    ensures RecordAt(PurgeCache(s), q)
  {
    PurgeData(s, s.chunk, q);
    assert q / 8 + 0x40 <= s.purge / 8;
    assert forall k | 0 <= k < s.purge / 8 :: PurgeCache(s).table[k] == s.table[k];
  }

  lemma PurgeKeepsRecords(s: Ctx)
    requires s.purge < LAST_PURGE_POS && Recorded(s) && CacheOk(s.cache, s.cfg.SizeOfMap)
    ensures Recorded(PurgeCache(s))
  {
    var s' := PurgeCache(s);
    forall q | s'.finalized <= q < s'.purge && q % 0x200 == 0 ensures RecordAt(s', q) {
      if q == s.purge {
        PurgeLeavesRecord(s);
      } else {
        PurgeKeepsRecord(s, q);
      }
    }
    forall c, q | 0 <= c < s.cfg.MaxChunks && 0 <= q < LAST_PURGE_POS && q % 0x200 == 0 ensures Dated(s', c, q) {
      PurgeData(s, c, q);
      assert Dated(s, c, q);
    }
  }

  lemma PurgeKeepsAnchor(s: Ctx)
    requires s.purge < LAST_PURGE_POS
    ensures Finalised(s) ==> Finalised(PurgeCache(s))
    ensures Entered(s) ==> Entered(PurgeCache(s))
  {
    var s' := PurgeCache(s);
    if Entered(s) {
      var p :| LeadsTo(s, p);
      assert LeadsTo(s', p);
    }
  }

  lemma PurgeChunkKeepsDevice(s: Ctx)
    requires Recorded(s) && StartOf(s.chunk) <= s.finalized
    ensures Recorded(PurgeChunk(s)) && Finalised(PurgeChunk(s))
  {
    var s' := PurgeChunk(s);
    forall c, q | 0 <= c < s.cfg.MaxChunks && 0 <= q < LAST_PURGE_POS && q % 0x200 == 0 ensures Dated(s', c, q) {
      assert Dated(s, c, q);
    }
  }

  lemma SwitchKeepsRecords(s: Ctx)
    requires Recorded(s)
    ensures Recorded(SwitchChunk(s))
  {
    var s' := SwitchChunk(s);
    forall c, q | 0 <= c < s.cfg.MaxChunks && 0 <= q < LAST_PURGE_POS && q % 0x200 == 0 ensures Dated(s', c, q) {
      assert Dated(s, c, q);
    }
  }

  // Everything the emptied chunk's old control block still names lives on elsewhere.
  lemma EmptiedIsSuperseded(s: Ctx)
    requires LogOk(s) && Finalised(s)
    requires s.purge == LAST_PURGE_POS == s.finalized && s.mi.info[s.next].Used == 0
    ensures forall k, b | 0 <= b < s.cfg.SizeOfMap && Names(View(s.cfg, s.disk.ctl[s.next]), k, b) ::
              Superseded(Views(s.cfg, s.disk.ctl), s.next, b)
  {
    var views := Views(s.cfg, s.disk.ctl);
    CountZero(s.mi.Map, s.next);
    forall k, b | 0 <= b < s.cfg.SizeOfMap && Names(View(s.cfg, s.disk.ctl[s.next]), k, b)
      ensures Superseded(views, s.next, b)
    {
      assert LatestFor(Segs(s), s.mi.Map[b], b);
      assert Names(Segs(s)[s.next], k, b);
      var d, j := ChunkOf(s.mi.Map[b]), SlotOf(s.mi.Map[b]);
      InChunkIff(s.mi.Map[b], s.next);
      assert Names(views[d], j, b);
    }
  }

  lemma SwitchEnters(s: Ctx)
    requires LogOk(s) && Finalised(s)
    requires s.purge == LAST_PURGE_POS == s.finalized && s.mi.info[s.next].Used == 0
    ensures Entered(SwitchChunk(s))
  {
    EmptiedIsSuperseded(s);
    assert LeadsTo(SwitchChunk(s), s.chunk);
  }
}
