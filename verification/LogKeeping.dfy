// Every step keeps the block map equal to the newest view of the log.
module LogKeeping {
  import opened Geometry
  import opened BlockLog
  import opened Model
  import opened Invariant

  lemma LocatedIn(s: Ctx, b: nat)
    requires LogOk(s) && b < s.cfg.SizeOfMap && s.mi.Map[b] != NOT_MAPPED
    ensures var c, k := ChunkOf(s.mi.Map[b]), SlotOf(s.mi.Map[b]);
            && s.mi.Map[b] == Plba(c, 8 * k) && c < s.cfg.MaxChunks
            && k < TABLE_SIZE && Names(Segs(s)[c], k, b) && Segs(s)[c].tab[k] == 8 * b
            && StartOf(c) <= 8 * k && (c == s.chunk ==> 8 * k + 8 <= s.purge)
            && k % 0x40 != 0x3f
            && s.mi.info[c].SCN <= SCNow(s)
            && s.mi.Map[b] + 8 <= |s.disk.data|
  {
    assert LatestFor(Segs(s), s.mi.Map[b], b);
    var c, k := ChunkOf(s.mi.Map[b]), SlotOf(s.mi.Map[b]);
    assert SegmentOk(Segs(s)[c], s.cfg.SizeOfMap);
    ChunksApart(c, s.cfg.MaxChunks);
  }

  // The entries of a purge: the cached blocks, then entries that name nothing.
  lemma PurgeEntriesParts(cfg: Config, c: Cache)
    requires cfg.Valid() && CacheOk(c, cfg.SizeOfMap) && c.pos % 8 == 0
    ensures PurgeEntries(c)[..(c.pos + 7) / 8] == Heads(c)
    ensures forall i | c.pos / 8 <= i < 0x40 :: PurgeEntries(c)[i] == NOT_MAPPED
    ensures forall i | 0 <= i < 0x40 && PurgeEntries(c)[i] / 8 < cfg.SizeOfMap ::
              PurgeEntries(c)[i] % 8 == 0 && i < 0x3f
    ensures forall i | 0 <= i < |Heads(c)| :: Heads(c)[i] % 8 == 0 && Heads(c)[i] / 8 < cfg.SizeOfMap
    ensures DistinctBlocks(Heads(c))
    ensures cfg.SizeOfMap <= NOT_MAPPED / 8
  {
    var h := Heads(c);
    forall i | 0 <= i < |h| ensures h[i] % 8 == 0 && h[i] / 8 < cfg.SizeOfMap {
      assert Placed(c, cfg.SizeOfMap, 8 * i);
    }
    forall i, j | 0 <= i < j < |h| ensures h[i] / 8 != h[j] / 8 {
      assert OneLine(c, 8 * i, 8 * j);
    }
  }

  lemma SegsWellFormed(s: Ctx)
    requires Sequenced(s)
    ensures WellFormed(Segs(s)) && Distinct(Segs(s), s.chunk)
    ensures ScnsAgree(Segs(s), s.mi.info, s.chunk)
  {
  }

  lemma PurgeSegs(s: Ctx)
    requires s.purge < LAST_PURGE_POS
    ensures var s' := PurgeCache(s);
            Segs(s') == Segs(s)[s.chunk := Current(s).(tab := s'.table, hi := s.purge / 8 + 0x40)]
  {
    var s' := PurgeCache(s);
    assert SCNow(s') == SCNow(s) && s'.purge / 8 == s.purge / 8 + 0x40;
    assert s'.disk.ctl == s.disk.ctl;
  }

  // A purge appends its blocks to the log, and UpdateMap keeps the map at the newest entry.
  lemma PurgeKeepsLatest(s: Ctx)
    requires s.purge < LAST_PURGE_POS && Sequenced(s) && IsLatest(Segs(s), s.mi.Map)
    requires forall i | (s.cache.pos + 7) / 8 <= i < 0x40 :: s.cfg.SizeOfMap <= PurgeEntries(s.cache)[i] / 8
    ensures IsLatest(Segs(PurgeCache(s)), PurgeCache(s).mi.Map)
  {
    hide UpdateMap, IsLatest, WellFormed, Distinct, PurgeCache, PurgeEntries;
    var s' := PurgeCache(s);
    var segs, c, hi, n := Segs(s), s.chunk, s.purge / 8, (s.cache.pos + 7) / 8;
    PurgeInSlots(s);
    SegsWellFormed(s);
    LatestAppend(segs, s.mi, c, s'.table, n, 0x40);
    PurgeSegs(s);
  }

  lemma PurgeInSlots(s: Ctx)
    requires s.purge < LAST_PURGE_POS
    ensures var s', hi, n := PurgeCache(s), s.purge / 8, (s.cache.pos + 7) / 8;
            && 8 * hi == s.purge && hi + 0x40 <= TABLE_SIZE
            && (forall k | 0 <= k < hi :: s'.table[k] == s.table[k])
            && (forall k | hi <= k < hi + 0x40 :: s'.table[k] == PurgeEntries(s.cache)[k - hi])
            && s'.mi == UpdateMap(s.mi, s'.table[hi..hi + n], s.chunk, Plba(s.chunk, 8 * hi))
  {
    var s', hi, n := PurgeCache(s), s.purge / 8, (s.cache.pos + 7) / 8;
    assert s'.table[hi..hi + n] == PurgeEntries(s.cache)[..n];
  }

  lemma SegmentAppendOk(g: Segment, tab: seq<nat>, blocks: nat)
    requires SegmentOk(g, blocks) && g.hi % 0x40 == 0
    requires g.hi + 0x40 <= |tab| == |g.tab|
    requires forall k | g.lo <= k < g.hi :: tab[k] == g.tab[k]
    requires forall k | g.hi <= k < g.hi + 0x40 && tab[k] / 8 < blocks :: tab[k] % 8 == 0 && k - g.hi < 0x3f
    ensures SegmentOk(g.(tab := tab, hi := g.hi + 0x40), blocks)
  {
    forall k | g.lo <= k < g.hi + 0x40 && tab[k] / 8 < blocks ensures tab[k] % 8 == 0 && k % 0x40 != 0x3f {
      if k < g.hi {
        assert tab[k] == g.tab[k];
      } else {
        assert k % 0x40 == k - g.hi;
      }
    }
  }

  lemma PurgeKeepsSequence(s: Ctx)
    requires s.purge < LAST_PURGE_POS && Sequenced(s)
    ensures Sequenced(PurgeCache(s))
  {
  }

  lemma PurgeKeepsCounts(s: Ctx)
    requires s.purge < LAST_PURGE_POS && UsedCounts(s.mi)
    ensures UsedCounts(PurgeCache(s).mi)
  {
    UpdateMapCounts(s.mi, PurgeEntries(s.cache)[..(s.cache.pos + 7) / 8], s.chunk, Plba(s.chunk, s.purge));
  }

  lemma PurgeKeepsLog(s: Ctx)
    requires LogOk(s) && CacheOk(s.cache, s.cfg.SizeOfMap)
    requires s.purge < LAST_PURGE_POS && s.cache.pos % 8 == 0
    ensures LogOk(PurgeCache(s))
  {
    PurgeEntriesParts(s.cfg, s.cache);
    hide Sequenced, SegmentOk, IsLatest, UsedCounts, CacheOk;
    PurgeKeepsSequence(s);
    PurgeKeepsLatest(s);
    PurgeKeepsSegments(s);
    PurgeKeepsCounts(s);
    assert PurgeCache(s).cfg == s.cfg;
  }

  lemma PurgeKeepsSegments(s: Ctx)
    requires s.purge < LAST_PURGE_POS
    requires forall c | 0 <= c < s.cfg.MaxChunks :: SegmentOk(Segs(s)[c], s.cfg.SizeOfMap)
    requires forall i | 0 <= i < 0x40 && PurgeEntries(s.cache)[i] / 8 < s.cfg.SizeOfMap ::
               PurgeEntries(s.cache)[i] % 8 == 0 && i < 0x3f
    ensures forall c | 0 <= c < s.cfg.MaxChunks :: SegmentOk(Segs(PurgeCache(s))[c], s.cfg.SizeOfMap)
  {
    PurgeInSlots(s);
    PurgeSegs(s);
    assert SegmentOk(Segs(s)[s.chunk], s.cfg.SizeOfMap);
    SegmentAppendOk(Current(s), PurgeCache(s).table, s.cfg.SizeOfMap);
  }

  // At run time no entry is skipped: the map changes at exactly the purged blocks.
  lemma PurgeRemaps(s: Ctx)
    requires LogOk(s) && CacheOk(s.cache, s.cfg.SizeOfMap)
    requires s.purge < LAST_PURGE_POS && s.cache.pos % 8 == 0
    ensures InMap(s.mi.Map, Heads(s.cache))
    ensures PurgeCache(s).mi.Map == Remap(s.mi.Map, Heads(s.cache), Plba(s.chunk, s.purge))
  {
    PurgeEntriesParts(s.cfg, s.cache);
    forall b | 0 <= b < s.cfg.SizeOfMap && s.mi.Map[b] != NOT_MAPPED
      ensures s.mi.info[ChunkOf(s.mi.Map[b])].SCN <= SCNow(s)
    {
      LocatedIn(s, b);
    }
    UpdateMapIsRemap(s.mi, Heads(s.cache), s.chunk, Plba(s.chunk, s.purge));
  }

  // Writing the control block changes nothing that the log in memory says.
  lemma PurgeChunkKeepsLog(s: Ctx)
    requires LogOk(s)
    requires forall c | 0 <= c < s.cfg.MaxChunks && c != s.chunk && Accepted(s.cfg, s.disk.ctl[c]) ::
               s.disk.ctl[c].SCN < SCNow(s)
    ensures LogOk(PurgeChunk(s))
  {
    var s' := PurgeChunk(s);
    assert Segs(s') == Segs(s);
    assert forall c | 0 <= c < s.cfg.MaxChunks :: s'.mi.info[c].Used == s.mi.info[c].Used;
  }

  // What SwitchChunk sees on the device: the chunk it leaves is on record in full.
  lemma SwitchSegs(s: Ctx)
    requires Finalised(s) && s.purge == LAST_PURGE_POS == s.finalized
    ensures var s' := SwitchChunk(s);
            forall c, k, b | 0 <= c < s.cfg.MaxChunks && 0 <= b < s.cfg.SizeOfMap ::
              Names(Segs(s)[s.next := Current(s')][c], k, b) <==> Names(Segs(s')[c], k, b)
    ensures forall c | 0 <= c < s.cfg.MaxChunks ::
              Segs(s)[s.next := Current(SwitchChunk(s))][c].scn == Segs(SwitchChunk(s))[c].scn
  {
    assert forall k | StartSlot(s.chunk) <= k < 0x7fc0 :: s.disk.ctl[s.chunk].LBA[k] == s.table[k];
  }

  lemma SwitchKeepsLatest(s: Ctx)
    requires IsLatest(Segs(s), s.mi.Map) && CountIn(s.mi.Map, s.next) == 0
    requires Finalised(s) && s.purge == LAST_PURGE_POS == s.finalized
    ensures IsLatest(Segs(SwitchChunk(s)), s.mi.Map)
  {
    CountZero(s.mi.Map, s.next);
    forall b | 0 <= b < s.cfg.SizeOfMap && s.mi.Map[b] != NOT_MAPPED ensures ChunkOf(s.mi.Map[b]) != s.next {
      InChunkIff(s.mi.Map[b], s.next);
    }
    LatestDrop(Segs(s), s.mi.Map, s.next, Current(SwitchChunk(s)));
    SwitchSegs(s);
    LatestFrame(Segs(s)[s.next := Current(SwitchChunk(s))], Segs(SwitchChunk(s)), s.mi.Map);
  }

  // A chunk with no live block can be reused: nothing the log knew is lost.
  lemma SwitchKeepsLog(s: Ctx)
    requires LogOk(s) && Finalised(s)
    requires s.purge == LAST_PURGE_POS == s.finalized && s.mi.info[s.next].Used == 0
    ensures LogOk(SwitchChunk(s))
  {
    var s' := SwitchChunk(s);
    SwitchKeepsLatest(s);
    SwitchKeepsSequence(s);
    forall c | 0 <= c < s.cfg.MaxChunks ensures SegmentOk(Segs(s')[c], s.cfg.SizeOfMap) {
      assert SegmentOk(Segs(s)[c], s.cfg.SizeOfMap);
    }
    assert forall c | 0 <= c < s.cfg.MaxChunks :: s'.mi.info[c].Used == s.mi.info[c].Used;
    hide Sequenced, IsLatest, Finalised;
  }

  lemma SwitchKeepsSequence(s: Ctx)
    requires Sequenced(s) && Finalised(s)
    ensures Sequenced(SwitchChunk(s))
  {
  }
}
