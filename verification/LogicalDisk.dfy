// The disk the client sees. Moving blocks between cache and device leaves every logical
// sector as it was; writing changes exactly the written sectors.
module LogicalDisk {
  import opened Geometry
  import opened BlockLog
  import opened Model
  import opened Invariant
  import opened CacheIndex
  import opened LogKeeping

  ghost predicate SameContents(s: Ctx, s': Ctx) {
    && s'.cfg == s.cfg
    && forall x: nat | x / 8 < s.cfg.SizeOfMap :: ReadSector(s', x) == ReadSector(s, x)
  }

  // s' is s with the sectors from lba on replaced by data.
  ghost predicate Written(s: Ctx, s': Ctx, lba: nat, data: seq<Sector>) {
    && s'.cfg == s.cfg
    && forall x: nat | x / 8 < s.cfg.SizeOfMap ::
         ReadSector(s', x) == if lba <= x < lba + |data| then data[x - lba] else ReadSector(s, x)
  }

  lemma WrittenJoin(s: Ctx, t: Ctx, u: Ctx, lba: nat, first: seq<Sector>, rest: seq<Sector>)
    requires Written(s, t, lba, first) && Written(t, u, lba + |first|, rest)
    ensures Written(s, u, lba, first + rest)
  {
  }

  lemma NothingWritten(s: Ctx, lba: nat)
    ensures Written(s, s, lba, [])
  {
  }

  // ---- Appending to the cache

  lemma PushReads(s: Ctx, s': Ctx, lba: nat, data: seq<Sector>)
    requires CacheOk(s.cache, s.cfg.SizeOfMap)
    requires Appendable(s.cache, s.cfg.SizeOfMap, lba, |data|)
    requires s'.cfg == s.cfg && s'.mi.Map == s.mi.Map && s'.disk.data == s.disk.data
    requires s'.cache == Push(s.cache, lba, data)
    ensures Written(s, s', lba, data)
  {
    forall x: nat | x / 8 < s.cfg.SizeOfMap
      ensures ReadSector(s', x) == if lba <= x < lba + |data| then data[x - lba] else ReadSector(s, x)
    {
      if lba <= x < lba + |data| {
        PushFindsNew(s.cache, s.cfg.SizeOfMap, lba, data, x);
      } else {
        PushFindsOld(s.cache, s.cfg.SizeOfMap, lba, data, x);
      }
    }
  }

  lemma AppendedNotCached(c: Cache, blocks: nat, lba: nat, n: nat, x: nat)
    requires CacheOk(c, blocks) && Appendable(c, blocks, lba, n) && lba <= x < lba + n
    ensures FindCached(c, x, 0) == NOT_MAPPED
  {
    FindCachedFrom(c, blocks, x, 0);
    forall p | 0 <= p < c.pos ensures c.lba[p] != x {
      AppendedSector(c, blocks, lba, n, p, x - lba);
    }
  }

  // A sector brought into the cache reads as before.
  lemma PushStoredReads(s: Ctx, s': Ctx, lba: nat, data: seq<Sector>)
    requires CacheOk(s.cache, s.cfg.SizeOfMap)
    requires Appendable(s.cache, s.cfg.SizeOfMap, lba, |data|)
    requires s'.cfg == s.cfg && s'.mi.Map == s.mi.Map && s'.disk.data == s.disk.data
    requires s'.cache == Push(s.cache, lba, data)
    requires lba / 8 < s.cfg.SizeOfMap && lba % 8 + |data| <= 8 && data == Stored(s, lba, |data|)
    ensures SameContents(s, s')
  {
    PushReads(s, s', lba, data);
    forall x: nat | x / 8 < s.cfg.SizeOfMap ensures ReadSector(s', x) == ReadSector(s, x) {
      if lba <= x < lba + |data| {
        AppendedNotCached(s.cache, s.cfg.SizeOfMap, lba, |data|, x);
        assert Stored(s, lba, |data|)[x - lba] == StoredAt(s, x);
      }
    }
  }

  lemma SameIndexOk(c: Cache, c': Cache, blocks: nat)
    requires CacheOk(c, blocks) && c'.lba == c.lba && c'.pos == c.pos
    ensures CacheOk(c', blocks)
  {
    assert forall p | 0 <= p < c.pos :: Placed(c, blocks, p) ==> Placed(c', blocks, p);
    forall p, q | 0 <= p < c'.pos && 0 <= q < c'.pos ensures OneLine(c', p, q) {
      assert OneLine(c, p, q);
    }
  }

  lemma {:induction false} SameIndexFinds(c: Cache, c': Cache, lba: nat, i: nat)
    requires c'.lba == c.lba && c'.pos == c.pos && i % 8 == 0
    ensures FindCached(c', lba, i) == FindCached(c, lba, i)
    decreases 0x200 - i
  {
    if i < c.pos {
      SameIndexFinds(c, c', lba, i + 8);
    }
  }

  lemma HitFinds(c: Cache, blocks: nat, lba: nat, pos: nat, n: nat, x: nat)
    requires CacheOk(c, blocks) && pos + n <= c.pos
    requires forall p | pos <= p < pos + n :: c.lba[p] == lba + (p - pos)
    ensures var r := FindCached(c, x, 0);
            if lba <= x < lba + n then r == pos + (x - lba) else !(pos <= r < pos + n)
  {
    if lba <= x < lba + n {
      FindCachedIff(c, blocks, x, pos + (x - lba));
    } else {
      FindCachedFrom(c, blocks, x, 0);
    }
  }

  // Overwriting cached sectors in place.
  lemma HitReads(s: Ctx, s': Ctx, lba: nat, pos: nat, data: seq<Sector>)
    requires CacheOk(s.cache, s.cfg.SizeOfMap) && pos + |data| <= s.cache.pos
    requires forall p | pos <= p < pos + |data| :: s.cache.lba[p] == lba + (p - pos)
    requires s'.cfg == s.cfg && s'.mi.Map == s.mi.Map && s'.disk.data == s.disk.data
    requires s'.cache == s.cache.(mem := Splice(s.cache.mem, pos, data))
    ensures CacheOk(s'.cache, s.cfg.SizeOfMap)
    ensures Written(s, s', lba, data)
  {
    SameIndexOk(s.cache, s'.cache, s.cfg.SizeOfMap);
    forall x: nat | x / 8 < s.cfg.SizeOfMap
      ensures ReadSector(s', x) == if lba <= x < lba + |data| then data[x - lba] else ReadSector(s, x)
    {
      HitFinds(s.cache, s.cfg.SizeOfMap, lba, pos, |data|, x);
      SameIndexFinds(s.cache, s'.cache, x, 0);
    }
  }

  // ---- Purging

  // With whole blocks cached, a sector is cached exactly when its block is among the heads.
  lemma HeadOf(c: Cache, blocks: nat, x: nat)
    requires CacheOk(c, blocks) && c.pos % 8 == 0
    ensures var pos := FindCached(c, x, 0);
            if pos == NOT_MAPPED then forall i | 0 <= i < |Heads(c)| :: Heads(c)[i] / 8 != x / 8
            else pos < c.pos && pos % 8 == x % 8 && Heads(c)[pos / 8] / 8 == x / 8
  {
    FindCachedFrom(c, blocks, x, 0);
    var pos := FindCached(c, x, 0);
    if pos != NOT_MAPPED {
      assert Placed(c, blocks, pos) && OneLine(c, pos, 8 * (pos / 8));
    } else {
      forall i | 0 <= i < |Heads(c)| ensures Heads(c)[i] / 8 != x / 8 {
        SectorOf(c, blocks, 8 * i, x);
      }
    }
  }

  lemma PurgedMap(s: Ctx, x: nat)
    requires LogOk(s) && CacheOk(s.cache, s.cfg.SizeOfMap)
    requires s.purge < LAST_PURGE_POS && s.cache.pos % 8 == 0
    requires x / 8 < s.cfg.SizeOfMap
    ensures var pos := FindCached(s.cache, x, 0);
            && (pos == NOT_MAPPED ==> PurgeCache(s).mi.Map[x / 8] == s.mi.Map[x / 8])
            && (pos != NOT_MAPPED ==>
                  PurgeCache(s).mi.Map[x / 8] + x % 8 == Plba(s.chunk, s.purge) + pos && pos < s.cache.pos)
  {
    PurgeEntriesParts(s.cfg, s.cache);
    PurgeRemaps(s);
    RemapAt(s.mi.Map, Heads(s.cache), Plba(s.chunk, s.purge), x / 8);
    HeadOf(s.cache, s.cfg.SizeOfMap, x);
  }

  lemma PurgeWrites(s: Ctx, i: nat)
    requires s.purge < LAST_PURGE_POS && i < |s.disk.data|
    ensures var at, data := Plba(s.chunk, s.purge), PurgeCache(s).disk.data;
            && at + 0x200 <= |data| == |s.disk.data| && PurgeCache(s).cfg == s.cfg
            && data[i] == if at <= i < at + 0x200 then PurgeImage(s)[i - at] else s.disk.data[i]
  {
    ChunksApart(s.chunk, s.cfg.MaxChunks);
    hide UpdateMap, PurgeImage;
  }

  lemma PurgedSector(s: Ctx, x: nat)
    requires LogOk(s) && CacheOk(s.cache, s.cfg.SizeOfMap)
    requires s.purge < LAST_PURGE_POS && s.cache.pos % 8 == 0
    requires x / 8 < s.cfg.SizeOfMap
    ensures StoredAt(PurgeCache(s), x) == ReadSector(s, x)
  {
    PurgedMap(s, x);
    var pos := FindCached(s.cache, x, 0);
    if pos != NOT_MAPPED {
      InImage(s, x, pos);
    } else if s.mi.Map[x / 8] != NOT_MAPPED {
      StoredElsewhere(s, x);
      PurgeWrites(s, s.mi.Map[x / 8] + x % 8);
    }
  }

  lemma StoredThere(s: Ctx, x: nat, i: nat)
    requires x / 8 < s.cfg.SizeOfMap && s.mi.Map[x / 8] + x % 8 == i < |s.disk.data|
    ensures StoredAt(s, x) == s.disk.data[i]
  {
    assert |s.disk.data| <= 0x40000 * 500;
  }

  lemma InImage(s: Ctx, x: nat, pos: nat)
    requires s.purge < LAST_PURGE_POS && x / 8 < s.cfg.SizeOfMap && pos < s.cache.pos
    requires PurgeCache(s).mi.Map[x / 8] + x % 8 == Plba(s.chunk, s.purge) + pos
    ensures StoredAt(PurgeCache(s), x) == s.cache.mem[pos]
  {
    hide PurgeCache, StoredAt;
    PurgeWrites(s, 0);
    var i := Plba(s.chunk, s.purge) + pos;
    PurgeWrites(s, i);
    StoredThere(PurgeCache(s), x, i);
  }

  // A purge writes where nothing live is stored.
  lemma StoredElsewhere(s: Ctx, x: nat)
    requires LogOk(s) && s.purge < LAST_PURGE_POS
    requires x / 8 < s.cfg.SizeOfMap && s.mi.Map[x / 8] != NOT_MAPPED
    ensures var p := s.mi.Map[x / 8] + x % 8;
            p < |s.disk.data| && !(Plba(s.chunk, s.purge) <= p < Plba(s.chunk, s.purge) + 0x200)
  {
    LocatedIn(s, x / 8);
    var c := ChunkOf(s.mi.Map[x / 8]);
    if c < s.chunk {
      ChunksApart(c, s.chunk);
    } else if s.chunk < c {
      ChunksApart(s.chunk, c);
    }
  }

  lemma PurgeReads(s: Ctx)
    requires LogOk(s) && CacheOk(s.cache, s.cfg.SizeOfMap)
    requires s.purge < LAST_PURGE_POS && s.cache.pos % 8 == 0
    ensures SameContents(s, PurgeCache(s))
  {
    forall x: nat | x / 8 < s.cfg.SizeOfMap ensures ReadSector(PurgeCache(s), x) == ReadSector(s, x) {
      PurgedSector(s, x);
    }
  }

  lemma SameReads(s: Ctx, s': Ctx)
    requires s'.cfg == s.cfg && s'.mi.Map == s.mi.Map && s'.disk.data == s.disk.data && s'.cache == s.cache
    ensures SameContents(s, s')
  {
  }

  // With an empty cache the logical disk is what is stored.
  lemma EmptyCacheReads(s: Ctx, s': Ctx)
    requires s.cache.pos == 0 && s'.cache.pos == 0
    requires s'.cfg == s.cfg && s'.mi.Map == s.mi.Map && s'.disk.data == s.disk.data
    ensures SameContents(s, s')
  {
  }
}
