// The write cache as a finite map: GetCachedPos finds exactly the cached sectors, each in
// its one position, and appending a run of sectors extends the map.
module CacheIndex {
  import opened Geometry
  import opened Model
  import opened Invariant

  // The position at which sector lba is cached, if its block's line starts at i.
  lemma SectorOf(c: Cache, blocks: nat, i: nat, lba: nat)
    requires CacheOk(c, blocks) && i % 8 == 0 && i < c.pos
    ensures c.lba[i] == lba - lba % 8 <==> c.lba[i] / 8 == lba / 8
    ensures c.lba[i] / 8 == lba / 8 && i + lba % 8 < c.pos ==> c.lba[i + lba % 8] == lba
    ensures forall p | i <= p < i + 8 && p < c.pos && c.lba[p] == lba :: c.lba[i] / 8 == lba / 8 && p == i + lba % 8
  {
    assert Placed(c, blocks, i);
    if i + lba % 8 < c.pos {
      assert Placed(c, blocks, i + lba % 8) && OneLine(c, i, i + lba % 8);
    }
    forall p | i <= p < i + 8 && p < c.pos && c.lba[p] == lba ensures c.lba[i] / 8 == lba / 8 && p == i + lba % 8 {
      assert Placed(c, blocks, p) && OneLine(c, i, p);
    }
  }

  lemma {:induction false} FindCachedFrom(c: Cache, blocks: nat, lba: nat, i: nat)
    requires CacheOk(c, blocks) && i % 8 == 0
    ensures var pos := FindCached(c, lba, i);
            if pos == NOT_MAPPED then forall p | i <= p < c.pos :: c.lba[p] != lba
            else pos < c.pos && c.lba[pos] == lba
    decreases 0x200 - i
  {
    if i < c.pos {
      SectorOf(c, blocks, i, lba);
      if !(c.lba[i] == lba - lba % 8 && i + lba % 8 < c.pos) {
        FindCachedFrom(c, blocks, lba, i + 8);
      }
    }
  }

  lemma CachedOnce(c: Cache, blocks: nat, p: nat, q: nat)
    requires CacheOk(c, blocks) && p < c.pos && q < c.pos && c.lba[p] == c.lba[q]
    ensures p == q
  {
    assert OneLine(c, p, q) && Placed(c, blocks, p) && Placed(c, blocks, q);
  }

  // GetCachedPos returns a position exactly when the sector is cached, and then its only one.
  lemma FindCachedIff(c: Cache, blocks: nat, lba: nat, pos: nat)
    requires CacheOk(c, blocks) && pos < NOT_MAPPED
    ensures FindCached(c, lba, 0) == pos <==> pos < c.pos && c.lba[pos] == lba
  {
    FindCachedFrom(c, blocks, lba, 0);
    var r := FindCached(c, lba, 0);
    if pos < c.pos && c.lba[pos] == lba && r != NOT_MAPPED {
      CachedOnce(c, blocks, pos, r);
    }
  }

  lemma LineStart(c: Cache, p: nat)
    requires p < c.pos && forall q | 0 <= q < c.pos :: OneLine(c, q, p)
    ensures (p - p % 8) % 8 == 0 && p - p % 8 <= p && c.lba[p - p % 8] / 8 == c.lba[p] / 8
  {
    assert OneLine(c, p - p % 8, p);
  }

  // The first sector of a block decides whether any of it is cached.
  lemma BlockCachedIff(c: Cache, blocks: nat, lba: nat)
    requires CacheOk(c, blocks) && lba % 8 == 0
    ensures FindCached(c, lba, 0) == NOT_MAPPED <==> !CachedBlock(c, lba / 8)
  {
    FindCachedFrom(c, blocks, lba, 0);
    if CachedBlock(c, lba / 8) {
      var p :| 0 <= p < c.pos && c.lba[p] / 8 == lba / 8;
      LineStart(c, p);
      SectorOf(c, blocks, p - p % 8, lba);
    }
  }

  // With whole blocks cached, a block is cached exactly when each of its sectors is.
  lemma WholeBlockCached(c: Cache, blocks: nat, p: nat, lba: nat)
    requires CacheOk(c, blocks) && c.pos % 8 == 0 && p < c.pos && c.lba[p] / 8 == lba / 8
    ensures FindCached(c, lba, 0) != NOT_MAPPED
  {
    LineStart(c, p);
    LineFits(c.pos, p, lba % 8);
    SectorOf(c, blocks, p - p % 8, lba);
    FindCachedFrom(c, blocks, lba, 0);
  }

  lemma LineFits(pos: nat, p: nat, i: nat)
    requires pos % 8 == 0 && p < pos && i < 8
    ensures p - p % 8 + i < pos
  {
  }

  // When may a run of sectors be appended: it continues the unfinished block or starts at a
  // block boundary, and every block it starts is new.
  ghost predicate Appendable(c: Cache, blocks: nat, lba: nat, n: nat)
  {
    && 0 < n && c.pos + n <= LAST_CACHE_POS
    && lba % 8 == c.pos % 8 && (lba + n - 1) / 8 < blocks
    && (c.pos % 8 != 0 ==> lba == c.lba[c.pos - 1] + 1)
    && forall t | lba <= t < lba + n && t % 8 == 0 :: !CachedBlock(c, t / 8)
  }

  // Positions and addresses that agree modulo 8 advance through lines together.
  lemma SameLine(lba: nat, pos: nat, i: nat, j: nat)
    requires lba % 8 == pos % 8
    ensures (lba + i) / 8 == (lba + j) / 8 <==> (pos + i) / 8 == (pos + j) / 8
    ensures (lba + i) % 8 == (pos + i) % 8
  {
    var d := lba / 8 - pos / 8;
    assert lba == pos + 8 * d;
    assert (lba + i) / 8 == (pos + i) / 8 + d && (lba + j) / 8 == (pos + j) / 8 + d;
  }

  lemma AppendedLine(c: Cache, blocks: nat, lba: nat, n: nat, p: nat, i: nat)
    requires CacheOk(c, blocks) && Appendable(c, blocks, lba, n) && p < c.pos && i < n
    ensures c.lba[p] / 8 == (lba + i) / 8 <==> p / 8 == (c.pos + i) / 8
  {
    var t := lba + i - (lba + i) % 8;
    if t >= lba {
      NewBlock(c, t / 8, p);
      hide CacheOk, CachedBlock, Appendable;
      NewLine(lba, c.pos, i, p);
    } else {
      LastLine(c, blocks, lba, n, p);
      hide CacheOk, CachedBlock, Appendable;
      SameLine(lba - 1, c.pos - 1, 0, i + 1);
    }
  }

  lemma NewBlock(c: Cache, b: nat, p: nat)
    requires !CachedBlock(c, b) && p < c.pos
    ensures c.lba[p] / 8 != b
  {
  }

  // The run continues the unfinished block.
  lemma LastLine(c: Cache, blocks: nat, lba: nat, n: nat, p: nat)
    requires CacheOk(c, blocks) && Appendable(c, blocks, lba, n) && lba % 8 != 0 && p < c.pos
    ensures lba > 0 && c.lba[c.pos - 1] == lba - 1 && (lba - 1) % 8 == (c.pos - 1) % 8
    ensures c.lba[p] / 8 == (lba - 1) / 8 <==> p / 8 == (c.pos - 1) / 8
  {
    assert Placed(c, blocks, c.pos - 1) && OneLine(c, p, c.pos - 1);
    hide CacheOk, CachedBlock;
  }

  lemma NewLine(lba: nat, pos: nat, i: nat, p: nat)
    requires lba % 8 == pos % 8 && lba <= lba + i - (lba + i) % 8 && p < pos
    ensures p / 8 != (pos + i) / 8 && (lba + i - (lba + i) % 8) / 8 == (lba + i) / 8
  {
    SameLine(lba, pos, i, i);
    assert pos <= pos + i - (pos + i) % 8;
  }

  lemma AppendedSector(c: Cache, blocks: nat, lba: nat, n: nat, p: nat, i: nat)
    requires CacheOk(c, blocks) && Appendable(c, blocks, lba, n) && p < c.pos && i < n
    ensures c.lba[p] != lba + i
  {
    AppendedLine(c, blocks, lba, n, p, i);
    SameLine(lba, c.pos, i, i);
    assert Placed(c, blocks, p);
  }

  lemma PushPair(c: Cache, blocks: nat, lba: nat, data: seq<Sector>, p: nat, q: nat)
    requires CacheOk(c, blocks) && Appendable(c, blocks, lba, |data|)
    requires p <= q < c.pos + |data|
    ensures OneLine(Push(c, lba, data), p, q)
  {
    if c.pos <= p {
      SameLine(lba, c.pos, p - c.pos, q - c.pos);
    } else if c.pos <= q {
      AppendedLine(c, blocks, lba, |data|, p, q - c.pos);
    } else {
      assert OneLine(c, p, q);
    }
  }

  lemma PushSector(c: Cache, blocks: nat, lba: nat, data: seq<Sector>, p: nat)
    requires CacheOk(c, blocks) && Appendable(c, blocks, lba, |data|) && p < c.pos + |data|
    ensures Placed(Push(c, lba, data), blocks, p)
  {
    if c.pos <= p {
      SameLine(lba, c.pos, p - c.pos, p - c.pos);
      assert (lba + (p - c.pos)) / 8 <= (lba + |data| - 1) / 8;
    } else {
      assert Placed(c, blocks, p);
    }
  }

  lemma PushOk(c: Cache, blocks: nat, lba: nat, data: seq<Sector>)
    requires CacheOk(c, blocks) && Appendable(c, blocks, lba, |data|)
    ensures CacheOk(Push(c, lba, data), blocks)
  {
    var c' := Push(c, lba, data);
    forall p | 0 <= p < c'.pos ensures Placed(c', blocks, p) {
      PushSector(c, blocks, lba, data, p);
    }
    forall p, q | 0 <= p < c'.pos && 0 <= q < c'.pos
      ensures OneLine(c', p, q)
    {
      if p <= q {
        PushPair(c, blocks, lba, data, p, q);
      } else {
        PushPair(c, blocks, lba, data, q, p);
      }
    }
  }

  lemma PushFindsNew(c: Cache, blocks: nat, lba: nat, data: seq<Sector>, x: nat)
    requires CacheOk(c, blocks) && Appendable(c, blocks, lba, |data|) && lba <= x < lba + |data|
    ensures var c' := Push(c, lba, data);
            var pos := FindCached(c', x, 0);
            pos != NOT_MAPPED && c'.mem[pos] == data[x - lba]
  {
    PushOk(c, blocks, lba, data);
    FindCachedIff(Push(c, lba, data), blocks, x, c.pos + (x - lba));
  }

  lemma PushFindsOld(c: Cache, blocks: nat, lba: nat, data: seq<Sector>, x: nat)
    requires CacheOk(c, blocks) && Appendable(c, blocks, lba, |data|) && !(lba <= x < lba + |data|)
    ensures var c' := Push(c, lba, data);
            var pos := FindCached(c, x, 0);
            FindCached(c', x, 0) == pos && (pos != NOT_MAPPED ==> c'.mem[pos] == c.mem[pos])
  {
    var c' := Push(c, lba, data);
    PushOk(c, blocks, lba, data);
    var pos := FindCached(c, x, 0);
    FindCachedFrom(c, blocks, x, 0);
    if pos != NOT_MAPPED {
      FindCachedIff(c', blocks, x, pos);
    } else {
      assert forall p | 0 <= p < c'.pos :: c'.lba[p] != x;
      FindCachedFrom(c', blocks, x, 0);
    }
  }

  lemma PushHeads(c: Cache, blocks: nat, lba: nat, data: seq<Sector>)
    requires CacheOk(c, blocks) && Appendable(c, blocks, lba, |data|)
    ensures Heads(c) <= Heads(Push(c, lba, data))
  {
  }
}
