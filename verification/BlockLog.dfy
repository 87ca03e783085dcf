// The block log: every chunk's table names the logical blocks stored in it, in write order.
// The block map must agree with the newest entry of the log for every block.
module BlockLog {
  import opened Geometry

  // What one chunk contributes to the log: slots lo..hi of its table, stamped with a
  // sequence number. A chunk without a usable control block contributes an empty range.
  datatype Segment = Segment(scn: nat, lo: nat, hi: nat, tab: seq<nat>)

  datatype ChunkInfo = ChunkInfo(SCN: nat, WCN: nat, Used: int)

  datatype MapInfo = MapInfo(Map: seq<nat>, info: seq<ChunkInfo>)

  predicate Names(g: Segment, k: int, b: int) {
    g.lo <= k < g.hi <= |g.tab| && g.tab[k] / 8 == b
  }

  ghost predicate LatestFor(segs: seq<Segment>, p: nat, b: int) {
    if p == NOT_MAPPED then
      forall c, k | 0 <= c < |segs| :: !Names(segs[c], k, b)
    else
      var c, k := ChunkOf(p), SlotOf(p);
      && 0 <= c < |segs|
      && p == Plba(c, 8 * k)
      && Names(segs[c], k, b)
      && forall c', k' | 0 <= c' < |segs| && Names(segs[c'], k', b) ::
           segs[c'].scn < segs[c].scn || (c' == c && k' <= k)
  }

  // m is the map in which every block points at its newest entry in the log.
  ghost predicate IsLatest(segs: seq<Segment>, m: seq<nat>) {
    forall b {:trigger LatestFor(segs, m[b], b)} | 0 <= b < |m| :: LatestFor(segs, m[b], b)
  }

  // At most 500 chunks, and tables that fit in a chunk.
  ghost predicate WellFormed(segs: seq<Segment>) {
    && |segs| <= 500
    && forall c | 0 <= c < |segs| :: segs[c].hi <= |segs[c].tab| <= TABLE_SIZE
  }

  ghost predicate Distinct(segs: seq<Segment>, c: int)
    requires 0 <= c < |segs|
  {
    forall c' | 0 <= c' < |segs| && c' != c && segs[c'].lo < segs[c'].hi :: segs[c'].scn != segs[c].scn
  }

  lemma LatestIsUnique(segs: seq<Segment>, m: seq<nat>, n: seq<nat>)
    requires |m| == |n|
    requires IsLatest(segs, m) && IsLatest(segs, n)
    ensures m == n
  {
    forall b | 0 <= b < |m| ensures m[b] == n[b] {
      assert LatestFor(segs, m[b], b) && LatestFor(segs, n[b], b);
    }
  }

  // ---- How many blocks a map keeps in a chunk

  function CountIn(m: seq<nat>, c: int): nat {
    if m == [] then 0 else (if InChunk(m[0], c) then 1 else 0) + CountIn(m[1..], c)
  }

  lemma {:induction false} CountUpdate(m: seq<nat>, j: nat, p: nat, c: int)
    requires j < |m|
    ensures CountIn(m[j := p], c)
         == CountIn(m, c) - (if InChunk(m[j], c) then 1 else 0) + (if InChunk(p, c) then 1 else 0)
  {
    if j == 0 {
      assert m[j := p][1..] == m[1..];
    } else {
      assert m[j := p][1..] == m[1..][j - 1 := p];
      CountUpdate(m[1..], j - 1, p, c);
    }
  }

  lemma {:induction false} CountZero(m: seq<nat>, c: int)
    ensures CountIn(m, c) == 0 <==> forall b | 0 <= b < |m| :: !InChunk(m[b], c)
  {
    if m != [] {
      CountZero(m[1..], c);
      assert forall b | 1 <= b < |m| :: m[b] == m[1..][b - 1];
    }
  }

  lemma {:induction false} CountOne(m: seq<nat>, c: int)
    requires forall b | 1 <= b < |m| :: !InChunk(m[b], c)
    ensures CountIn(m, c) == if m != [] && InChunk(m[0], c) then 1 else 0
  {
    if m != [] {
      assert forall b | 0 <= b < |m[1..]| :: m[1..][b] == m[b + 1];
      CountZero(m[1..], c);
    }
  }

  // ---- UpdateMap

  predicate InRange(m: seq<nat>, n: nat) {
    forall b | 0 <= b < |m| :: m[b] == NOT_MAPPED || m[b] < 0x40000 * n
  }

  ghost predicate UsedCounts(mi: MapInfo) {
    forall c | 0 <= c < |mi.info| :: mi.info[c].Used == CountIn(mi.Map, c)
  }

  // One entry of a control block: block lba>>3 is stored at plba, in chunk c.
  function UpdateOne(mi: MapInfo, lba: nat, c: nat, plba: nat): (r: MapInfo)
    requires InRange(mi.Map, |mi.info|)
    requires c < |mi.info| && ChunkOf(plba) == c
    ensures |r.Map| == |mi.Map| && |r.info| == |mi.info|
    ensures InRange(r.Map, |r.info|)
    ensures forall i | 0 <= i < |r.info| :: r.info[i].SCN == mi.info[i].SCN && r.info[i].WCN == mi.info[i].WCN
  {
    var j := lba / 8;
    if |mi.Map| <= j then mi
    else
      var oldPlba := mi.Map[j];
      if oldPlba != NOT_MAPPED && mi.info[ChunkOf(oldPlba)].SCN > mi.info[c].SCN then mi
      else
        var info :=
          if oldPlba == NOT_MAPPED then mi.info
          else mi.info[ChunkOf(oldPlba) := mi.info[ChunkOf(oldPlba)].(Used := mi.info[ChunkOf(oldPlba)].Used - 1)];
        MapInfo(mi.Map[j := plba], info[c := info[c].(Used := info[c].Used + 1)])
  }

  // The entries lbas, stored in consecutive blocks from plba on.
  function UpdateMap(mi: MapInfo, lbas: seq<nat>, c: nat, plba: nat): (r: MapInfo)
    requires InRange(mi.Map, |mi.info|)
    requires c < |mi.info|
    requires Plba(c, 0) <= plba && plba + 8 * |lbas| <= Plba(c + 1, 0)
    ensures |r.Map| == |mi.Map| && |r.info| == |mi.info|
    ensures InRange(r.Map, |r.info|)
    ensures forall i | 0 <= i < |r.info| :: r.info[i].SCN == mi.info[i].SCN && r.info[i].WCN == mi.info[i].WCN
    decreases |lbas|
  {
    if lbas == [] then mi else UpdateMap(UpdateOne(mi, lbas[0], c, plba), lbas[1..], c, plba + 8)
  }

  // Conservation: Used always counts the map entries that point into the chunk, and the
  // decrement never takes a counter below zero.
  lemma {:induction false} UpdateOneCounts(mi: MapInfo, lba: nat, c: nat, plba: nat)
    requires InRange(mi.Map, |mi.info|) && |mi.info| <= 500
    requires c < |mi.info| && ChunkOf(plba) == c
    requires UsedCounts(mi)
    ensures UsedCounts(UpdateOne(mi, lba, c, plba))
  {
    var r := UpdateOne(mi, lba, c, plba);
    var j := lba / 8;
    if j < |mi.Map| {
      forall i | 0 <= i < |r.info| ensures r.info[i].Used == CountIn(r.Map, i) {
        CountUpdate(mi.Map, j, plba, i);
      }
    }
  }

  lemma {:induction false} UpdateMapCounts(mi: MapInfo, lbas: seq<nat>, c: nat, plba: nat)
    requires InRange(mi.Map, |mi.info|) && |mi.info| <= 500
    requires c < |mi.info|
    requires Plba(c, 0) <= plba && plba + 8 * |lbas| <= Plba(c + 1, 0)
    requires UsedCounts(mi)
    ensures UsedCounts(UpdateMap(mi, lbas, c, plba))
    decreases |lbas|
  {
    if lbas != [] {
      UpdateOneCounts(mi, lbas[0], c, plba);
      UpdateMapCounts(UpdateOne(mi, lbas[0], c, plba), lbas[1..], c, plba + 8);
    }
  }

  // ---- UpdateMap extends the log

  ghost predicate ScnsAgree(segs: seq<Segment>, info: seq<ChunkInfo>, c: int)
    requires 0 <= c < |segs|
  {
    && |segs| == |info|
    && forall i | 0 <= i < |segs| && (i == c || segs[i].lo < segs[i].hi) :: info[i].SCN == segs[i].scn
  }

  function Extend(segs: seq<Segment>, c: nat, n: nat): (r: seq<Segment>)
    requires c < |segs|
    ensures |r| == |segs|
  {
    segs[c := segs[c].(hi := segs[c].hi + n)]
  }

  // Recording the next slot of chunk c keeps the map at the newest entry of every block,
  // in whatever order chunks are visited.
  lemma LatestExtend(segs: seq<Segment>, mi: MapInfo, c: nat)
    requires WellFormed(segs) && c < |segs| && Distinct(segs, c)
    requires ScnsAgree(segs, mi.info, c)
    requires IsLatest(segs, mi.Map) && InRange(mi.Map, |mi.info|)
    requires segs[c].lo <= segs[c].hi < |segs[c].tab|
    ensures ChunkOf(Plba(c, 8 * segs[c].hi)) == c
    ensures IsLatest(Extend(segs, c, 1), UpdateOne(mi, segs[c].tab[segs[c].hi], c, Plba(c, 8 * segs[c].hi)).Map)
  {
    var g := segs[c];
    PlbaParts(c, g.hi);
    var r := UpdateOne(mi, g.tab[g.hi], c, Plba(c, 8 * g.hi)).Map;
    forall b | 0 <= b < |r| ensures LatestFor(Extend(segs, c, 1), r[b], b) {
      assert LatestFor(segs, mi.Map[b], b);
      UpdatedAt(segs, mi, c, b);
      hide LatestFor, UpdateOne, Extend, WellFormed, Distinct;
      LatestForExtend(segs, c, mi.Map[b], b);
    }
  }

  // What the next entry of chunk c makes of block b, which is stored at p.
  function Moved(segs: seq<Segment>, c: nat, p: nat, b: int): nat
    requires c < |segs| && segs[c].hi < |segs[c].tab|
  {
    if segs[c].tab[segs[c].hi] / 8 == b
       && (p == NOT_MAPPED || (0 <= ChunkOf(p) < |segs| && segs[ChunkOf(p)].scn <= segs[c].scn)) then
      Plba(c, 8 * segs[c].hi)
    else p
  }

  lemma UpdatedAt(segs: seq<Segment>, mi: MapInfo, c: nat, b: nat)
    requires c < |segs| && ScnsAgree(segs, mi.info, c) && InRange(mi.Map, |mi.info|) && b < |mi.Map|
    requires segs[c].hi < |segs[c].tab| && LatestFor(segs, mi.Map[b], b)
    requires ChunkOf(Plba(c, 8 * segs[c].hi)) == c
    ensures UpdateOne(mi, segs[c].tab[segs[c].hi], c, Plba(c, 8 * segs[c].hi)).Map[b] == Moved(segs, c, mi.Map[b], b)
  {
  }

  lemma ExtendedNames(segs: seq<Segment>, c: nat, i: nat, k: int, b: int)
    requires c < |segs| && i < |segs| && segs[c].lo <= segs[c].hi < |segs[c].tab|
    ensures Names(Extend(segs, c, 1)[i], k, b)
       <==> Names(segs[i], k, b) || (i == c && k == segs[c].hi && segs[c].tab[k] / 8 == b)
    ensures Extend(segs, c, 1)[i].scn == segs[i].scn
  {
  }

  lemma LatestForExtend(segs: seq<Segment>, c: nat, p: nat, b: int)
    requires WellFormed(segs) && c < |segs| && Distinct(segs, c) && segs[c].lo <= segs[c].hi < |segs[c].tab|
    requires LatestFor(segs, p, b)
    ensures LatestFor(Extend(segs, c, 1), Moved(segs, c, p, b), b)
  {
    forall i: nat, k | i < |segs|
      ensures Names(Extend(segs, c, 1)[i], k, b)
         <==> Names(segs[i], k, b) || (i == c && k == segs[c].hi && segs[c].tab[k] / 8 == b)
      ensures Extend(segs, c, 1)[i].scn == segs[i].scn
    {
      ExtendedNames(segs, c, i, k, b);
    }
    PlbaParts(c, segs[c].hi);
    assert forall i, k | 0 <= i < |segs| && Names(segs[i], k, b) :: segs[i].lo < segs[i].hi;
    hide Extend;
  }

  // A control block, or the purge slots of the current chunk, recorded entry by entry.
  lemma {:induction false} LatestUpdateMap(segs: seq<Segment>, mi: MapInfo, c: nat, n: nat)
    requires WellFormed(segs) && c < |segs| && Distinct(segs, c)
    requires ScnsAgree(segs, mi.info, c)
    requires IsLatest(segs, mi.Map) && InRange(mi.Map, |mi.info|)
    requires segs[c].lo <= segs[c].hi && segs[c].hi + n <= |segs[c].tab|
    ensures var g := segs[c];
            IsLatest(Extend(segs, c, n), UpdateMap(mi, g.tab[g.hi..g.hi + n], c, Plba(c, 8 * g.hi)).Map)
    decreases n
  {
    var g := segs[c];
    if n == 0 {
      assert Extend(segs, c, 0) == segs;
    } else {
      LatestExtend(segs, mi, c);
      var next := UpdateOne(mi, g.tab[g.hi], c, Plba(c, 8 * g.hi));
      var segs' := Extend(segs, c, 1);
      LatestUpdateMap(segs', next, c, n - 1);
      assert Extend(segs', c, n - 1) == Extend(segs, c, n);
      assert g.tab[g.hi..g.hi + n][1..] == g.tab[g.hi + 1..g.hi + n];
    }
  }

  // A segment nothing points into can be forgotten.
  lemma LatestDrop(segs: seq<Segment>, m: seq<nat>, c: nat, g: Segment)
    requires IsLatest(segs, m) && c < |segs|
    requires g.lo >= g.hi
    requires forall b | 0 <= b < |m| && m[b] != NOT_MAPPED :: ChunkOf(m[b]) != c
    ensures IsLatest(segs[c := g], m)
  {
    forall b | 0 <= b < |m| ensures LatestFor(segs[c := g], m[b], b) {
      assert LatestFor(segs, m[b], b);
    }
  }

  // ---- What a purge moves out of another chunk

  ghost predicate InMap(m: seq<nat>, heads: seq<nat>) {
    forall i | 0 <= i < |heads| :: heads[i] / 8 < |m|
  }

  // The map after blocks heads[0], heads[1], ... are stored from plba on.
  ghost function Remap(m: seq<nat>, heads: seq<nat>, plba: nat): (r: seq<nat>)
    requires InMap(m, heads)
    ensures |r| == |m|
    decreases |heads|
  {
    if heads == [] then m else Remap(m[heads[0] / 8 := plba], heads[1..], plba + 8)
  }

  // How many of the blocks heads[0], heads[1], ... are now stored in chunk c.
  ghost function Displaced(m: seq<nat>, heads: seq<nat>, c: int): nat
    requires InMap(m, heads)
    decreases |heads|
  {
    if heads == [] then 0
    else (if InChunk(m[heads[0] / 8], c) then 1 else 0) + Displaced(m, heads[1..], c)
  }

  ghost predicate DistinctBlocks(heads: seq<nat>) {
    forall i, j | 0 <= i < j < |heads| :: heads[i] / 8 != heads[j] / 8
  }

  lemma {:induction false} DisplacedFrame(m: seq<nat>, m': seq<nat>, heads: seq<nat>, c: int)
    requires |m| == |m'| && InMap(m, heads) && forall i | 0 <= i < |heads| :: m[heads[i] / 8] == m'[heads[i] / 8]
    ensures Displaced(m, heads, c) == Displaced(m', heads, c)
    decreases |heads|
  {
    if heads != [] {
      DisplacedFrame(m, m', heads[1..], c);
    }
  }

  lemma {:induction false} RemapCount(m: seq<nat>, heads: seq<nat>, plba: nat, at: nat, c: int)
    requires InMap(m, heads)
    requires DistinctBlocks(heads) && at != c
    requires Plba(at, 0) <= plba && plba + 8 * |heads| <= Plba(at + 1, 0)
    ensures CountIn(Remap(m, heads, plba), c) == CountIn(m, c) - Displaced(m, heads, c)
    decreases |heads|
  {
    if heads != [] {
      var m' := m[heads[0] / 8 := plba];
      CountUpdate(m, heads[0] / 8, plba, c);
      DisplacedFrame(m, m', heads[1..], c);
      RemapCount(m', heads[1..], plba + 8, at, c);
    }
  }

  lemma {:induction false} RemapAt(m: seq<nat>, heads: seq<nat>, plba: nat, b: nat)
    requires InMap(m, heads)
    requires DistinctBlocks(heads) && b < |m|
    ensures (forall i | 0 <= i < |heads| :: heads[i] / 8 != b) ==> Remap(m, heads, plba)[b] == m[b]
    ensures forall i | 0 <= i < |heads| && heads[i] / 8 == b :: Remap(m, heads, plba)[b] == plba + 8 * i
    decreases |heads|
  {
    if heads != [] {
      RemapAt(m[heads[0] / 8 := plba], heads[1..], plba + 8, b);
      assert forall i | 1 <= i < |heads| :: heads[i] == heads[1..][i - 1];
    }
  }

  lemma {:induction false} DisplacedAll(m: seq<nat>, heads: seq<nat>, c: int)
    requires InMap(m, heads) && forall i | 0 <= i < |heads| :: InChunk(m[heads[i] / 8], c)
    ensures Displaced(m, heads, c) == |heads|
    decreases |heads|
  {
    if heads != [] {
      DisplacedAll(m, heads[1..], c);
    }
  }

  lemma {:induction false} DisplacedGrows(m: seq<nat>, heads: seq<nat>, more: seq<nat>, c: int)
    requires InMap(m, heads + more)
    ensures InMap(m, heads)
    ensures Displaced(m, heads, c) <= Displaced(m, heads + more, c)
    decreases |heads|
  {
    assert heads == (heads + more)[..|heads|];
    if heads != [] {
      assert (heads + more)[1..] == heads[1..] + more;
      DisplacedGrows(m, heads[1..], more, c);
    }
  }

  // While the writing chunk has the greatest sequence number, no entry is ever skipped.
  lemma {:induction false} UpdateMapIsRemap(mi: MapInfo, heads: seq<nat>, c: nat, plba: nat)
    requires InRange(mi.Map, |mi.info|) && c < |mi.info|
    requires Plba(c, 0) <= plba && plba + 8 * |heads| <= Plba(c + 1, 0)
    requires InMap(mi.Map, heads)
    requires forall b | 0 <= b < |mi.Map| && mi.Map[b] != NOT_MAPPED ::
               mi.info[ChunkOf(mi.Map[b])].SCN <= mi.info[c].SCN
    ensures UpdateMap(mi, heads, c, plba).Map == Remap(mi.Map, heads, plba)
    decreases |heads|
  {
    if heads != [] {
      UpdateMapIsRemap(UpdateOne(mi, heads[0], c, plba), heads[1..], c, plba + 8);
    }
  }

  // IsLatest only depends on which slots name which blocks, and on the sequence numbers.
  lemma LatestFrame(segs: seq<Segment>, segs': seq<Segment>, m: seq<nat>)
    requires |segs| == |segs'| && IsLatest(segs, m)
    requires forall c | 0 <= c < |segs| :: segs[c].scn == segs'[c].scn
    requires forall c, k, b | 0 <= c < |segs| && 0 <= b < |m| :: Names(segs[c], k, b) <==> Names(segs'[c], k, b)
    ensures IsLatest(segs', m)
  {
    forall b | 0 <= b < |m| ensures LatestFor(segs', m[b], b) {
      assert LatestFor(segs, m[b], b);
    }
  }

  // Entries that name no block change nothing.
  lemma {:induction false} UpdateMapPadding(mi: MapInfo, lbas: seq<nat>, pad: seq<nat>, c: nat, plba: nat)
    requires InRange(mi.Map, |mi.info|) && c < |mi.info|
    requires Plba(c, 0) <= plba && plba + 8 * |lbas + pad| <= Plba(c + 1, 0)
    requires forall i | 0 <= i < |pad| :: |mi.Map| <= pad[i] / 8
    ensures UpdateMap(mi, lbas + pad, c, plba) == UpdateMap(mi, lbas, c, plba)
    decreases |lbas + pad|
  {
    if lbas != [] {
      assert (lbas + pad)[1..] == lbas[1..] + pad;
      UpdateMapPadding(UpdateOne(mi, lbas[0], c, plba), lbas[1..], pad, c, plba + 8);
    } else if pad != [] {
      assert lbas + pad == pad;
      assert [] + pad[1..] == pad[1..];
      UpdateMapPadding(mi, [], pad[1..], c, plba + 8);
    }
  }

  // A purge: a slot of entries is written behind the end of a segment, and all but a suffix
  // that names nothing is applied to the map.
  lemma LatestAppend(segs: seq<Segment>, mi: MapInfo, c: nat, tab: seq<nat>, n: nat, size: nat)
    requires WellFormed(segs) && c < |segs| && Distinct(segs, c)
    requires ScnsAgree(segs, mi.info, c)
    requires IsLatest(segs, mi.Map) && InRange(mi.Map, |mi.info|)
    requires segs[c].lo <= segs[c].hi && segs[c].hi + size <= |tab| == |segs[c].tab| && n <= size
    requires forall k | segs[c].lo <= k < segs[c].hi :: tab[k] == segs[c].tab[k]
    requires forall k | segs[c].hi + n <= k < segs[c].hi + size :: |mi.Map| <= tab[k] / 8
    ensures Plba(c, 0) <= Plba(c, 8 * segs[c].hi) && Plba(c, 8 * segs[c].hi) + 8 * size <= Plba(c + 1, 0)
    ensures var g := segs[c];
            && UpdateMap(mi, tab[g.hi..g.hi + n], c, Plba(c, 8 * g.hi))
               == UpdateMap(mi, tab[g.hi..g.hi + size], c, Plba(c, 8 * g.hi))
            && IsLatest(segs[c := g.(tab := tab, hi := g.hi + size)],
                        UpdateMap(mi, tab[g.hi..g.hi + size], c, Plba(c, 8 * g.hi)).Map)
  {
    hide IsLatest, UpdateMap, WellFormed, Distinct, ScnsAgree, InRange;
    RetabledFits(segs, mi.info, c, tab);
    var g := segs[c];
    var entries, head, pad := tab[g.hi..g.hi + size], tab[g.hi..g.hi + n], tab[g.hi + n..g.hi + size];
    assert entries == head + pad;
    UpdateMapPadding(mi, head, pad, c, Plba(c, 8 * g.hi));
    LatestRetable(segs, mi.Map, c, tab);
    var retabled := segs[c := g.(tab := tab)];
    LatestUpdateMap(retabled, mi, c, size);
    assert Extend(retabled, c, size) == segs[c := g.(tab := tab, hi := g.hi + size)];
  }

  lemma RetabledFits(segs: seq<Segment>, info: seq<ChunkInfo>, c: nat, tab: seq<nat>)
    requires WellFormed(segs) && c < |segs| && Distinct(segs, c) && ScnsAgree(segs, info, c)
    requires segs[c].lo <= segs[c].hi <= |tab| == |segs[c].tab|
    ensures var retabled := segs[c := segs[c].(tab := tab)];
            WellFormed(retabled) && Distinct(retabled, c) && ScnsAgree(retabled, info, c)
    ensures |tab| <= TABLE_SIZE && |info| == |segs|
  {
  }

  lemma LatestRetable(segs: seq<Segment>, m: seq<nat>, c: nat, tab: seq<nat>)
    requires c < |segs| && IsLatest(segs, m)
    requires segs[c].hi <= |tab| == |segs[c].tab|
    requires forall k | segs[c].lo <= k < segs[c].hi :: tab[k] == segs[c].tab[k]
    ensures IsLatest(segs[c := segs[c].(tab := tab)], m)
  {
    LatestFrame(segs, segs[c := segs[c].(tab := tab)], m);
  }
}
