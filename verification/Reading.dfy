// ExecuteReadHandler (driver/vscsi.c): each round delivers the next sectors from the cache,
// as zeros, or by one device read that joins physically adjacent blocks.
module Reading {
  import opened Geometry
  import opened Model
  import opened Invariant
  import opened CacheIndex
  import opened LogKeeping

  // How far one device read may go: on into the next block as long as it is stored right
  // behind and nothing of it is cached.
  function JoinLen(s: Ctx, lba: nat, len: nat, plba: nat, n: nat): (r: nat)
    requires 1 <= n <= len && lba + len <= 8 * s.cfg.SizeOfMap
    ensures n <= r <= len
    ensures forall t | lba + n <= t < lba + r && t % 8 == 0 ::
              s.mi.Map[t / 8] == plba + (t - lba) && FindCached(s.cache, t, 0) == NOT_MAPPED
    decreases len - n
  {
    if n >= len then n
    else if (lba + n) % 8 != 0 then JoinLen(s, lba, len, plba, n + 1)
    else if plba + n != s.mi.Map[(lba + n) / 8] then n
    else if FindCached(s.cache, lba + n, 0) != NOT_MAPPED then n
    else JoinLen(s, lba, len, plba, n + 1)
  }

  // One round: n sectors, from memory or from the device at plba.
  datatype Round = Memory(data: seq<Sector>) | Device(plba: nat, n: nat)

  function ReadRound(s: Ctx, lba: nat, len: nat): (r: Round)
    requires 0 < len && lba + len <= 8 * s.cfg.SizeOfMap
  {
    var pos := FindCached(s.cache, lba, 0);
    if pos != NOT_MAPPED then Memory(s.cache.mem[pos..pos + HitLen(s.cache, lba, len, pos, 1)])
    else if s.mi.Map[lba / 8] == NOT_MAPPED then Memory([Zero])
    else
      var plba := s.mi.Map[lba / 8] + lba % 8;
      Device(plba, JoinLen(s, lba, len, plba, 1))
  }

  function RoundLen(r: Round): nat {
    match r
    case Memory(data) => |data|
    case Device(_, n) => n
  }

  // What the round puts into the client's buffer, if the device still holds it.
  function RoundData(s: Ctx, r: Round): seq<Sector>
    requires r.Device? ==> r.plba + r.n <= |s.disk.data|
  {
    match r
    case Memory(data) => data
    case Device(plba, n) => s.disk.data[plba..plba + n]
  }

  // A sector of an unfinished block is not cached without the ones before it.
  lemma CachedPrefix(c: Cache, blocks: nat, x: nat)
    requires CacheOk(c, blocks) && x % 8 != 0 && FindCached(c, x, 0) != NOT_MAPPED
    ensures FindCached(c, x - 1, 0) != NOT_MAPPED
  {
    hide CacheOk, FindCached;
    FindCachedFrom(c, blocks, x, 0);
    var pos := FindCached(c, x, 0);
    BeforeIt(c, blocks, pos);
    FindCachedIff(c, blocks, x - 1, pos - 1);
  }

  lemma BeforeIt(c: Cache, blocks: nat, pos: nat)
    requires CacheOk(c, blocks) && pos < c.pos && c.lba[pos] % 8 != 0
    ensures pos > 0 && c.lba[pos - 1] == c.lba[pos] - 1
  {
    assert Placed(c, blocks, pos);
    assert Placed(c, blocks, pos - 1) && OneLine(c, pos, pos - 1);
  }

  // Where the i-th sector of a joined read is stored.
  ghost predicate JoinedAt(s: Ctx, lba: nat, plba: nat, i: nat)
    requires (lba + i) / 8 < s.cfg.SizeOfMap
  {
    && FindCached(s.cache, lba + i, 0) == NOT_MAPPED
    && s.mi.Map[(lba + i) / 8] != NOT_MAPPED
    && s.mi.Map[(lba + i) / 8] + (lba + i) % 8 == plba + i
    && plba + i < |s.disk.data|
  }

  lemma NotMappedIsFar(s: Ctx, b: nat, p: nat)
    requires LogOk(s) && b < s.cfg.SizeOfMap && s.mi.Map[b] == p
    requires p < |s.disk.data| + 8
    ensures p != NOT_MAPPED
  {
    assert |s.disk.data| <= 0x40000 * 500;
  }

  lemma JoinNext(s: Ctx, lba: nat, plba: nat, i: nat)
    requires LogOk(s) && CacheOk(s.cache, s.cfg.SizeOfMap)
    requires (lba + i + 1) / 8 < s.cfg.SizeOfMap && JoinedAt(s, lba, plba, i)
    requires (lba + i + 1) % 8 == 0 ==>
               s.mi.Map[(lba + i + 1) / 8] == plba + i + 1 && FindCached(s.cache, lba + i + 1, 0) == NOT_MAPPED
    ensures JoinedAt(s, lba, plba, i + 1)
  {
    hide FindCached, CacheOk;
    var x := lba + i + 1;
    if x % 8 == 0 {
      NotMappedIsFar(s, x / 8, plba + i + 1);
    } else {
      if FindCached(s.cache, x, 0) != NOT_MAPPED {
        CachedPrefix(s.cache, s.cfg.SizeOfMap, x);
      }
      assert x / 8 == (lba + i) / 8 && x % 8 == (lba + i) % 8 + 1;
    }
    LocatedIn(s, x / 8);
    hide LogOk;
  }

  lemma {:induction false} JoinAll(s: Ctx, lba: nat, len: nat, plba: nat, i: nat)
    requires LogOk(s) && CacheOk(s.cache, s.cfg.SizeOfMap)
    requires 0 < len && lba + len <= 8 * s.cfg.SizeOfMap && JoinedAt(s, lba, plba, 0)
    requires i < JoinLen(s, lba, len, plba, 1)
    ensures JoinedAt(s, lba, plba, i)
    decreases i
  {
    if i > 0 {
      JoinAll(s, lba, len, plba, i - 1);
      JoinNext(s, lba, plba, i - 1);
    }
  }

  // A device round reads live blocks only, and none that is cached.
  lemma DeviceRoundStored(s: Ctx, lba: nat, len: nat, i: nat)
    requires LogOk(s) && CacheOk(s.cache, s.cfg.SizeOfMap)
    requires 0 < len && lba + len <= 8 * s.cfg.SizeOfMap && ReadRound(s, lba, len).Device?
    requires i < ReadRound(s, lba, len).n
    ensures JoinedAt(s, lba, ReadRound(s, lba, len).plba, i)
  {
    LocatedIn(s, lba / 8);
    JoinAll(s, lba, len, ReadRound(s, lba, len).plba, i);
  }

  // data is what the logical disk holds from lba on.
  ghost predicate Delivers(s: Ctx, lba: nat, data: seq<Sector>) {
    && lba + |data| <= 8 * s.cfg.SizeOfMap
    && forall x: nat | lba <= x < lba + |data| :: data[x - lba] == ReadSector(s, x)
  }

  lemma DeliversJoin(s: Ctx, lba: nat, first: seq<Sector>, rest: seq<Sector>)
    requires Delivers(s, lba, first) && Delivers(s, lba + |first|, rest)
    ensures Delivers(s, lba, first + rest)
  {
  }

  lemma CachedRound(s: Ctx, lba: nat, len: nat)
    requires CacheOk(s.cache, s.cfg.SizeOfMap) && FindCached(s.cache, lba, 0) != NOT_MAPPED
    requires 0 < len && lba + len <= 8 * s.cfg.SizeOfMap
    ensures Delivers(s, lba, ReadRound(s, lba, len).data)
  {
    var r, pos := ReadRound(s, lba, len), FindCached(s.cache, lba, 0);
    FindCachedFrom(s.cache, s.cfg.SizeOfMap, lba, 0);
    forall x: nat | lba <= x < lba + |r.data| ensures r.data[x - lba] == ReadSector(s, x) {
      assert s.cache.lba[pos + (x - lba)] == x;
      FindCachedIff(s.cache, s.cfg.SizeOfMap, x, pos + (x - lba));
    }
  }

  lemma DeviceRound(s: Ctx, lba: nat, len: nat)
    requires LogOk(s) && CacheOk(s.cache, s.cfg.SizeOfMap)
    requires 0 < len && lba + len <= 8 * s.cfg.SizeOfMap && ReadRound(s, lba, len).Device?
    ensures var r := ReadRound(s, lba, len);
            r.plba + r.n <= |s.disk.data| && Delivers(s, lba, s.disk.data[r.plba..r.plba + r.n])
  {
    hide LogOk, CacheOk, FindCached, JoinLen, ReadSector;
    var r := ReadRound(s, lba, len);
    DeviceRoundStored(s, lba, len, r.n - 1);
    forall x: nat | lba <= x < lba + r.n ensures s.disk.data[r.plba..r.plba + r.n][x - lba] == ReadSector(s, x) {
      DeviceRoundStored(s, lba, len, x - lba);
      JoinedReads(s, lba, r.plba, x - lba);
    }
  }

  lemma JoinedReads(s: Ctx, lba: nat, plba: nat, i: nat)
    requires (lba + i) / 8 < s.cfg.SizeOfMap && JoinedAt(s, lba, plba, i)
    ensures ReadSector(s, lba + i) == s.disk.data[plba + i]
  {
    hide FindCached;
  }

  // Every round delivers exactly the logical contents of its sectors, and at least one.
  lemma RoundDelivers(s: Ctx, lba: nat, len: nat)
    requires LogOk(s) && CacheOk(s.cache, s.cfg.SizeOfMap)
    requires 0 < len && lba + len <= 8 * s.cfg.SizeOfMap
    ensures var r := ReadRound(s, lba, len);
            && 0 < RoundLen(r) <= len
            && (r.Device? ==> r.plba + r.n <= |s.disk.data|)
            && |RoundData(s, r)| == RoundLen(r)
            && Delivers(s, lba, RoundData(s, r))
  {
    hide LogOk, CacheOk;
    if FindCached(s.cache, lba, 0) != NOT_MAPPED {
      CachedRound(s, lba, len);
    } else if s.mi.Map[lba / 8] != NOT_MAPPED {
      DeviceRound(s, lba, len);
    }
  }

  lemma {:induction false} JoinIsLongest(s: Ctx, lba: nat, len: nat, plba: nat, n: nat)
    requires 1 <= n <= len && lba + len <= 8 * s.cfg.SizeOfMap
    ensures var r := JoinLen(s, lba, len, plba, n);
            r < len ==> (lba + r) % 8 == 0
                        && (s.mi.Map[(lba + r) / 8] != plba + r || FindCached(s.cache, lba + r, 0) != NOT_MAPPED)
    decreases len - n
  {
    hide FindCached;
    if n < len && ((lba + n) % 8 != 0
                   || (plba + n == s.mi.Map[(lba + n) / 8] && FindCached(s.cache, lba + n, 0) == NOT_MAPPED)) {
      JoinIsLongest(s, lba, len, plba, n + 1);
    }
  }

  lemma {:induction false} HitIsLongest(c: Cache, lba: nat, len: nat, pos: nat, n: nat)
    requires pos < c.pos && 1 <= n <= len && pos + n <= c.pos
    ensures var r := HitLen(c, lba, len, pos, n);
            r < len ==> pos + r == c.pos || c.lba[pos + r] != lba + r
    decreases len - n
  {
    if n < len && pos + n < c.pos && c.lba[pos + n] == lba + n {
      HitIsLongest(c, lba, len, pos, n + 1);
    }
  }

  // No round is shorter than it has to be. A device read only stops in front of a block that is
  // stored elsewhere or cached, and a copy from the cache where the cached run ends.
  lemma RoundIsLongest(s: Ctx, lba: nat, len: nat)
    requires 0 < len && lba + len <= 8 * s.cfg.SizeOfMap
    ensures var r, pos := ReadRound(s, lba, len), FindCached(s.cache, lba, 0);
            var next, n := lba + RoundLen(r), RoundLen(r);
            && (pos != NOT_MAPPED && n < len ==> pos + n == s.cache.pos || s.cache.lba[pos + n] != next)
            && (r.Device? && n < len ==>
                  next % 8 == 0 && (s.mi.Map[next / 8] != r.plba + n || FindCached(s.cache, next, 0) != NOT_MAPPED))
  {
    hide FindCached;
    var pos := FindCached(s.cache, lba, 0);
    if pos != NOT_MAPPED {
      HitIsLongest(s.cache, lba, len, pos, 1);
    } else if s.mi.Map[lba / 8] != NOT_MAPPED {
      JoinIsLongest(s, lba, len, s.mi.Map[lba / 8] + lba % 8, 1);
    }
  }

  // The whole read, when nothing else happens meanwhile.
  function ReadRun(s: Ctx, lba: nat, len: nat): (r: seq<Sector>)
    requires LogOk(s) && CacheOk(s.cache, s.cfg.SizeOfMap) && lba + len <= 8 * s.cfg.SizeOfMap
    decreases len
  {
    if len == 0 then []
    else
      RoundDelivers(s, lba, len);
      var r := ReadRound(s, lba, len);
      RoundData(s, r) + ReadRun(s, lba + RoundLen(r), len - RoundLen(r))
  }

  // A read ends with all its sectors transferred, and returns the logical disk's contents.
  lemma {:induction false} ReadReturnsContents(s: Ctx, lba: nat, len: nat)
    requires LogOk(s) && CacheOk(s.cache, s.cfg.SizeOfMap) && lba + len <= 8 * s.cfg.SizeOfMap
    ensures |ReadRun(s, lba, len)| == len && Delivers(s, lba, ReadRun(s, lba, len))
    decreases len
  {
    hide LogOk, CacheOk, ReadRound, RoundData, Delivers;
    if len == 0 {
      NothingDelivered(s, lba);
    } else {
      RoundDelivers(s, lba, len);
      var r := ReadRound(s, lba, len);
      var first, rest := RoundData(s, r), ReadRun(s, lba + RoundLen(r), len - RoundLen(r));
      ReadReturnsContents(s, lba + RoundLen(r), len - RoundLen(r));
      DeliversJoin(s, lba, first, rest);
      assert ReadRun(s, lba, len) == first + rest;
    }
  }

  lemma NothingDelivered(s: Ctx, lba: nat)
    requires lba <= 8 * s.cfg.SizeOfMap
    ensures Delivers(s, lba, [])
  {
  }
}
