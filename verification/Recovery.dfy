// DoRecovery1 (driver/recovery.c): the map rebuilt from chunk control blocks and purge
// records is the map that was in memory.
module Recovery {
  import opened Geometry
  import opened BlockLog
  import opened Model
  import opened Invariant
  import opened DeviceKeeping

  // ---- The chunk-control scan

  // The map and counters so far, and the control block with the greatest SCN.
  datatype Scan = Scan(mi: MapInfo, maxSCN: nat, chunk: nat, ctl: ChunkCtl)

  predicate ScanFits(cfg: Config, a: Scan) {
    && cfg.Valid() && |a.mi.Map| == cfg.SizeOfMap && |a.mi.info| == cfg.MaxChunks
    && InRange(a.mi.Map, cfg.MaxChunks) && a.chunk < cfg.MaxChunks
    && a.ctl.End % 0x200 == 0 && a.ctl.End <= LAST_PURGE_POS
    && (a.ctl.End == LAST_PURGE_POS ==> a.ctl.NextChunkNo < cfg.MaxChunks)
  }

  function BlankScan(cfg: Config): (a: Scan)
    requires cfg.Valid()
    ensures ScanFits(cfg, a)
  {
    Scan(MapInfo(seq(cfg.SizeOfMap, i => NOT_MAPPED), seq(cfg.MaxChunks, i => ChunkInfo(0, 0, 0))), 0, 1, BlankCtl())
  }

  function RaiseWcn(info: seq<ChunkInfo>, c: nat, wcn: nat): (r: seq<ChunkInfo>)
    requires c < |info|
    ensures |r| == |info|
  {
    if info[c].WCN < wcn then info[c := info[c].(WCN := wcn)] else info
  }

  function SetScn(info: seq<ChunkInfo>, c: nat, scn: nat): (r: seq<ChunkInfo>)
    requires c < |info|
    ensures |r| == |info|
  {
    info[c := info[c].(SCN := scn)]
  }

  // One chunk's control block.
  function ScanChunk(cfg: Config, ctl: ChunkCtl, c: nat, a: Scan): (r: Scan)
    requires ScanFits(cfg, a) && c < cfg.MaxChunks
    ensures ScanFits(cfg, r)
  {
    if !ctl.Intact || ctl.Version != LEVELING_VERSION then a
    else
      var info := RaiseWcn(a.mi.info, c, ctl.WCN);
      if !Accepted(cfg, ctl) then a.(mi := a.mi.(info := info))
      else
        var mi := UpdateMap(MapInfo(a.mi.Map, SetScn(info, c, ctl.SCN)),
                            ctl.LBA[ctl.Start / 8..ctl.End / 8], c, Plba(c, ctl.Start));
        if a.maxSCN <= ctl.SCN then Scan(mi, ctl.SCN, c, ctl) else a.(mi := mi)
  }

  // The chunks in the given order.
  function ScanChunks(cfg: Config, ctls: seq<ChunkCtl>, order: seq<nat>, a: Scan): (r: Scan)
    requires ScanFits(cfg, a) && |ctls| == cfg.MaxChunks && forall i | 0 <= i < |order| :: order[i] < cfg.MaxChunks
    ensures ScanFits(cfg, r)
    decreases |order|
  {
    if order == [] then a
    else ScanChunks(cfg, ctls, order[1..], ScanChunk(cfg, ctls[order[0]], order[0], a))
  }

  // ---- Where to resume

  datatype Resume = Resume(mi: MapInfo, chunk: nat, purge: nat, finalized: nat, table: Table)

  predicate ResumeFits(cfg: Config, r: Resume) {
    && cfg.Valid() && |r.mi.Map| == cfg.SizeOfMap && |r.mi.info| == cfg.MaxChunks
    && InRange(r.mi.Map, cfg.MaxChunks) && r.chunk < cfg.MaxChunks
    && r.purge % 0x200 == 0 && r.finalized % 0x200 == 0 && r.finalized <= r.purge <= LAST_PURGE_POS
  }

  // The chunk of the newest control block, or the one it leads to if it is full.
  function Enter(cfg: Config, a: Scan): (r: Resume)
    requires ScanFits(cfg, a)
    ensures ResumeFits(cfg, r)
  {
    if a.ctl.End == LAST_PURGE_POS then
      var next := a.ctl.NextChunkNo;
      var info := RaiseWcn(a.mi.info, next, a.ctl.NextChunkWCN);
      Resume(a.mi.(info := SetScn(info, next, info[a.chunk].SCN + 1)), next, StartOf(next), StartOf(next), a.ctl.LBA)
    else
      Resume(a.mi, a.chunk, a.ctl.End, a.ctl.End, a.ctl.LBA)
  }

  // Whether the scan of purge records goes on.
  predicate Matches(cfg: Config, sector: Sector, r: Resume)
    requires ResumeFits(cfg, r)
  {
    && Ours(cfg, sector)
    && sector.purgeCtl.SCN == r.mi.info[r.chunk].SCN
    && sector.purgeCtl.ChunkNo == r.chunk && sector.purgeCtl.PurgePos == r.purge
  }

  function Cleaned(cfg: Config, entries: Entries): (c: Entries)
    ensures forall i | 0 <= i < 0x40 ::
              c[i] == if entries[i] / 8 >= cfg.SizeOfMap then NOT_MAPPED else entries[i]
  {
    seq(0x40, i requires 0 <= i < 0x40 => if entries[i] / 8 >= cfg.SizeOfMap then NOT_MAPPED else entries[i])
  }

  function Replay(cfg: Config, rec: PurgeCtl, r: Resume): (r': Resume)
    requires ResumeFits(cfg, r) && r.purge < LAST_PURGE_POS
    ensures ResumeFits(cfg, r')
  {
    Resume(UpdateMap(r.mi, rec.LBA, r.chunk, Plba(r.chunk, r.purge)), r.chunk, r.purge + 0x200, r.finalized,
           Splice(r.table, r.purge / 8, Cleaned(cfg, rec.LBA)))
  }

  function ScanPurges(cfg: Config, d: Disk, r: Resume): (r': Resume)
    requires DiskFits(cfg, d) && ResumeFits(cfg, r)
    ensures ResumeFits(cfg, r')
    decreases LAST_PURGE_POS - r.purge
  {
    if r.purge >= LAST_PURGE_POS then r
    else
      ControlApart(cfg.MaxChunks, r.chunk, r.purge, r.chunk, r.purge);
      var sector := d.data[ControlAt(r.chunk, r.purge)];
      if Matches(cfg, sector, r) then ScanPurges(cfg, d, Replay(cfg, sector.purgeCtl, r)) else r
  }

  // The context recovery hands to the driver.
  function Resumed(cfg: Config, d: Disk, r: Resume): Ctx
    requires DiskFits(cfg, d) && ResumeFits(cfg, r)
  {
    State(cfg, r.mi, r.chunk, FindNextChunk(cfg, r.mi.info, r.chunk, r.purge), r.table, r.finalized, r.purge,
          EmptyCache(), IdleReloc(), false, d)
  }

  function ScanAll(cfg: Config, ctls: seq<ChunkCtl>): (r: Scan)
    requires cfg.Valid() && |ctls| == cfg.MaxChunks
    ensures ScanFits(cfg, r)
  {
    ScanChunks(cfg, ctls, Run(0, cfg.MaxChunks), BlankScan(cfg))
  }

  function Recover(cfg: Config, d: Disk): Ctx
    requires cfg.Valid() && DiskFits(cfg, d)
  {
    var r := ScanPurges(cfg, d, Enter(cfg, ScanAll(cfg, d.ctl)));
    Resumed(cfg, d, r)
  }

  // ---- The scan does not depend on the order of chunks

  ghost predicate DistinctCtls(cfg: Config, ctls: seq<ChunkCtl>) {
    forall c, d | 0 <= c < d < |ctls| && Accepted(cfg, ctls[c]) && Accepted(cfg, ctls[d]) :: ctls[c].SCN != ctls[d].SCN
  }

  // The log restricted to the chunks visited so far.
  ghost function Visible(cfg: Config, ctls: seq<ChunkCtl>, visited: set<nat>): (r: seq<Segment>)
    ensures |r| == |ctls|
    ensures forall c | 0 <= c < |r| ::
              r[c] == if c in visited then View(cfg, ctls[c]) else Segment(0, 0, 0, ctls[c].LBA)
  {
    seq(|ctls|, c requires 0 <= c < |ctls| =>
          if c in visited then View(cfg, ctls[c]) else Segment(0, 0, 0, ctls[c].LBA))
  }

  ghost predicate ScannedInfo(cfg: Config, ctl: ChunkCtl, visited: bool, info: ChunkInfo) {
    && info.SCN == (if visited && Accepted(cfg, ctl) then ctl.SCN else 0)
    && info.WCN == (if visited && ctl.Intact && ctl.Version == LEVELING_VERSION then ctl.WCN else 0)
  }

  ghost predicate InfoScanned(cfg: Config, ctls: seq<ChunkCtl>, visited: set<nat>, info: seq<ChunkInfo>) {
    |info| == |ctls| && forall c | 0 <= c < |ctls| :: ScannedInfo(cfg, ctls[c], c in visited, info[c])
  }

  ghost predicate NoneAccepted(cfg: Config, ctls: seq<ChunkCtl>, visited: set<nat>) {
    forall c | 0 <= c < |ctls| && c in visited :: !Accepted(cfg, ctls[c])
  }

  ghost predicate Chosen(cfg: Config, ctls: seq<ChunkCtl>, visited: set<nat>, a: Scan) {
    if NoneAccepted(cfg, ctls, visited) then
      a.chunk == 1 && a.ctl == BlankCtl() && a.maxSCN == 0
    else
      && a.chunk in visited && a.chunk < |ctls| && Accepted(cfg, ctls[a.chunk])
      && a.ctl == ctls[a.chunk] && a.maxSCN == a.ctl.SCN
      && forall c | 0 <= c < |ctls| && c in visited && Accepted(cfg, ctls[c]) :: ctls[c].SCN <= a.maxSCN
  }

  // What the scan knows after visiting a set of chunks: the newest entry of every block.
  ghost predicate Scanned(cfg: Config, ctls: seq<ChunkCtl>, visited: set<nat>, a: Scan)
    requires |ctls| == cfg.MaxChunks && ScanFits(cfg, a)
  {
    && IsLatest(Visible(cfg, ctls, visited), a.mi.Map)
    && UsedCounts(a.mi)
    && InfoScanned(cfg, ctls, visited, a.mi.info)
    && Chosen(cfg, ctls, visited, a)
  }

  // Being scanned determines the result.
  lemma ScannedIsUnique(cfg: Config, ctls: seq<ChunkCtl>, visited: set<nat>, a: Scan, b: Scan)
    requires |ctls| == cfg.MaxChunks && ScanFits(cfg, a) && ScanFits(cfg, b) && DistinctCtls(cfg, ctls)
    requires Scanned(cfg, ctls, visited, a) && Scanned(cfg, ctls, visited, b)
    ensures a == b
  {
    assert a.mi.Map == b.mi.Map by {
      LatestIsUnique(Visible(cfg, ctls, visited), a.mi.Map, b.mi.Map);
    }
    InfoIsUnique(cfg, ctls, visited, a.mi, b.mi);
    hide IsLatest, UsedCounts, InfoScanned, Visible, Accepted;
    ChosenIsUnique(cfg, ctls, visited, a, b);
  }

  lemma InfoIsUnique(cfg: Config, ctls: seq<ChunkCtl>, visited: set<nat>, m: MapInfo, n: MapInfo)
    requires InfoScanned(cfg, ctls, visited, m.info) && InfoScanned(cfg, ctls, visited, n.info)
    requires m.Map == n.Map && UsedCounts(m) && UsedCounts(n)
    ensures m.info == n.info
  {
    hide Accepted;
    forall c | 0 <= c < |ctls| ensures m.info[c] == n.info[c] {
      assert ScannedInfo(cfg, ctls[c], c in visited, m.info[c]);
      assert ScannedInfo(cfg, ctls[c], c in visited, n.info[c]);
    }
  }

  lemma ChosenIsUnique(cfg: Config, ctls: seq<ChunkCtl>, visited: set<nat>, a: Scan, b: Scan)
    requires Chosen(cfg, ctls, visited, a) && Chosen(cfg, ctls, visited, b) && DistinctCtls(cfg, ctls)
    ensures a.chunk == b.chunk && a.ctl == b.ctl && a.maxSCN == b.maxSCN
  {
    hide Accepted;
    if !NoneAccepted(cfg, ctls, visited) {
      assert ctls[a.chunk].SCN == ctls[b.chunk].SCN;
    }
  }

  lemma BlankScanned(cfg: Config, ctls: seq<ChunkCtl>)
    requires cfg.Valid() && |ctls| == cfg.MaxChunks
    ensures Scanned(cfg, ctls, {}, BlankScan(cfg))
  {
    var a := BlankScan(cfg);
    forall b | 0 <= b < cfg.SizeOfMap ensures LatestFor(Visible(cfg, ctls, {}), a.mi.Map[b], b) {
    }
    forall c | 0 <= c < cfg.MaxChunks ensures a.mi.info[c].Used == CountIn(a.mi.Map, c) {
      CountZero(a.mi.Map, c);
    }
  }

  lemma InfoStep(cfg: Config, ctls: seq<ChunkCtl>, visited: set<nat>, c: nat,
                 info: seq<ChunkInfo>, info': seq<ChunkInfo>)
    requires InfoScanned(cfg, ctls, visited, info) && |info'| == |info| && c < |ctls|
    requires forall i | 0 <= i < |info| && i != c :: info'[i].SCN == info[i].SCN && info'[i].WCN == info[i].WCN
    requires ScannedInfo(cfg, ctls[c], true, info'[c])
    ensures InfoScanned(cfg, ctls, visited + {c}, info')
  {
    forall i | 0 <= i < |ctls| ensures ScannedInfo(cfg, ctls[i], i in visited + {c}, info'[i]) {
      assert ScannedInfo(cfg, ctls[i], i in visited, info[i]);
    }
  }

  // A visited chunk without an accepted control block adds nothing to the log.
  lemma RejectedScanned(cfg: Config, ctls: seq<ChunkCtl>, visited: set<nat>, c: nat, a: Scan)
    requires |ctls| == cfg.MaxChunks && ScanFits(cfg, a) && c < cfg.MaxChunks && c !in visited
    requires Scanned(cfg, ctls, visited, a) && !Accepted(cfg, ctls[c])
    ensures Scanned(cfg, ctls, visited + {c}, ScanChunk(cfg, ctls[c], c, a))
  {
    hide Visible, Chosen, IsLatest, Accepted, ScanChunk, ScannedInfo;
    var r := ScanChunk(cfg, ctls[c], c, a);
    assert ScannedInfo(cfg, ctls[c], false, a.mi.info[c]);
    RejectedInvisible(cfg, ctls, visited, c);
    RejectedInfo(cfg, ctls[c], c, a);
    InfoStep(cfg, ctls, visited, c, a.mi.info, r.mi.info);
    RejectedChosen(cfg, ctls, visited, c, a, r);
  }

  lemma RejectedInfo(cfg: Config, ctl: ChunkCtl, c: nat, a: Scan)
    requires ScanFits(cfg, a) && c < cfg.MaxChunks && !Accepted(cfg, ctl)
    requires ScannedInfo(cfg, ctl, false, a.mi.info[c])
    ensures var r := ScanChunk(cfg, ctl, c, a);
            && r == a.(mi := r.mi) && r.mi.Map == a.mi.Map && |r.mi.info| == |a.mi.info|
            && ScannedInfo(cfg, ctl, true, r.mi.info[c])
            && forall i | 0 <= i < |a.mi.info| ::
                 && r.mi.info[i].Used == a.mi.info[i].Used
                 && (i != c ==> r.mi.info[i].SCN == a.mi.info[i].SCN && r.mi.info[i].WCN == a.mi.info[i].WCN)
  {
    hide Accepted, InRange;
  }

  lemma RejectedInvisible(cfg: Config, ctls: seq<ChunkCtl>, visited: set<nat>, c: nat)
    requires c < |ctls| && c !in visited && !Accepted(cfg, ctls[c])
    ensures Visible(cfg, ctls, visited + {c}) == Visible(cfg, ctls, visited)
  {
    assert View(cfg, ctls[c]) == Segment(0, 0, 0, ctls[c].LBA);
    hide View;
  }

  lemma RejectedChosen(cfg: Config, ctls: seq<ChunkCtl>, visited: set<nat>, c: nat, a: Scan, r: Scan)
    requires c < |ctls| && !Accepted(cfg, ctls[c]) && Chosen(cfg, ctls, visited, a)
    requires r == a.(mi := r.mi)
    ensures Chosen(cfg, ctls, visited + {c}, r)
  {
    if !NoneAccepted(cfg, ctls, visited) {
      var d :| 0 <= d < |ctls| && d in visited && Accepted(cfg, ctls[d]);
      assert d in visited + {c};
    }
  }

  // The counters and the map when the entries of chunk c's control block are applied.
  function Applied(cfg: Config, ctl: ChunkCtl, c: nat, a: Scan): (r: MapInfo)
    requires ScanFits(cfg, a) && c < cfg.MaxChunks && Accepted(cfg, ctl)
  {
    UpdateMap(MapInfo(a.mi.Map, SetScn(RaiseWcn(a.mi.info, c, ctl.WCN), c, ctl.SCN)),
              ctl.LBA[ctl.Start / 8..ctl.End / 8], c, Plba(c, ctl.Start))
  }

  // An empty segment may be restamped.
  lemma LatestRestamp(segs: seq<Segment>, m: seq<nat>, c: nat, g: Segment)
    requires c < |segs| && IsLatest(segs, m) && segs[c].lo >= segs[c].hi && g.lo >= g.hi
    ensures IsLatest(segs[c := g], m)
  {
    forall b | 0 <= b < |m| && m[b] != NOT_MAPPED ensures ChunkOf(m[b]) != c {
      assert LatestFor(segs, m[b], b);
    }
    LatestDrop(segs, m, c, g);
  }

  // The log just before the entries of chunk c are applied.
  ghost function Started(cfg: Config, ctls: seq<ChunkCtl>, visited: set<nat>, c: nat): (r: seq<Segment>)
    requires c < |ctls|
    ensures |r| == |ctls|
  {
    var ctl := ctls[c];
    Visible(cfg, ctls, visited)[c := Segment(ctl.SCN, ctl.Start / 8, ctl.Start / 8, ctl.LBA)]
  }

  lemma StartedExtends(cfg: Config, ctls: seq<ChunkCtl>, visited: set<nat>, c: nat)
    requires c < |ctls| <= 500 && Accepted(cfg, ctls[c]) && c !in visited && DistinctCtls(cfg, ctls)
    ensures WellFormed(Started(cfg, ctls, visited, c)) && Distinct(Started(cfg, ctls, visited, c), c)
    ensures Extend(Started(cfg, ctls, visited, c), c, ctls[c].End / 8 - ctls[c].Start / 8)
         == Visible(cfg, ctls, visited + {c})
  {
    hide Visible, WellFormed, Distinct, DistinctCtls;
    StartedFits(cfg, ctls, visited, c);
    StartedDistinct(cfg, ctls, visited, c);
    StartedRest(cfg, ctls, visited, c);
  }

  lemma StartedRest(cfg: Config, ctls: seq<ChunkCtl>, visited: set<nat>, c: nat)
    requires c < |ctls| && Accepted(cfg, ctls[c])
    ensures Extend(Started(cfg, ctls, visited, c), c, ctls[c].End / 8 - ctls[c].Start / 8)
         == Visible(cfg, ctls, visited + {c})
  {
    hide Visible, Extend;
    var ctl := ctls[c];
    var segs, more := Visible(cfg, ctls, visited), Visible(cfg, ctls, visited + {c});
    ViewIs(cfg, ctl);
    hide Accepted, View;
    assert more[c] == View(cfg, ctl);
    forall i | 0 <= i < |ctls| && i != c ensures more[i] == segs[i] {
    }
    ExtendedFrom(segs, more, c);
  }

  lemma ViewIs(cfg: Config, ctl: ChunkCtl)
    requires Accepted(cfg, ctl)
    ensures View(cfg, ctl) == Segment(ctl.SCN, ctl.Start / 8, ctl.End / 8, ctl.LBA) && ctl.Start / 8 <= ctl.End / 8
  {
  }

  // The segment at c grows from its empty start.
  lemma ExtendedFrom(segs: seq<Segment>, more: seq<Segment>, c: nat)
    requires c < |segs| == |more| && more[c].lo <= more[c].hi
    requires forall i | 0 <= i < |segs| && i != c :: more[i] == segs[i]
    ensures Extend(segs[c := more[c].(hi := more[c].lo)], c, more[c].hi - more[c].lo) == more
  {
  }

  lemma StartedFits(cfg: Config, ctls: seq<ChunkCtl>, visited: set<nat>, c: nat)
    requires c < |ctls| <= 500 && Accepted(cfg, ctls[c])
    ensures WellFormed(Started(cfg, ctls, visited, c))
  {
  }

  lemma StartedDistinct(cfg: Config, ctls: seq<ChunkCtl>, visited: set<nat>, c: nat)
    requires c < |ctls| && Accepted(cfg, ctls[c]) && DistinctCtls(cfg, ctls)
    ensures Distinct(Started(cfg, ctls, visited, c), c)
  {
  }

  lemma StartedAgrees(cfg: Config, ctls: seq<ChunkCtl>, visited: set<nat>, c: nat, info: seq<ChunkInfo>)
    requires c < |ctls| && Accepted(cfg, ctls[c]) && c !in visited && InfoScanned(cfg, ctls, visited, info)
    ensures ScnsAgree(Started(cfg, ctls, visited, c), SetScn(RaiseWcn(info, c, ctls[c].WCN), c, ctls[c].SCN), c)
  {
    assert forall i | 0 <= i < |ctls| :: ScannedInfo(cfg, ctls[i], i in visited, info[i]);
  }

  lemma AppliedLatest(cfg: Config, ctls: seq<ChunkCtl>, visited: set<nat>, c: nat, a: Scan)
    requires |ctls| == cfg.MaxChunks && ScanFits(cfg, a) && c < cfg.MaxChunks && c !in visited
    requires DistinctCtls(cfg, ctls) && Scanned(cfg, ctls, visited, a) && Accepted(cfg, ctls[c])
    ensures IsLatest(Visible(cfg, ctls, visited + {c}), Applied(cfg, ctls[c], c, a).Map)
  {
    hide Visible, IsLatest, UsedCounts, InfoScanned, DistinctCtls, ScnsAgree, Distinct, WellFormed, Extend, UpdateMap;
    hide Chosen, Accepted, SetScn, RaiseWcn, InRange;
    var ctl := ctls[c];
    StartedLatest(cfg, ctls, visited, c, a);
    StartedExtends(cfg, ctls, visited, c);
    StartedAgrees(cfg, ctls, visited, c, a.mi.info);
    AppliedIs(cfg, ctl, c, a);
    LatestUpdateMap(Started(cfg, ctls, visited, c),
                    MapInfo(a.mi.Map, SetScn(RaiseWcn(a.mi.info, c, ctl.WCN), c, ctl.SCN)), c,
                    ctl.End / 8 - ctl.Start / 8);
  }

  lemma StartedLatest(cfg: Config, ctls: seq<ChunkCtl>, visited: set<nat>, c: nat, a: Scan)
    requires c < |ctls| && c !in visited && IsLatest(Visible(cfg, ctls, visited), a.mi.Map)
    ensures IsLatest(Started(cfg, ctls, visited, c), a.mi.Map)
    ensures Started(cfg, ctls, visited, c)[c]
         == Segment(ctls[c].SCN, ctls[c].Start / 8, ctls[c].Start / 8, ctls[c].LBA)
  {
    hide Visible, IsLatest;
    LatestRestamp(Visible(cfg, ctls, visited), a.mi.Map, c,
                  Segment(ctls[c].SCN, ctls[c].Start / 8, ctls[c].Start / 8, ctls[c].LBA));
  }

  lemma AppliedIs(cfg: Config, ctl: ChunkCtl, c: nat, a: Scan)
    requires ScanFits(cfg, a) && c < cfg.MaxChunks && Accepted(cfg, ctl)
    ensures ctl.Start / 8 <= ctl.End / 8 <= |ctl.LBA| && 8 * (ctl.Start / 8) == ctl.Start
    ensures InRange(a.mi.Map, |SetScn(RaiseWcn(a.mi.info, c, ctl.WCN), c, ctl.SCN)|)
    ensures ctl.Start / 8 + (ctl.End / 8 - ctl.Start / 8) == ctl.End / 8
  {
    hide InRange;
  }

  lemma AppliedCounts(cfg: Config, ctl: ChunkCtl, c: nat, a: Scan)
    requires ScanFits(cfg, a) && c < cfg.MaxChunks && Accepted(cfg, ctl) && UsedCounts(a.mi)
    ensures UsedCounts(Applied(cfg, ctl, c, a))
  {
    var mi := MapInfo(a.mi.Map, SetScn(RaiseWcn(a.mi.info, c, ctl.WCN), c, ctl.SCN));
    assert forall i | 0 <= i < cfg.MaxChunks :: mi.info[i].Used == a.mi.info[i].Used;
    UpdateMapCounts(mi, ctl.LBA[ctl.Start / 8..ctl.End / 8], c, Plba(c, ctl.Start));
  }

  lemma AcceptedScanned(cfg: Config, ctls: seq<ChunkCtl>, visited: set<nat>, c: nat, a: Scan)
    requires |ctls| == cfg.MaxChunks && ScanFits(cfg, a) && c < cfg.MaxChunks && c !in visited
    requires DistinctCtls(cfg, ctls) && Scanned(cfg, ctls, visited, a) && Accepted(cfg, ctls[c])
    ensures Scanned(cfg, ctls, visited + {c}, ScanChunk(cfg, ctls[c], c, a))
  {
    var r := ScanChunk(cfg, ctls[c], c, a);
    AppliedLatest(cfg, ctls, visited, c, a);
    AppliedCounts(cfg, ctls[c], c, a);
    assert r.mi == Applied(cfg, ctls[c], c, a);
    assert ScannedInfo(cfg, ctls[c], false, a.mi.info[c]);
    InfoStep(cfg, ctls, visited, c, a.mi.info, r.mi.info);
    AcceptedChosen(cfg, ctls, visited, c, a, r);
  }

  lemma AcceptedChosen(cfg: Config, ctls: seq<ChunkCtl>, visited: set<nat>, c: nat, a: Scan, r: Scan)
    requires c < |ctls| && Accepted(cfg, ctls[c]) && Chosen(cfg, ctls, visited, a)
    requires if a.maxSCN <= ctls[c].SCN then r == Scan(r.mi, ctls[c].SCN, c, ctls[c]) else r == a.(mi := r.mi)
    ensures Chosen(cfg, ctls, visited + {c}, r)
  {
    assert !NoneAccepted(cfg, ctls, visited + {c});
    if NoneAccepted(cfg, ctls, visited) {
      assert r.chunk == c;
    }
  }

  ghost function Members(order: seq<nat>): set<nat> {
    if order == [] then {} else {order[0]} + Members(order[1..])
  }

  ghost function AllChunks(n: nat): (r: set<nat>)
    ensures forall c: nat :: c in r <==> c < n
  {
    if n == 0 then {} else AllChunks(n - 1) + {n - 1}
  }

  lemma {:induction false} MembersIff(order: seq<nat>, c: nat)
    ensures c in Members(order) <==> c in order
  {
    if order != [] {
      MembersIff(order[1..], c);
      assert c in order <==> c == order[0] || c in order[1..];
    }
  }

  ghost predicate Unvisited(cfg: Config, order: seq<nat>, visited: set<nat>) {
    && (forall i | 0 <= i < |order| :: order[i] < cfg.MaxChunks && order[i] !in visited)
    && (forall i, k | 0 <= i < k < |order| :: order[i] != order[k])
  }

  // One step of the scan, whatever the control block holds.
  lemma ChunkScanned(cfg: Config, ctls: seq<ChunkCtl>, visited: set<nat>, c: nat, a: Scan)
    requires |ctls| == cfg.MaxChunks && ScanFits(cfg, a) && c < cfg.MaxChunks && c !in visited
    requires DistinctCtls(cfg, ctls) && Scanned(cfg, ctls, visited, a)
    ensures Scanned(cfg, ctls, visited + {c}, ScanChunk(cfg, ctls[c], c, a))
  {
    if Accepted(cfg, ctls[c]) {
      AcceptedScanned(cfg, ctls, visited, c, a);
    } else {
      RejectedScanned(cfg, ctls, visited, c, a);
    }
  }

  // Visiting the chunks of order, in that order, from any point of the scan.
  lemma {:induction false} ScanChunksScanned(cfg: Config, ctls: seq<ChunkCtl>, order: seq<nat>,
                                              visited: set<nat>, a: Scan)
    requires |ctls| == cfg.MaxChunks && ScanFits(cfg, a) && DistinctCtls(cfg, ctls)
    requires Unvisited(cfg, order, visited) && Scanned(cfg, ctls, visited, a)
    ensures Scanned(cfg, ctls, visited + Members(order), ScanChunks(cfg, ctls, order, a))
    decreases |order|
  {
    hide Scanned, DistinctCtls, ScanFits;
    if order == [] {
      assert visited + Members(order) == visited;
    } else {
      var c, rest := order[0], order[1..];
      ChunkScanned(cfg, ctls, visited, c, a);
      assert Unvisited(cfg, rest, visited + {c});
      ScanChunksScanned(cfg, ctls, rest, visited + {c}, ScanChunk(cfg, ctls[c], c, a));
      assert visited + {c} + Members(rest) == visited + Members(order);
    }
  }

  ghost predicate IsOrder(cfg: Config, order: seq<nat>) {
    Unvisited(cfg, order, {}) && Members(order) == AllChunks(cfg.MaxChunks)
  }

  // A scan over all chunks, in any order, leaves every block at its newest entry.
  lemma AnyOrderScanned(cfg: Config, ctls: seq<ChunkCtl>, order: seq<nat>)
    requires cfg.Valid() && |ctls| == cfg.MaxChunks && DistinctCtls(cfg, ctls) && IsOrder(cfg, order)
    ensures Scanned(cfg, ctls, AllChunks(cfg.MaxChunks), ScanChunks(cfg, ctls, order, BlankScan(cfg)))
    ensures IsLatest(Views(cfg, ctls), ScanChunks(cfg, ctls, order, BlankScan(cfg)).mi.Map)
  {
    hide DistinctCtls, ScanFits, BlankScan, ScanChunks, IsLatest, UsedCounts, InfoScanned, Chosen, Visible, View;
    var all := AllChunks(cfg.MaxChunks);
    BlankScanned(cfg, ctls);
    ScanChunksScanned(cfg, ctls, order, {}, BlankScan(cfg));
    assert {} + all == all;
    assert Visible(cfg, ctls, all) == Views(cfg, ctls);
  }

  // The scan comes to the same result whatever order the chunks are visited in.
  lemma OrderIndependence(cfg: Config, ctls: seq<ChunkCtl>, order: seq<nat>, other: seq<nat>)
    requires cfg.Valid() && |ctls| == cfg.MaxChunks && DistinctCtls(cfg, ctls)
    requires IsOrder(cfg, order) && IsOrder(cfg, other)
    ensures ScanChunks(cfg, ctls, order, BlankScan(cfg)) == ScanChunks(cfg, ctls, other, BlankScan(cfg))
  {
    hide Scanned, DistinctCtls;
    AnyOrderScanned(cfg, ctls, order);
    AnyOrderScanned(cfg, ctls, other);
    ScannedIsUnique(cfg, ctls, AllChunks(cfg.MaxChunks),
                    ScanChunks(cfg, ctls, order, BlankScan(cfg)), ScanChunks(cfg, ctls, other, BlankScan(cfg)));
  }

  lemma RunIsOrder(cfg: Config)
    ensures IsOrder(cfg, Run(0, cfg.MaxChunks))
  {
    var order := Run(0, cfg.MaxChunks);
    forall c: nat ensures c in Members(order) <==> c in AllChunks(cfg.MaxChunks) {
      MembersIff(order, c);
      if c < cfg.MaxChunks {
        assert order[c] == c;
      }
    }
  }

  // The scan as the driver does it, in ascending order.
  lemma ScanAllScanned(cfg: Config, ctls: seq<ChunkCtl>)
    requires cfg.Valid() && |ctls| == cfg.MaxChunks && DistinctCtls(cfg, ctls)
    ensures Scanned(cfg, ctls, AllChunks(cfg.MaxChunks), ScanAll(cfg, ctls))
    ensures IsLatest(Views(cfg, ctls), ScanAll(cfg, ctls).mi.Map)
  {
    hide Scanned, IsLatest, DistinctCtls;
    RunIsOrder(cfg);
    AnyOrderScanned(cfg, ctls, Run(0, cfg.MaxChunks));
  }
}
