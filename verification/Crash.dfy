// Crash refinement: from the device alone, recovery rebuilds the block map as of the last
// purge whose control sector was written, and a context that satisfies the invariant.
module Crash {
  import opened Geometry
  import opened BlockLog
  import opened Model
  import opened Invariant
  import opened LogKeeping
  import opened DeviceKeeping
  import opened Capacity
  import opened Recovery

  // The log as it was when the current chunk was written up to q.
  ghost function SegsUpTo(w: Ctx, q: nat): (r: seq<Segment>)
    ensures |r| == w.cfg.MaxChunks && r[w.chunk] == Current(w).(hi := q / 8)
  {
    Segs(w)[w.chunk := Current(w).(hi := q / 8)]
  }

  // Recovery has come to purge slot r.purge of context w.
  ghost predicate Resuming(w: Ctx, r: Resume) {
    && ResumeFits(w.cfg, r) && r.chunk == w.chunk && r.finalized == w.finalized
    && w.finalized <= r.purge <= w.purge
    && r.mi.info[w.chunk].SCN == SCNow(w)
    && (forall c | 0 <= c < w.cfg.MaxChunks && c != w.chunk && Accepted(w.cfg, w.disk.ctl[c]) ::
          r.mi.info[c].SCN == w.disk.ctl[c].SCN)
    && (forall k | StartSlot(w.chunk) <= k < r.purge / 8 :: r.table[k] == w.table[k])
    && IsLatest(SegsUpTo(w, r.purge), r.mi.Map)
    && UsedCounts(r.mi)
  }

  // ---- The chunk to resume in

  lemma NewestIsChosen(cfg: Config, ctls: seq<ChunkCtl>, a: Scan, c: nat)
    requires |ctls| == cfg.MaxChunks && c < cfg.MaxChunks && Chosen(cfg, ctls, AllChunks(cfg.MaxChunks), a)
    requires Accepted(cfg, ctls[c])
    requires forall d | 0 <= d < |ctls| && d != c && Accepted(cfg, ctls[d]) :: ctls[d].SCN < ctls[c].SCN
    ensures a.chunk == c && a.ctl == ctls[c]
  {
    assert c in AllChunks(cfg.MaxChunks);
  }

  lemma ScanOf(w: Ctx)
    requires LogOk(w)
    ensures var a := ScanAll(w.cfg, w.disk.ctl);
            && Scanned(w.cfg, w.disk.ctl, AllChunks(w.cfg.MaxChunks), a)
            && IsLatest(Views(w.cfg, w.disk.ctl), a.mi.Map)
  {
    hide Scanned, IsLatest, ScanAll, SegmentOk, UsedCounts;
    ScanAllScanned(w.cfg, w.disk.ctl);
  }

  lemma FinalisedLatest(w: Ctx, m: seq<nat>)
    requires Finalised(w) && |m| == w.cfg.SizeOfMap && IsLatest(Views(w.cfg, w.disk.ctl), m)
    ensures IsLatest(SegsUpTo(w, w.finalized), m)
  {
    LatestFrame(Views(w.cfg, w.disk.ctl), SegsUpTo(w, w.finalized), m);
  }

  lemma EnterStays(w: Ctx, a: Scan)
    requires Finalised(w) && w.finalized < LAST_PURGE_POS
    requires ScanFits(w.cfg, a) && a.chunk == w.chunk && a.ctl == w.disk.ctl[w.chunk]
    requires InfoScanned(w.cfg, w.disk.ctl, AllChunks(w.cfg.MaxChunks), a.mi.info)
    ensures var r := Enter(w.cfg, a);
            && r == Resume(a.mi, w.chunk, w.finalized, w.finalized, a.ctl.LBA)
            && r.mi.info[w.chunk].SCN == SCNow(w)
            && (forall c | 0 <= c < w.cfg.MaxChunks && c != w.chunk && Accepted(w.cfg, w.disk.ctl[c]) ::
                  r.mi.info[c].SCN == w.disk.ctl[c].SCN)
            && (forall k | StartSlot(w.chunk) <= k < r.purge / 8 :: r.table[k] == w.table[k])
  {
    assert forall c | 0 <= c < w.cfg.MaxChunks ::
        ScannedInfo(w.cfg, w.disk.ctl[c], c in AllChunks(w.cfg.MaxChunks), a.mi.info[c]);
  }

  lemma FinalisedIsNewest(w: Ctx)
    requires Sequenced(w) && Finalised(w)
    ensures forall d | 0 <= d < w.cfg.MaxChunks && d != w.chunk && Accepted(w.cfg, w.disk.ctl[d]) ::
              w.disk.ctl[d].SCN < w.disk.ctl[w.chunk].SCN
  {
  }

  // A chunk finalised before it was full is resumed behind its control block.
  lemma EnterFinalised(w: Ctx)
    requires LogOk(w) && Finalised(w) && w.finalized < LAST_PURGE_POS
    ensures Resuming(w, Enter(w.cfg, ScanAll(w.cfg, w.disk.ctl)))
  {
    hide ScanAll, Enter, IsLatest, InfoScanned, SegmentOk, Segs, Views, UsedCounts, Chosen, Accepted;
    var a := ScanAll(w.cfg, w.disk.ctl);
    ScanOf(w);
    FinalisedIsNewest(w);
    NewestIsChosen(w.cfg, w.disk.ctl, a, w.chunk);
    EnterStays(w, a);
    FinalisedLatest(w, a.mi.Map);
  }

  // Nothing the scan found points into a chunk whose old control block is superseded.
  lemma SupersededIsUnmapped(w: Ctx, m: seq<nat>)
    requires Entered(w) && |m| == w.cfg.SizeOfMap && IsLatest(Views(w.cfg, w.disk.ctl), m)
    ensures forall b | 0 <= b < |m| && m[b] != NOT_MAPPED :: ChunkOf(m[b]) != w.chunk
  {
    forall b | 0 <= b < |m| && m[b] != NOT_MAPPED ensures ChunkOf(m[b]) != w.chunk {
      var views := Views(w.cfg, w.disk.ctl);
      assert LatestFor(views, m[b], b);
      assert Names(views[w.chunk], SlotOf(m[b]), b) ==> Superseded(views, w.chunk, b);
    }
  }

  lemma EnteredLatest(w: Ctx, m: seq<nat>)
    requires Entered(w) && |m| == w.cfg.SizeOfMap && IsLatest(Views(w.cfg, w.disk.ctl), m)
    ensures IsLatest(SegsUpTo(w, w.finalized), m)
  {
    SupersededIsUnmapped(w, m);
    var g := Current(w).(hi := w.finalized / 8);
    LatestDrop(Views(w.cfg, w.disk.ctl), m, w.chunk, g);
    assert Views(w.cfg, w.disk.ctl)[w.chunk := g] == SegsUpTo(w, w.finalized);
  }

  lemma PredecessorIsNewest(w: Ctx, p: nat)
    requires Sequenced(w) && Entered(w) && LeadsTo(w, p)
    ensures forall d | 0 <= d < w.cfg.MaxChunks && d != p && Accepted(w.cfg, w.disk.ctl[d]) ::
              w.disk.ctl[d].SCN < w.disk.ctl[p].SCN
  {
  }

  lemma EnterFollows(w: Ctx, a: Scan, p: nat)
    requires LeadsTo(w, p) && ScanFits(w.cfg, a) && a.chunk == p && a.ctl == w.disk.ctl[p]
    requires InfoScanned(w.cfg, w.disk.ctl, AllChunks(w.cfg.MaxChunks), a.mi.info)
    ensures var r := Enter(w.cfg, a);
            && r.chunk == w.chunk && r.purge == r.finalized == StartOf(w.chunk) && r.mi.Map == a.mi.Map
            && r.mi.info[w.chunk].SCN == SCNow(w)
            && (forall c | 0 <= c < w.cfg.MaxChunks && c != w.chunk && Accepted(w.cfg, w.disk.ctl[c]) ::
                  r.mi.info[c].SCN == w.disk.ctl[c].SCN)
            && (forall c | 0 <= c < w.cfg.MaxChunks :: r.mi.info[c].Used == a.mi.info[c].Used)
  {
    assert forall c | 0 <= c < w.cfg.MaxChunks ::
        ScannedInfo(w.cfg, w.disk.ctl[c], c in AllChunks(w.cfg.MaxChunks), a.mi.info[c]);
  }

  lemma UsedSame(m: MapInfo, n: MapInfo)
    requires UsedCounts(m) && n.Map == m.Map && |n.info| == |m.info|
    requires forall c | 0 <= c < |m.info| :: n.info[c].Used == m.info[c].Used
    ensures UsedCounts(n)
  {
  }

  // A chunk entered from a full one is found through it.
  lemma EnterEntered(w: Ctx)
    requires LogOk(w) && Entered(w)
    ensures Resuming(w, Enter(w.cfg, ScanAll(w.cfg, w.disk.ctl)))
  {
    hide ScanAll, Enter, IsLatest, InfoScanned, Accepted, SegmentOk, Segs, Views, UsedCounts, Chosen;
    var a := ScanAll(w.cfg, w.disk.ctl);
    ScanOf(w);
    var p :| LeadsTo(w, p);
    PredecessorIsNewest(w, p);
    NewestIsChosen(w.cfg, w.disk.ctl, a, p);
    EnterFollows(w, a, p);
    UsedSame(a.mi, Enter(w.cfg, a).mi);
    EnteredLatest(w, a.mi.Map);
  }

  // ---- The purge records

  lemma NextRecordMatches(w: Ctx, r: Resume)
    requires Sequenced(w) && Recorded(w) && Resuming(w, r) && r.purge < w.purge
    ensures 0 <= ControlAt(r.chunk, r.purge) < |w.disk.data|
    ensures var sector := w.disk.data[ControlAt(r.chunk, r.purge)];
            && Matches(w.cfg, sector, r)
            && (forall i | 0 <= i < 0x40 ::
                  sector.purgeCtl.LBA[i] == w.table[r.purge / 8 + i] && NamesOrNot(w.cfg, sector.purgeCtl.LBA[i]))
  {
    ControlApart(w.cfg.MaxChunks, r.chunk, r.purge, r.chunk, r.purge);
    assert RecordAt(w, r.purge);
  }

  lemma LastRecordEnds(w: Ctx, r: Resume)
    requires Recorded(w) && Resuming(w, r) && r.purge == w.purge < LAST_PURGE_POS
    ensures 0 <= ControlAt(r.chunk, r.purge) < |w.disk.data|
    ensures !Matches(w.cfg, w.disk.data[ControlAt(r.chunk, r.purge)], r)
  {
    ControlApart(w.cfg.MaxChunks, r.chunk, r.purge, r.chunk, r.purge);
    assert Dated(w, r.chunk, r.purge);
  }

  // Replaying one record brings the map to where it was behind that purge.
  lemma ReplayLatest(w: Ctx, r: Resume, rec: PurgeCtl)
    requires Sequenced(w) && Resuming(w, r) && r.purge < w.purge
    requires forall i | 0 <= i < 0x40 :: rec.LBA[i] == w.table[r.purge / 8 + i]
    ensures IsLatest(SegsUpTo(w, r.purge + 0x200), Replay(w.cfg, rec, r).mi.Map)
  {
    hide SegsUpTo, IsLatest, UsedCounts, Distinct, ScnsAgree, WellFormed, Sequenced, UpdateMap, Extend, Accepted;
    hide InRange;
    var segs, c := SegsUpTo(w, r.purge), w.chunk;
    assert 8 * (r.purge / 8) == r.purge;
    UpToWellFormed(w, r);
    EntriesAre(w.table, rec.LBA, r.purge / 8);
    LatestUpdateMap(segs, r.mi, c, 0x40);
  }

  lemma EntriesAre(table: Table, entries: Entries, hi: nat)
    requires hi + 0x40 <= 0x7fc0 && forall i | 0 <= i < 0x40 :: entries[i] == table[hi + i]
    ensures table[hi..hi + 0x40] == entries
  {
  }

  lemma UpToWellFormed(w: Ctx, r: Resume)
    requires Sequenced(w) && Resuming(w, r) && r.purge < w.purge
    ensures var segs := SegsUpTo(w, r.purge);
            && WellFormed(segs) && Distinct(segs, w.chunk) && ScnsAgree(segs, r.mi.info, w.chunk)
            && StartSlot(w.chunk) <= r.purge / 8
            && Extend(segs, w.chunk, 0x40) == SegsUpTo(w, r.purge + 0x200)
  {
    hide IsLatest, UsedCounts;
  }

  lemma ReplayKeepsTable(w: Ctx, r: Resume, rec: PurgeCtl)
    requires Resuming(w, r) && r.purge < w.purge
    requires forall i | 0 <= i < 0x40 :: rec.LBA[i] == w.table[r.purge / 8 + i] && NamesOrNot(w.cfg, rec.LBA[i])
    ensures forall k | StartSlot(w.chunk) <= k < (r.purge + 0x200) / 8 :: Replay(w.cfg, rec, r).table[k] == w.table[k]
  {
    hide UpdateMap, IsLatest, UsedCounts, Accepted;
    var hi := r.purge / 8;
    assert (r.purge + 0x200) / 8 == hi + 0x40;
    assert w.cfg.SizeOfMap <= NOT_MAPPED / 8;
    forall k | StartSlot(w.chunk) <= k < hi + 0x40 ensures Replay(w.cfg, rec, r).table[k] == w.table[k] {
      if hi <= k {
        assert rec.LBA[k - hi] == w.table[hi + (k - hi)];
        assert Cleaned(w.cfg, rec.LBA)[k - hi] == rec.LBA[k - hi];
      }
    }
  }

  lemma ReplayResumes(w: Ctx, r: Resume, rec: PurgeCtl)
    requires Sequenced(w) && Resuming(w, r) && r.purge < w.purge
    requires forall i | 0 <= i < 0x40 :: rec.LBA[i] == w.table[r.purge / 8 + i] && NamesOrNot(w.cfg, rec.LBA[i])
    ensures Resuming(w, Replay(w.cfg, rec, r))
  {
    ReplayLatest(w, r, rec);
    ReplayKeepsTable(w, r, rec);
    UpdateMapCounts(r.mi, rec.LBA, r.chunk, Plba(r.chunk, r.purge));
  }

  lemma {:induction false} ScanPurgesResumes(w: Ctx, r: Resume)
    requires Sequenced(w) && Recorded(w) && Resuming(w, r)
    ensures Resuming(w, ScanPurges(w.cfg, w.disk, r)) && ScanPurges(w.cfg, w.disk, r).purge == w.purge
    decreases w.purge - r.purge
  {
    if r.purge < w.purge {
      NextRecordMatches(w, r);
      var rec := w.disk.data[ControlAt(r.chunk, r.purge)].purgeCtl;
      ReplayResumes(w, r, rec);
      ScanPurgesResumes(w, Replay(w.cfg, rec, r));
    } else if r.purge < LAST_PURGE_POS {
      LastRecordEnds(w, r);
    }
  }

  // ---- What recovery ends with

  lemma RebuildsMap(w: Ctx, r: Resume)
    requires LogOk(w) && Resuming(w, r) && r.purge == w.purge
    ensures r.mi.Map == w.mi.Map
    ensures forall c | 0 <= c < w.cfg.MaxChunks :: r.mi.info[c].Used == w.mi.info[c].Used
  {
    assert SegsUpTo(w, w.purge) == Segs(w);
    LatestIsUnique(Segs(w), r.mi.Map, w.mi.Map);
  }

  lemma ResumedLog(w: Ctx, r: Resume)
    requires LogOk(w) && Resuming(w, r) && r.purge == w.purge
    ensures LogOk(Resumed(w.cfg, w.disk, r))
  {
    var s := Resumed(w.cfg, w.disk, r);
    RebuildsMap(w, r);
    ResumedSegs(w, r);
    LatestFrame(Segs(w), Segs(s), w.mi.Map);
  }

  lemma ResumedSegs(w: Ctx, r: Resume)
    requires Resuming(w, r) && r.purge == w.purge
    requires forall c | 0 <= c < w.cfg.MaxChunks :: SegmentOk(Segs(w)[c], w.cfg.SizeOfMap)
    ensures var s := Resumed(w.cfg, w.disk, r);
            && (forall c | 0 <= c < w.cfg.MaxChunks ::
                  SegmentOk(Segs(s)[c], w.cfg.SizeOfMap) && Segs(s)[c].scn == Segs(w)[c].scn)
            && (forall c, k, b | 0 <= c < w.cfg.MaxChunks && 0 <= b < w.cfg.SizeOfMap ::
                  Names(Segs(w)[c], k, b) <==> Names(Segs(s)[c], k, b))
  {
    hide IsLatest, UsedCounts, Accepted;
    var s := Resumed(w.cfg, w.disk, r);
    assert SegmentOk(Segs(w)[w.chunk], w.cfg.SizeOfMap);
    assert forall c | 0 <= c < w.cfg.MaxChunks && c != w.chunk :: Segs(s)[c] == Segs(w)[c];
  }

  lemma ResumedRecords(w: Ctx, r: Resume)
    requires Recorded(w) && Resuming(w, r) && r.purge == w.purge && StartOf(w.chunk) <= w.finalized
    ensures Recorded(Resumed(w.cfg, w.disk, r))
  {
    hide IsLatest, UsedCounts, Accepted;
    var s := Resumed(w.cfg, w.disk, r);
    forall q | s.finalized <= q < s.purge && q % 0x200 == 0 ensures RecordAt(s, q) {
      assert RecordAt(w, q);
      ResumedRecord(w, r, q);
    }
    forall c, q | 0 <= c < w.cfg.MaxChunks && 0 <= q < LAST_PURGE_POS && q % 0x200 == 0 ensures Dated(s, c, q) {
      assert Dated(w, c, q);
    }
  }

  lemma ResumedRecord(w: Ctx, r: Resume, q: int)
    requires Resuming(w, r) && r.purge == w.purge && StartOf(w.chunk) <= q < w.purge && q % 0x200 == 0 && RecordAt(w, q)
    ensures RecordAt(Resumed(w.cfg, w.disk, r), q)
  {
    hide IsLatest, UsedCounts, Accepted;
    assert q / 8 + 0x40 <= w.purge / 8 && StartSlot(w.chunk) <= q / 8;
    assert forall k | q / 8 <= k < q / 8 + 0x40 :: r.table[k] == w.table[k];
  }

  lemma ResumedAnchor(w: Ctx, r: Resume)
    requires Resuming(w, r) && r.purge == w.purge && w.finalized < LAST_PURGE_POS
    ensures Finalised(w) ==> Finalised(Resumed(w.cfg, w.disk, r))
    ensures Entered(w) ==> Entered(Resumed(w.cfg, w.disk, r))
  {
    hide IsLatest, UsedCounts, Accepted;
    var s := Resumed(w.cfg, w.disk, r);
    if Entered(w) {
      var p :| LeadsTo(w, p);
      assert LeadsTo(s, p);
    }
  }

  lemma ResumedDurable(w: Ctx, r: Resume)
    requires Durable(w) && w.finalized < LAST_PURGE_POS && Resuming(w, r) && r.purge == w.purge
    ensures Durable(Resumed(w.cfg, w.disk, r))
  {
    hide LogOk, Recorded, Finalised, Entered, Sequenced;
    DurableSequenced(w);
    ResumedLog(w, r);
    ResumedRecords(w, r);
    ResumedAnchor(w, r);
    RebuildsMap(w, r);
    CountsNotNegative(r.mi);
    VictimFitsAgain(w.cfg, r.mi.info, r.chunk, r.purge, w.next);
  }

  lemma CountsNotNegative(mi: MapInfo)
    requires UsedCounts(mi)
    ensures forall c | 0 <= c < |mi.info| :: 0 <= mi.info[c].Used
  {
  }

  // A context that was just recovered is ready to run.
  lemma IdleIsInv(s: Ctx)
    requires Durable(s) && s.cache.pos == 0 && !s.reloc.prepared && !s.reloc.done && !s.dirty
    ensures Inv(s)
  {
  }

  // A full chunk on record is left by recovery as it is at run time.
  lemma SwitchKeepsDurable(w: Ctx)
    requires Durable(w) && w.finalized == LAST_PURGE_POS
    ensures Durable(SwitchChunk(w)) && Entered(SwitchChunk(w))
  {
    SwitchKeepsLog(w);
    SwitchKeepsRecords(w);
    SwitchEnters(w);
    VictimFits(w.cfg, SwitchChunk(w).mi, w.next);
  }

  lemma Resumes(w: Ctx) returns (r: Resume)
    requires Durable(w) && w.finalized < LAST_PURGE_POS
    ensures Resuming(w, r) && r.purge == w.purge && Recover(w.cfg, w.disk) == Resumed(w.cfg, w.disk, r)
  {
    hide LogOk, Finalised, Entered;
    EnterAny(w);
    DurableSequenced(w);
    var r0 := Enter(w.cfg, ScanAll(w.cfg, w.disk.ctl));
    ScanPurgesResumes(w, r0);
    r := ScanPurges(w.cfg, w.disk, r0);
  }

  lemma PartialRebuilds(w: Ctx)
    requires Durable(w) && w.finalized < LAST_PURGE_POS
    ensures var s := Recover(w.cfg, w.disk);
            && Inv(s) && s.cfg == w.cfg && s.disk == w.disk && s.mi.Map == w.mi.Map && s.cache.pos == 0
            && (forall c | 0 <= c < w.cfg.MaxChunks :: s.mi.info[c].Used == w.mi.info[c].Used)
            && s.chunk == w.chunk && s.purge == w.purge && s.finalized == w.finalized && SCNow(s) == SCNow(w)
  {
    hide LogOk, Recorded, Finalised, Entered;
    DurableSequenced(w);
    var r := Resumes(w);
    RebuildsMap(w, r);
    ResumedDurable(w, r);
    IdleIsInv(Resumed(w.cfg, w.disk, r));
  }

  lemma DurableSequenced(w: Ctx)
    requires Durable(w)
    ensures Sequenced(w) && StartOf(w.chunk) <= w.finalized
  {
  }

  lemma EnterAny(w: Ctx)
    requires Durable(w) && w.finalized < LAST_PURGE_POS
    ensures Resuming(w, Enter(w.cfg, ScanAll(w.cfg, w.disk.ctl)))
  {
    if Finalised(w) {
      EnterFinalised(w);
    } else {
      EnterEntered(w);
    }
  }

  // Where the driver would be, had it gone on from w without writing.
  ghost function SettledAt(w: Ctx): Ctx {
    if w.finalized == LAST_PURGE_POS then SwitchChunk(w) else w
  }

  // Recovery rebuilds the map, the counters and the position of the context that wrote the
  // device, and hands over a context with the invariant.
  lemma RecoveryRebuilds(w: Ctx)
    requires Durable(w)
    ensures var s := Recover(w.cfg, w.disk);
            && Inv(s) && s.disk == w.disk && s.mi.Map == w.mi.Map && s.cache.pos == 0
            && (forall c | 0 <= c < w.cfg.MaxChunks :: s.mi.info[c].Used == w.mi.info[c].Used)
            && s.chunk == SettledAt(w).chunk && s.purge == SettledAt(w).purge
            && s.finalized == SettledAt(w).finalized && SCNow(s) == SCNow(SettledAt(w))
            && s.cfg == w.cfg && (forall x: nat | x / 8 < w.cfg.SizeOfMap :: ReadSector(s, x) == StoredAt(w, x))
  {
    hide LogOk, Recorded, Finalised, Entered, RelocOk, CacheOk, Recover;
    if w.finalized == LAST_PURGE_POS {
      SwitchKeepsDurable(w);
      PartialRebuilds(SwitchChunk(w));
    } else {
      PartialRebuilds(w);
    }
  }

  // The branch of recovery that finds live blocks in the chunk a full chunk leads to cannot
  // be reached.
  lemma RelocationNeverBroken(w: Ctx)
    requires Durable(w)
    ensures var a := ScanAll(w.cfg, w.disk.ctl);
            a.ctl.End == LAST_PURGE_POS ==> a.mi.info[a.ctl.NextChunkNo].Used == 0
  {
    var a := ScanAll(w.cfg, w.disk.ctl);
    ScanOf(w);
    if w.finalized == LAST_PURGE_POS {
      SwitchKeepsDurable(w);
      LeadsToEmpty(SwitchChunk(w), a);
    } else if Finalised(w) {
      FinalisedIsNewest(w);
      NewestIsChosen(w.cfg, w.disk.ctl, a, w.chunk);
    } else {
      LeadsToEmpty(w, a);
    }
  }

  lemma LeadsToEmpty(w: Ctx, a: Scan)
    requires Sequenced(w) && Entered(w) && ScanFits(w.cfg, a)
    requires Scanned(w.cfg, w.disk.ctl, AllChunks(w.cfg.MaxChunks), a) && IsLatest(Views(w.cfg, w.disk.ctl), a.mi.Map)
    ensures a.ctl.NextChunkNo == w.chunk && a.mi.info[w.chunk].Used == 0
  {
    var p :| LeadsTo(w, p);
    hide IsLatest, InfoScanned, Views;
    PredecessorIsNewest(w, p);
    NewestIsChosen(w.cfg, w.disk.ctl, a, p);
    SupersededIsUnmapped(w, a.mi.Map);
    UnmappedIsUnused(a.mi, w.chunk);
  }

  lemma UnmappedIsUnused(mi: MapInfo, c: nat)
    requires UsedCounts(mi) && c < |mi.info| <= 500
    requires forall b | 0 <= b < |mi.Map| && mi.Map[b] != NOT_MAPPED :: ChunkOf(mi.Map[b]) != c
    ensures mi.info[c].Used == 0
  {
    forall b | 0 <= b < |mi.Map| ensures !InChunk(mi.Map[b], c) {
      InChunkIff(mi.Map[b], c);
    }
    CountZero(mi.Map, c);
  }
}
