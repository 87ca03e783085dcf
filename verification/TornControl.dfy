// A control block that is on its way to the device when the power fails may be left broken.
// The chunk it belongs to can then still be found through the full chunk it was entered from,
// and its purges through their records; but the first chunk after formatting has no such
// predecessor.
module TornControl {
  import opened Geometry
  import opened BlockLog
  import opened Model
  import opened Invariant
  import opened DeviceKeeping
  import opened Recovery
  import opened Crash
  import opened TornPurge

  // ---- What is still on record behind the control block

  // The current chunk was entered from a full one.
  predicate Followed(s: Ctx) {
    exists p | 0 <= p < s.cfg.MaxChunks :: LeadsTo(s, p)
  }

  // The context as it would be, had the chunk not been finalised since.
  function Rewound(s: Ctx): (r: Ctx)
    requires StartOf(s.chunk) <= s.purge
  {
    s.(finalized := StartOf(s.chunk))
  }

  // The sector where a restart would look for the first record, were there no control block.
  ghost predicate FirstSlotDated(s: Ctx) {
    var at := ControlAt(1, 0);
    0 <= at < |s.disk.data| && Ours(s.cfg, s.disk.data[at]) ==> s.disk.data[at].purgeCtl.SCN > 0
  }

  // The current chunk is the only one since formatting.
  ghost predicate First(s: Ctx) {
    && (forall c | 0 <= c < s.cfg.MaxChunks && c != s.chunk :: !Accepted(s.cfg, s.disk.ctl[c]))
    && SCNow(s) > 0 && FirstSlotDated(s)
  }

  // A chunk entered from a full one has all its records; any other is the first.
  ghost predicate Traced(s: Ctx) {
    && StartOf(s.chunk) <= s.purge
    && if Followed(s) then Recorded(Rewound(s)) else First(s)
  }

  // ---- Every step keeps that

  lemma RecordedFrame(s: Ctx, t: Ctx)
    requires StartOf(s.chunk) <= s.purge && Recorded(Rewound(s))
    requires t.cfg == s.cfg && t.chunk == s.chunk && t.purge == s.purge && t.table == s.table
    requires t.disk.data == s.disk.data && SCNow(t) == SCNow(s)
    ensures Recorded(Rewound(t))
  {
    var s', t' := Rewound(s), Rewound(t);
    forall q | t'.finalized <= q < t'.purge && q % 0x200 == 0 ensures RecordAt(t', q) {
      assert RecordAt(s', q);
    }
    forall c, q | 0 <= c < t.cfg.MaxChunks && 0 <= q < LAST_PURGE_POS && q % 0x200 == 0 ensures Dated(t', c, q) {
      assert Dated(s', c, q);
    }
  }

  // Whatever is written to the chunk's own control area.
  lemma TracedFrame(s: Ctx, t: Ctx)
    requires Traced(s)
    requires t.cfg == s.cfg && t.chunk == s.chunk && t.purge == s.purge && t.table == s.table
    requires t.disk.data == s.disk.data && SCNow(t) == SCNow(s)
    requires forall c | 0 <= c < s.cfg.MaxChunks && c != s.chunk :: t.disk.ctl[c] == s.disk.ctl[c]
    ensures Traced(t) && (Followed(t) <==> Followed(s))
  {
    FollowedFrame(s, t);
    if Followed(s) {
      RecordedFrame(s, t);
    }
    hide Followed, Recorded, Rewound;
  }

  lemma FollowedFrame(s: Ctx, t: Ctx)
    requires t.cfg == s.cfg && t.chunk == s.chunk && SCNow(t) == SCNow(s)
    requires forall c | 0 <= c < s.cfg.MaxChunks && c != s.chunk :: t.disk.ctl[c] == s.disk.ctl[c]
    ensures Followed(t) <==> Followed(s)
  {
    hide Accepted;
    assert forall p | 0 <= p < s.cfg.MaxChunks :: LeadsTo(s, p) <==> LeadsTo(t, p);
  }

  lemma TracedPurge(s: Ctx)
    requires s.purge < LAST_PURGE_POS && CacheOk(s.cache, s.cfg.SizeOfMap) && Traced(s)
    ensures Traced(PurgeCache(s))
  {
    PurgeFollows(s);
    if Followed(s) {
      PurgeKeepsRecords(Rewound(s));
      RewoundPurge(s);
    } else {
      PurgeData(s, 1, 0);
    }
    hide Followed, Recorded, PurgeCache, Rewound;
  }

  lemma PurgeFollows(s: Ctx)
    requires s.purge < LAST_PURGE_POS
    ensures var t := PurgeCache(s);
            && (Followed(t) <==> Followed(s)) && t.cfg == s.cfg && t.chunk == s.chunk
            && SCNow(t) == SCNow(s) && t.disk.ctl == s.disk.ctl && s.purge <= t.purge
  {
    hide PurgeImage;
    FollowedFrame(s, PurgeCache(s));
  }

  lemma RewoundPurge(s: Ctx)
    requires s.purge < LAST_PURGE_POS && StartOf(s.chunk) <= s.purge
    ensures StartOf(PurgeCache(s).chunk) <= PurgeCache(s).purge
    ensures PurgeCache(Rewound(s)) == Rewound(PurgeCache(s))
  {
    assert PurgeImage(Rewound(s)) == PurgeImage(s);
    hide PurgeImage;
  }

  lemma TracedChunk(s: Ctx)
    requires Traced(s)
    ensures Traced(PurgeChunk(s))
  {
    hide Traced, Followed;
    TracedFrame(s, PurgeChunk(s));
  }

  lemma TracedSwitch(s: Ctx)
    requires LogOk(s) && Finalised(s) && Recorded(s) && s.purge == LAST_PURGE_POS == s.finalized
    requires s.mi.info[s.next].Used == 0
    ensures Traced(SwitchChunk(s))
  {
    SwitchEnters(s);
    SwitchKeepsRecords(s);
    var t := SwitchChunk(s);
    var p :| LeadsTo(t, p);
    assert Rewound(t) == t;
  }

  lemma TracedOtherData(s: Ctx, data: seq<Sector>)
    requires Traced(s) && SameRecords(s, data)
    ensures Traced(s.(disk := s.disk.(data := data)))
  {
    var t := s.(disk := s.disk.(data := data));
    FollowedFrame(s, t);
    if Followed(s) {
      OtherDataRecords(Rewound(s), data);
      assert Rewound(s).(disk := Rewound(s).disk.(data := data)) == Rewound(t);
    } else {
      ControlApart(s.cfg.MaxChunks, 1, 0, 1, 0);
    }
    hide Followed, Recorded, Rewound;
  }

  // ---- Recovery keeps it

  lemma ResumedRewound(w: Ctx, r: Resume)
    requires Resuming(w, r) && r.purge == w.purge && StartOf(w.chunk) <= w.purge && Recorded(Rewound(w))
    ensures Recorded(Rewound(Resumed(w.cfg, w.disk, r)))
  {
    hide IsLatest, UsedCounts, Accepted;
    var s := Resumed(w.cfg, w.disk, r);
    forall q | StartOf(s.chunk) <= q < s.purge && q % 0x200 == 0 ensures RecordAt(Rewound(s), q) {
      assert RecordAt(Rewound(w), q);
      SameRecordAt(w, Rewound(w), q);
      ResumedRecord(w, r, q);
      SameRecordAt(Rewound(s), s, q);
    }
    forall c, q | 0 <= c < s.cfg.MaxChunks && 0 <= q < LAST_PURGE_POS && q % 0x200 == 0
      ensures Dated(Rewound(s), c, q)
    {
      assert Dated(Rewound(w), c, q);
    }
  }

  lemma SameRecordAt(s: Ctx, t: Ctx, q: int)
    requires 0 <= q < s.purge && q % 0x200 == 0 && t == s.(finalized := t.finalized)
    ensures RecordAt(s, q) <==> RecordAt(t, q)
  {
  }

  lemma ResumedTraced(w: Ctx, r: Resume)
    requires Resuming(w, r) && r.purge == w.purge && Traced(w)
    ensures Traced(Resumed(w.cfg, w.disk, r))
  {
    var s := Resumed(w.cfg, w.disk, r);
    FollowedFrame(w, s);
    if Followed(w) {
      ResumedRewound(w, r);
    }
    hide Followed, Recorded, Rewound, IsLatest, UsedCounts, Accepted;
  }

  lemma RecoverTraced(w: Ctx)
    requires Durable(w) && Traced(w)
    ensures Traced(Recover(w.cfg, w.disk))
  {
    hide LogOk, Recorded, Finalised, Entered, Traced, Recover;
    if w.finalized == LAST_PURGE_POS {
      SwitchKeepsDurable(w);
      LeftTraced(w);
      var r := Resumes(SwitchChunk(w));
      ResumedTraced(SwitchChunk(w), r);
    } else {
      var r := Resumes(w);
      ResumedTraced(w, r);
    }
  }

  lemma LeftTraced(w: Ctx)
    requires Durable(w) && w.finalized == LAST_PURGE_POS
    ensures Traced(SwitchChunk(w))
  {
    hide LogOk, Recorded, Finalised, Traced;
    FullFinalised(w);
    TracedSwitch(w);
  }

  lemma FullFinalised(w: Ctx)
    requires Durable(w) && w.finalized == LAST_PURGE_POS
    ensures LogOk(w) && Finalised(w) && Recorded(w) && w.purge == LAST_PURGE_POS && w.mi.info[w.next].Used == 0
  {
  }

  // The device after a purge that was cut.
  lemma TornTraced(s: Ctx, k: nat)
    requires Inv(s) && s.reloc.done && s.purge < LAST_PURGE_POS && s.cache.pos % 8 == 0 && k <= 0x200 && Traced(s)
    ensures Traced(Recover(s.cfg, Torn(s, k).disk))
  {
    hide RelocOk, LogOk, Recorded, Finalised, Entered, Traced, Recover;
    if k <= 0x1f8 {
      TornEarly(s, k);
      EarlyRecords(s, k);
      TracedOtherData(s, Torn(s, k).disk.data);
      assert s.(disk := s.disk.(data := Torn(s, k).disk.data)) == Torn(s, k);
      RecoverTraced(Torn(s, k));
    } else {
      TornLate(s, k);
      LandedRecords(s, k);
      TracedPurge(s);
      TracedOtherData(PurgeCache(s), Torn(s, k).disk.data);
      assert PurgeCache(s).(disk := PurgeCache(s).disk.(data := Torn(s, k).disk.data)) == Landed(s, k);
      RecoverTraced(Landed(s, k));
    }
  }

  // ---- A control block left broken

  function LeftOn(s: Ctx, left: ChunkCtl): (d: Disk)
    ensures DiskFits(s.cfg, d)
  {
    s.disk.(ctl := s.disk.ctl[s.chunk := left])
  }

  lemma BrokenDurable(s: Ctx, left: ChunkCtl)
    requires Durable(s) && Traced(s) && Followed(s) && !Accepted(s.cfg, left)
    ensures Durable(Rewound(s).(disk := LeftOn(s, left)))
  {
    var t := Rewound(s).(disk := LeftOn(s, left));
    FollowedFrame(s, t);
    BrokenLog(s, left);
    RecordedFrame(s, t);
    assert Rewound(t) == t;
    BrokenEntered(t);
    hide Followed, Recorded, Rewound, LogOk, Entered;
  }

  lemma BrokenLog(s: Ctx, left: ChunkCtl)
    requires LogOk(s) && StartOf(s.chunk) <= s.purge && !Accepted(s.cfg, left)
    ensures LogOk(Rewound(s).(disk := LeftOn(s, left)))
  {
    var t := Rewound(s).(disk := LeftOn(s, left));
    hide Accepted;
    assert Segs(t) == Segs(s);
  }

  lemma BrokenEntered(t: Ctx)
    requires Followed(t) && t.finalized == StartOf(t.chunk) && !Accepted(t.cfg, t.disk.ctl[t.chunk])
    ensures Entered(t)
  {
    var p :| 0 <= p < t.cfg.MaxChunks && LeadsTo(t, p);
    hide Accepted;
  }

  // In a chunk entered from a full one, nothing that was stored is lost.
  lemma TornControlRecovers(s: Ctx, left: ChunkCtl)
    requires Durable(s) && Traced(s) && Followed(s) && !Accepted(s.cfg, left)
    ensures var r := Recover(s.cfg, LeftOn(s, left));
            && Inv(r) && Traced(r) && r.cfg == s.cfg && r.cache.pos == 0 && r.mi.Map == s.mi.Map
            && r.chunk == s.chunk && r.purge == s.purge
            && forall x: nat | x / 8 < s.cfg.SizeOfMap :: ReadSector(r, x) == StoredAt(s, x)
  {
    hide Durable, Traced, Followed, Recover, Accepted, StoredAt, ReadSector;
    BrokenParts(s, left);
    BrokenDurable(s, left);
    var t := Rewound(s).(disk := LeftOn(s, left));
    RecoveryRebuilds(t);
    RecoverTraced(t);
  }

  lemma BrokenParts(s: Ctx, left: ChunkCtl)
    requires Traced(s)
    ensures StartOf(s.chunk) <= s.purge
    ensures var t := Rewound(s).(disk := LeftOn(s, left));
            && Traced(t) && t.cfg == s.cfg && t.disk == LeftOn(s, left) && t.finalized < LAST_PURGE_POS
            && t.mi.Map == s.mi.Map && t.chunk == s.chunk && t.purge == s.purge
            && forall x: nat | x / 8 < s.cfg.SizeOfMap :: StoredAt(t, x) == StoredAt(s, x)
  {
    TracedFrame(s, Rewound(s).(disk := LeftOn(s, left)));
    hide Traced;
  }

  // In the first chunk, all of it is.

  lemma NoneAcceptedScan(cfg: Config, ctls: seq<ChunkCtl>)
    requires cfg.Valid() && |ctls| == cfg.MaxChunks && forall c | 0 <= c < |ctls| :: !Accepted(cfg, ctls[c])
    ensures var a := ScanAll(cfg, ctls);
            && a.chunk == 1 && a.ctl == BlankCtl() && a.mi.info[1].SCN == 0
            && forall b | 0 <= b < cfg.SizeOfMap :: a.mi.Map[b] == NOT_MAPPED
  {
    hide ScanAll, Accepted;
    ScanAllScanned(cfg, ctls);
    var a := ScanAll(cfg, ctls);
    assert ScannedInfo(cfg, ctls[1], 1 in AllChunks(cfg.MaxChunks), a.mi.info[1]);
    forall b | 0 <= b < cfg.SizeOfMap ensures a.mi.Map[b] == NOT_MAPPED {
      assert LatestFor(Views(cfg, ctls), a.mi.Map[b], b);
    }
  }

  lemma NoRecordMatches(cfg: Config, d: Disk, r: Resume)
    requires DiskFits(cfg, d) && ResumeFits(cfg, r) && r.chunk == 1 && r.purge == 0 && r.mi.info[1].SCN == 0
    requires var at := ControlAt(1, 0);
             0 <= at < |d.data| && Ours(cfg, d.data[at]) ==> d.data[at].purgeCtl.SCN > 0
    ensures ScanPurges(cfg, d, r) == r
  {
    ControlApart(cfg.MaxChunks, 1, 0, 1, 0);
  }

  lemma TornFirstLoses(s: Ctx, left: ChunkCtl)
    requires First(s) && !Accepted(s.cfg, left)
    ensures var r := Recover(s.cfg, LeftOn(s, left));
            r.cfg == s.cfg && forall x: nat | x / 8 < s.cfg.SizeOfMap :: ReadSector(r, x) == Zero
  {
    hide ScanAll, ScanPurges, Accepted;
    var d := LeftOn(s, left);
    NoneAcceptedScan(s.cfg, d.ctl);
    NoRecordMatches(s.cfg, d, Enter(s.cfg, ScanAll(s.cfg, d.ctl)));
  }

  // Exactly when a control block that is left broken loses nothing.
  lemma TornControlExactly(s: Ctx, left: ChunkCtl)
    requires Durable(s) && Traced(s) && !Accepted(s.cfg, left)
    ensures Recover(s.cfg, LeftOn(s, left)).cfg == s.cfg
    ensures (forall x: nat | x / 8 < s.cfg.SizeOfMap ::
               ReadSector(Recover(s.cfg, LeftOn(s, left)), x) == StoredAt(s, x))
       <==> Followed(s) || (forall x: nat | x / 8 < s.cfg.SizeOfMap :: StoredAt(s, x) == Zero)
  {
    if Followed(s) {
      TornControlRecovers(s, left);
    } else {
      TornFirstLoses(s, left);
    }
    hide Durable, Traced, Followed, Recover, Accepted, StoredAt, ReadSector;
  }
}
