// FindNextChunk (driver/vscsi.c): which chunk is emptied next, and that the choice levels wear.
module Choice {
  import opened Geometry
  import opened BlockLog
  import opened Model

  // ---- The score

  // The wear counts up to twice: beyond that of the current chunk only once.
  function LifeOf(wcn: nat, current: nat): nat {
    wcn + if wcn < current then wcn else current
  }

  function Exact(cfg: Config, used: int, wcn: nat, current: nat): int {
    used * (1 + cfg.WeightSpeed) / 32 + LifeOf(wcn, current) * (1 + cfg.WeightLife)
  }

  // Nothing exceeds 32 bits.
  predicate ScoreFits(cfg: Config, used: int, wcn: nat, current: nat) {
    && 0 <= used && used * (1 + cfg.WeightSpeed) < 0x1_0000_0000 && Exact(cfg, used, wcn, current) < 0x1_0000_0000
    && cfg.WeightSpeed < 0xffff_ffff && cfg.WeightLife < 0xffff_ffff && 2 * wcn < 0x1_0000_0000
    && LifeOf(wcn, current) < 0x1_0000_0000
  }

  // The same arithmetic on numbers: nothing wraps.
  lemma NothingWraps(used: int, life: nat, p: nat, q: nat)
    requires 0 <= used && 0 < p < 0x1_0000_0000 && 0 < q < 0x1_0000_0000 && life < 0x1_0000_0000
    requires 0 <= used * p < 0x1_0000_0000 && 0 <= life * q && used * p / 32 + life * q < 0x1_0000_0000
    ensures U32(U32(used * U32(p)) / 32 + U32(life * U32(q))) == used * p / 32 + life * q
  {
    hide U32;
    Small(p);
    Small(q);
    Small(used * p);
    Small(life * q);
    Small(used * p / 32 + life * q);
  }

  lemma LifeIs(wcn: nat, current: nat)
    requires 2 * wcn < 0x1_0000_0000 && LifeOf(wcn, current) < 0x1_0000_0000
    ensures (if wcn < current then U32(2 * wcn) else U32(current + wcn)) == LifeOf(wcn, current)
  {
  }

  lemma Positive(a: int, b: int)
    requires 0 <= a && 0 <= b
    ensures 0 <= a * b
  {
  }

  lemma ScoreIs(cfg: Config, info: seq<ChunkInfo>, i: nat, current: nat)
    requires i < |info| && ScoreFits(cfg, info[i].Used, info[i].WCN, current)
    ensures Score(cfg, info, i, current) == Exact(cfg, info[i].Used, info[i].WCN, current)
  {
    var used, life := info[i].Used, LifeOf(info[i].WCN, current);
    hide U32, LifeOf;
    LifeIs(info[i].WCN, current);
    Positive(used, 1 + cfg.WeightSpeed);
    Positive(life, 1 + cfg.WeightLife);
    NothingWraps(used, life, 1 + cfg.WeightSpeed, 1 + cfg.WeightLife);
  }

  lemma Small(x: int)
    requires 0 <= x < 0x1_0000_0000
    ensures U32(x) == x
  {
  }

  lemma Monotone(a: int, b: int, k: int)
    requires a <= b && 0 <= k
    ensures a * k <= b * k
  {
  }

  lemma Grows(a: int, b: int, d: nat, k: int)
    requires a + d <= b && 0 <= k
    ensures a * k + d * k <= b * k
  {
    Monotone(a + d, b, k);
    assert (a + d) * k == a * k + d * k;
  }

  lemma ExactLevels(cfg: Config, used: int, used': int, wcn: nat, wcn': nat, current: nat)
    requires used <= used' && wcn <= wcn' && (wcn < wcn' || used + 32 <= used')
    ensures Exact(cfg, used, wcn, current) < Exact(cfg, used', wcn', current)
  {
    var p, q := 1 + cfg.WeightSpeed, 1 + cfg.WeightLife;
    var x, y := LifeOf(wcn, current), LifeOf(wcn', current);
    Monotone(used, used', p);
    Monotone(x, y, q);
    if wcn < wcn' {
      Grows(x, y, 1, q);
    } else {
      Grows(used, used', 32, p);
    }
  }

  // Of two chunks the less worn one has the lower score if it holds no more blocks; and the
  // one that holds at least 32 blocks less has it if it is not more worn.
  lemma ScoreLevels(cfg: Config, info: seq<ChunkInfo>, a: nat, b: nat, current: nat)
    requires a < |info| && b < |info|
    requires ScoreFits(cfg, info[a].Used, info[a].WCN, current) && ScoreFits(cfg, info[b].Used, info[b].WCN, current)
    requires info[a].Used <= info[b].Used && info[a].WCN <= info[b].WCN
    requires info[a].WCN < info[b].WCN || info[a].Used + 32 <= info[b].Used
    ensures Score(cfg, info, a, current) < Score(cfg, info, b, current)
  {
    hide Score, Exact, ScoreFits;
    ScoreIs(cfg, info, a, current);
    ScoreIs(cfg, info, b, current);
    ExactLevels(cfg, info[a].Used, info[b].Used, info[a].WCN, info[b].WCN, current);
  }

  // ---- The choice

  // RELOCATION_LIMIT_PERCENTAGE of what is left of the current chunk.
  predicate Holds90(info: seq<ChunkInfo>, c: nat, purge: nat)
    requires c < |info| && purge <= LAST_PURGE_POS
  {
    info[c].Used * 100 < (LAST_PURGE_POS - purge) / 8 * 90
  }

  // The lower score wins, and the lower number among equal scores.
  predicate Before(x: int, a: nat, y: int, b: nat) {
    x < y || (x == y && a <= b)
  }

  predicate BestOf(cfg: Config, info: seq<ChunkInfo>, chunk: nat, purge: nat, r: nat, c: nat)
    requires chunk < |info| && r < |info| && c < |info| && purge <= LAST_PURGE_POS
  {
    c != chunk && Admissible(info, c, purge) ==>
      Before(Score(cfg, info, r, info[chunk].WCN), r, Score(cfg, info, c, info[chunk].WCN), c)
  }

  lemma {:induction false} BestIsFirst(cfg: Config, info: seq<ChunkInfo>, chunk: nat, purge: nat, i: nat,
                                       next: nat, minScore: nat)
    requires chunk < |info| && i <= |info| && next < |info| && purge <= LAST_PURGE_POS
    requires next == chunk || Admissible(info, next, purge)
    requires next != chunk ==> next < i && minScore == Score(cfg, info, next, info[chunk].WCN)
    ensures var r := BestAdmissible(cfg, info, chunk, purge, i, next, minScore);
            r != chunk ==>
              && (forall c | i <= c < |info| :: BestOf(cfg, info, chunk, purge, r, c))
              && (next != chunk ==> BestOf(cfg, info, chunk, purge, r, next))
    decreases |info| - i
  {
    hide Score, Admissible;
    if i == |info| {
    } else if i == chunk || !Admissible(info, i, purge) {
      BestIsFirst(cfg, info, chunk, purge, i + 1, next, minScore);
    } else {
      var s := Score(cfg, info, i, info[chunk].WCN);
      if next == chunk || minScore > s {
        BestIsFirst(cfg, info, chunk, purge, i + 1, i, s);
      } else {
        BestIsFirst(cfg, info, chunk, purge, i + 1, next, minScore);
      }
    }
  }

  predicate LeastOf(info: seq<ChunkInfo>, chunk: nat, r: nat, c: nat)
    requires r < |info| && c < |info|
  {
    c != chunk ==> Before(info[r].Used, r, info[c].Used, c)
  }

  lemma {:induction false} LeastIsFirst(info: seq<ChunkInfo>, chunk: nat, i: nat, next: nat, minScore: int)
    requires chunk < |info| && i <= |info| && next < |info|
    requires next != chunk ==> next < i && minScore == info[next].Used
    ensures var r := LeastUsed(info, chunk, i, next, minScore);
            r != chunk ==>
              && (forall c | i <= c < |info| :: LeastOf(info, chunk, r, c))
              && (next != chunk ==> LeastOf(info, chunk, r, next))
    decreases |info| - i
  {
    if i == |info| {
    } else if i == chunk {
      LeastIsFirst(info, chunk, i + 1, next, minScore);
    } else if next == chunk || minScore > info[i].Used {
      LeastIsFirst(info, chunk, i + 1, i, info[i].Used);
    } else {
      LeastIsFirst(info, chunk, i + 1, next, minScore);
    }
  }

  lemma SomeHolds(cfg: Config, info: seq<ChunkInfo>, chunk: nat, purge: nat, some: nat)
    requires chunk < |info| && 2 <= |info| && purge <= LAST_PURGE_POS && some < |info| && some != chunk
    requires Holds90(info, some, purge)
    ensures var next := FindNextChunk(cfg, info, chunk, purge);
            && next != chunk && Holds90(info, next, purge)
            && forall c | 0 <= c < |info| && c != chunk && Holds90(info, c, purge) ::
                 Before(Score(cfg, info, next, info[chunk].WCN), next, Score(cfg, info, c, info[chunk].WCN), c)
  {
    hide Score, Before;
    BestIsFirst(cfg, info, chunk, purge, 0, chunk, 0);
    var next := BestAdmissible(cfg, info, chunk, purge, 0, chunk, 0);
    assert Admissible(info, some, purge);
    forall c | 0 <= c < |info| && c != chunk && Holds90(info, c, purge)
      ensures Before(Score(cfg, info, next, info[chunk].WCN), next, Score(cfg, info, c, info[chunk].WCN), c)
    {
      assert BestOf(cfg, info, chunk, purge, next, c);
    }
  }

  lemma NoneHolds(cfg: Config, info: seq<ChunkInfo>, chunk: nat, purge: nat)
    requires chunk < |info| && 2 <= |info| && purge <= LAST_PURGE_POS
    requires forall c | 0 <= c < |info| && c != chunk :: !Holds90(info, c, purge)
    ensures var next := FindNextChunk(cfg, info, chunk, purge);
            next != chunk && forall c | 0 <= c < |info| && c != chunk :: Before(info[next].Used, next, info[c].Used, c)
  {
    hide Score, Before;
    LeastIsFirst(info, chunk, 0, chunk, 0);
    var best := BestAdmissible(cfg, info, chunk, purge, 0, chunk, 0);
    assert best != chunk ==> Holds90(info, best, purge);
    var next := FindNextChunk(cfg, info, chunk, purge);
    forall c | 0 <= c < |info| && c != chunk ensures Before(info[next].Used, next, info[c].Used, c) {
      assert LeastOf(info, chunk, next, c);
    }
  }

  // If some other chunk holds less than 90 percent of what is left of the current one, the
  // first of those with the lowest score is emptied next; otherwise the first of the least used.
  lemma ChoiceExactly(cfg: Config, info: seq<ChunkInfo>, chunk: nat, purge: nat)
    requires chunk < |info| && 2 <= |info| && purge <= LAST_PURGE_POS
    ensures var next := FindNextChunk(cfg, info, chunk, purge);
            && next != chunk
            && if exists c | 0 <= c < |info| && c != chunk :: Holds90(info, c, purge) then
                 && Holds90(info, next, purge)
                 && forall c | 0 <= c < |info| && c != chunk && Holds90(info, c, purge) ::
                      Before(Score(cfg, info, next, info[chunk].WCN), next, Score(cfg, info, c, info[chunk].WCN), c)
               else
                 forall c | 0 <= c < |info| && c != chunk :: Before(info[next].Used, next, info[c].Used, c)
  {
    hide Score, Before, Holds90, FindNextChunk;
    if some :| 0 <= some < |info| && some != chunk && Holds90(info, some, purge) {
      SomeHolds(cfg, info, chunk, purge, some);
    } else {
      NoneHolds(cfg, info, chunk, purge);
    }
  }
}
