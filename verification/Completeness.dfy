// The table on the device of every chunk but the current one names each live block at its
// place, so that counting the live entries (driver/vrelocation.c, in debug builds) gives the
// chunk's counter.
module Completeness {
  import opened Geometry
  import opened BlockLog
  import opened Model
  import opened Invariant
  import opened LogKeeping

  // The live entries among the first n of a chunk's table.
  function Recount(m: seq<nat>, table: Table, c: nat, n: nat): nat
    requires n <= 0x7fc0
  {
    if n == 0 then 0 else Recount(m, table, c, n - 1) + if LiveSlot(m, table, c, n - 1) then 1 else 0
  }

  predicate AtSlot(p: nat, c: int, k: int) {
    p != NOT_MAPPED && InChunk(p, c) && SlotOf(p) == k
  }

  predicate BelowSlot(p: nat, c: int, n: int) {
    p != NOT_MAPPED && InChunk(p, c) && SlotOf(p) < n
  }

  // The blocks stored in chunk c below slot n, and at slot k.
  ghost function CountBelowSlot(m: seq<nat>, c: int, n: int): nat {
    if m == [] then 0 else (if BelowSlot(m[0], c, n) then 1 else 0) + CountBelowSlot(m[1..], c, n)
  }

  ghost function CountAtSlot(m: seq<nat>, c: int, k: int): nat {
    if m == [] then 0 else (if AtSlot(m[0], c, k) then 1 else 0) + CountAtSlot(m[1..], c, k)
  }

  lemma {:induction false} NextSlot(m: seq<nat>, c: int, n: nat)
    ensures CountBelowSlot(m, c, n + 1) == CountBelowSlot(m, c, n) + CountAtSlot(m, c, n)
  {
    if m != [] {
      NextSlot(m[1..], c, n);
    }
  }

  lemma {:induction false} NoneBelowFirst(m: seq<nat>, c: int)
    ensures CountBelowSlot(m, c, 0) == 0
  {
    if m != [] {
      NoneBelowFirst(m[1..], c);
    }
  }

  lemma {:induction false} NoneAtSlot(m: seq<nat>, c: int, k: nat)
    requires forall b | 0 <= b < |m| :: !AtSlot(m[b], c, k)
    ensures CountAtSlot(m, c, k) == 0
  {
    if m != [] {
      assert forall b | 0 <= b < |m[1..]| :: m[1..][b] == m[b + 1];
      NoneAtSlot(m[1..], c, k);
    }
  }

  lemma {:induction false} OneAtSlot(m: seq<nat>, c: int, k: nat, at: nat)
    requires at < |m| && forall b | 0 <= b < |m| :: AtSlot(m[b], c, k) <==> b == at
    ensures CountAtSlot(m, c, k) == 1
  {
    assert forall b | 0 <= b < |m[1..]| :: m[1..][b] == m[b + 1];
    if at == 0 {
      NoneAtSlot(m[1..], c, k);
    } else {
      OneAtSlot(m[1..], c, k, at - 1);
    }
  }

  lemma {:induction false} AllBelowEnd(m: seq<nat>, c: int, n: int)
    requires forall b | 0 <= b < |m| :: InChunk(m[b], c) ==> m[b] != NOT_MAPPED && SlotOf(m[b]) < n
    ensures CountBelowSlot(m, c, n) == CountIn(m, c)
  {
    if m != [] {
      assert forall b | 0 <= b < |m[1..]| :: m[1..][b] == m[b + 1];
      AllBelowEnd(m[1..], c, n);
    }
  }

  // A block of chunk c sits at slot k exactly when the table names it there and it is live.
  lemma AtSlotIff(s: Ctx, c: nat, k: nat, b: nat)
    requires LogOk(s) && c < s.cfg.MaxChunks && c != s.chunk && k < 0x7fc0 && b < s.cfg.SizeOfMap
    ensures AtSlot(s.mi.Map[b], c, k)
       <==> LiveSlot(s.mi.Map, s.disk.ctl[c].LBA, c, k) && s.disk.ctl[c].LBA[k] / 8 == b
  {
    PlbaParts(c, k);
    InChunkIff(s.mi.Map[b], c);
    if s.mi.Map[b] != NOT_MAPPED {
      LocatedIn(s, b);
    }
    if LiveSlot(s.mi.Map, s.disk.ctl[c].LBA, c, k) && s.disk.ctl[c].LBA[k] / 8 == b {
      assert s.mi.Map[b] == Plba(c, 8 * k) < 0x40000 * 500;
    }
  }

  lemma {:induction false} RecountBelow(s: Ctx, c: nat, n: nat)
    requires LogOk(s) && c < s.cfg.MaxChunks && c != s.chunk && n <= 0x7fc0
    ensures Recount(s.mi.Map, s.disk.ctl[c].LBA, c, n) == CountBelowSlot(s.mi.Map, c, n)
  {
    var m, table := s.mi.Map, s.disk.ctl[c].LBA;
    hide LogOk, AtSlot, LiveSlot;
    if n == 0 {
      NoneBelowFirst(m, c);
    } else {
      RecountBelow(s, c, n - 1);
      NextSlot(m, c, n - 1);
      forall b: nat | b < |m|
        ensures AtSlot(m[b], c, n - 1) <==> LiveSlot(m, table, c, n - 1) && table[n - 1] / 8 == b
      {
        AtSlotIff(s, c, n - 1, b);
      }
      if LiveSlot(m, table, c, n - 1) {
        LiveInMap(m, table, c, n - 1);
        OneAtSlot(m, c, n - 1, table[n - 1] / 8);
      } else {
        NoneAtSlot(m, c, n - 1);
      }
    }
  }

  lemma LiveInMap(m: seq<nat>, table: Table, c: nat, k: nat)
    requires k < 0x7fc0 && LiveSlot(m, table, c, k)
    ensures table[k] / 8 < |m|
  {
  }

  // The recount finds exactly the live blocks, for every chunk that could be emptied next.
  lemma RecountIsUsed(s: Ctx, c: nat)
    requires LogOk(s) && c < s.cfg.MaxChunks && c != s.chunk
    ensures Recount(s.mi.Map, s.disk.ctl[c].LBA, c, 0x7fc0) == s.mi.info[c].Used
  {
    RecountBelow(s, c, 0x7fc0);
    forall b | 0 <= b < s.cfg.SizeOfMap && InChunk(s.mi.Map[b], c)
      ensures s.mi.Map[b] != NOT_MAPPED && SlotOf(s.mi.Map[b]) < 0x7fc0
    {
      assert |s.mi.info| <= 500;
      if s.mi.Map[b] != NOT_MAPPED {
        LocatedIn(s, b);
      }
    }
    AllBelowEnd(s.mi.Map, c, 0x7fc0);
  }
}
