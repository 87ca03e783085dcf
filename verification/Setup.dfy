// Setting up (driver/config.c, driver/vcheck.c, driver/vgate.c): which media are accepted,
// and the cycle number a new format gets.
module Setup {
  import opened Model

  // ---- Acceptance

  function GetMaxChunks(lastLBA: nat): (n: nat)
    ensures n <= 500
  {
    var chunks := U32(lastLBA + 1) / 0x40000;
    if chunks < 500 then chunks else 500
  }

  // CheckCompletion2 and InitializeLevelingCtx, in 32-bit arithmetic.
  predicate Accepts(lastLBA: nat, sizeOfMap: nat) {
    && lastLBA >= 0x1bffff
    && sizeOfMap != 0
    && U32(sizeOfMap * 10) <= U32(GetMaxChunks(lastLBA) * 0x40000)
  }

  // The size check promises what the rest of the driver relies on exactly when neither its
  // product nor the number of sectors wraps.
  lemma AcceptsExactly(lastLBA: nat, cfg: Config)
    requires lastLBA < 0x1_0000_0000 && cfg.SizeOfMap < 0x1_0000_0000
    requires cfg.MaxChunks == GetMaxChunks(lastLBA) && Accepts(lastLBA, cfg.SizeOfMap)
    ensures cfg.Valid() <==> cfg.SizeOfMap <= 0x1999_9999 && lastLBA != 0xffff_ffff
  {
  }

  // A map of 0x199999a0 blocks passes the check on the smallest medium.
  lemma WrappedSizeAccepted()
    ensures Accepts(0x1bffff, 0x1999_99a0) && !Config(1, 0, 0x1999_99a0, GetMaxChunks(0x1bffff), 0, 0).Valid()
  {
  }

  // ---- A new cycle number

  predicate Taken(ccns: seq<nat>, ccn: nat) {
    ccn in ccns
  }

  ghost predicate Greatest(ccns: seq<nat>, max: nat) {
    && (forall i | 0 <= i < |ccns| :: ccns[i] <= max)
    && (max == 0 || Taken(ccns, max))
  }

  ghost function Below(k: nat): (s: set<nat>)
    ensures |s| == k && forall x: nat :: x in s <==> x < k
  {
    if k == 0 then {} else Below(k - 1) + {k - 1}
  }

  ghost function Values(ccns: seq<nat>): (s: set<nat>)
    ensures |s| <= |ccns| && forall x: nat :: x in s <==> x in ccns
  {
    if ccns == [] then {}
    else
      assert ccns == [ccns[0]] + ccns[1..];
      {ccns[0]} + Values(ccns[1..])
  }

  // n numbers cannot take n + 1 candidates.
  lemma NotAllTaken(ccns: seq<nat>, k: nat)
    requires forall x: nat | x < k :: Taken(ccns, x)
    ensures k <= |ccns|
  {
    forall x: nat | x in Below(k) ensures x in Values(ccns) {
      assert Taken(ccns, x);
    }
    SubsetSize(Below(k), Values(ccns));
  }

  lemma SubsetSize(a: set<nat>, b: set<nat>)
    requires a <= b
    ensures |a| <= |b|
  {
    assert b == a + (b - a);
  }

  // The loops over the numbers that were read.
  method ReadCCNs(ccns: seq<nat>, failed: nat) returns (ok: bool, pccn: array<nat>, max: nat)
    requires forall i | 0 <= i < |ccns| :: ccns[i] < 0x1_0000_0000
    ensures ok <==> failed >= |ccns|
    ensures ok ==> pccn[..] == ccns && Greatest(ccns, max) && max < 0x1_0000_0000
  {
    var n := |ccns|;
    pccn := new nat[n];
    var i: nat := 0;
    max := 0;
    while i < n
      invariant i <= n && i <= failed
      invariant pccn[..i] == ccns[..i]
      invariant Greatest(ccns[..i], max) && max < 0x1_0000_0000
    {
      if i == failed {
        return false, pccn, 0;
      }
      pccn[i] := ccns[i];
      assert ccns[..i + 1] == ccns[..i] + [ccns[i]];
      if max < pccn[i] {
        max := pccn[i];
      }
      i := i + 1;
    }
    assert ccns[..n] == ccns;
    ok := true;
  }

  method FindCCN(pccn: array<nat>, ccn: nat) returns (taken: bool)
    ensures taken <==> Taken(pccn[..], ccn)
  {
    var i := 0;
    while i < pccn.Length && ccn != pccn[i]
      invariant i <= pccn.Length
      invariant forall k | 0 <= k < i :: pccn[k] != ccn
    {
      i := i + 1;
    }
    taken := i < pccn.Length;
    assert taken ==> pccn[..][i] == ccn;
  }

  lemma GreatestIs(ccns: seq<nat>, max: nat)
    requires Greatest(ccns, max)
    ensures forall other: nat | Greatest(ccns, other) :: other == max
  {
  }

  // ccns holds the numbers of the control blocks, and the read of block failed fails, if
  // there is one. The new number is fresh: one more than the greatest, or the least that is
  // free when that would wrap.
  method GetNewCCN(ccns: seq<nat>, failed: nat) returns (ok: bool, ccn: nat)
    requires |ccns| <= 500 && forall i | 0 <= i < |ccns| :: ccns[i] < 0x1_0000_0000
    ensures ok <==> failed >= |ccns|
    ensures ok ==> !Taken(ccns, ccn) && ccn < 0x1_0000_0000
    ensures ok ==> forall max: nat | Greatest(ccns, max) ::
                     if max < 0xffff_ffff then ccn == max + 1 else forall x: nat | x < ccn :: Taken(ccns, x)
  {
    var pccn: array<nat>;
    ok, pccn, ccn := ReadCCNs(ccns, failed);
    if !ok {
      return;
    }
    ghost var max := ccn;
    GreatestIs(ccns, max);
    hide Greatest, Taken;
    ghost var tries := 0;
    while true
      invariant ccn < 0x1_0000_0000 && pccn[..] == ccns
      invariant tries == 0 ==> ccn == max
      invariant 0 < tries ==> max == 0xffff_ffff && ccn == tries - 1 && forall x: nat | x < tries :: Taken(ccns, x)
      invariant tries <= |ccns|
      decreases |ccns| - tries
    {
      ccn := U32(ccn + 1);
      var taken := FindCCN(pccn, ccn);
      if !taken {
        return true, ccn;
      }
      if tries == 0 && max < 0xffff_ffff {
        AboveGreatest(ccns, max);
      }
      tries := tries + 1;
      NotAllTaken(ccns, tries);
    }
  }

  lemma AboveGreatest(ccns: seq<nat>, max: nat)
    requires Greatest(ccns, max)
    ensures !Taken(ccns, max + 1)
  {
  }
}
