// The 128-bit checksum over control blocks (lib/common.c), on buffers of 32-bit words. The
// last four words hold the checksum, and corruption inside one group of four words is
// always detected.
module Checksum {
  import opened Rounds

  // ---- The buffer

  type Buffer = w: seq<Word> | |w| >= 4 witness [0, 0, 0, 0]

  // The buffer with its last four words replaced.
  function Sealed(w: Buffer, sum: Quad): (r: Buffer)
    ensures |r| == |w|
    ensures forall i | 0 <= i < |w| - 4 :: r[i] == w[i]
    ensures Stored(r) == sum
  {
    w[..|w| - 4] + [sum.w1, sum.w2, sum.w3, sum.w4]
  }

  function Stored(w: Buffer): Quad {
    Group(w, |w| - 4)
  }

  function Group(w: seq<Word>, i: nat): Quad
    requires i + 4 <= |w|
  {
    Quad(w[i], w[i + 1], w[i + 2], w[i + 3])
  }

  // The hash after the groups in front of word i. The last group may reach into the last
  // four words.
  function HashUpTo(w: Buffer, i: nat): Quad
    requires i % 4 == 0 && i < |w|
  {
    if i == 0 then Quad(0, 0, 0, 0) else Round(HashUpTo(w, i - 4), Group(w, i - 4))
  }

  // The first multiple of 4 from nblocks on.
  function GroupsEnd(n: nat): (e: nat)
    requires n >= 4
    ensures e % 4 == 0 && n - 4 <= e < n
  {
    n - 1 - (n - 1) % 4
  }

  // What ProduceChecksum128 computes: the last four words count as zero.
  function Sum(w: Buffer): Quad {
    HashUpTo(Sealed(w, Quad(0, 0, 0, 0)), GroupsEnd(|w|))
  }

  predicate Valid(w: Buffer) {
    Stored(w) == Sum(w)
  }

  lemma SumIgnoresStored(w: Buffer, sum: Quad)
    ensures Sum(Sealed(w, sum)) == Sum(w)
  {
    assert Sealed(Sealed(w, sum), Quad(0, 0, 0, 0)) == Sealed(w, Quad(0, 0, 0, 0));
  }

  // A produced checksum verifies.
  lemma ProducedIsValid(w: Buffer)
    ensures Valid(Sealed(w, Sum(w)))
  {
    SumIgnoresStored(w, Sum(w));
  }

  // Only the sum itself verifies.
  lemma OnlySumIsValid(w: Buffer, sum: Quad)
    ensures Valid(Sealed(w, sum)) <==> sum == Sum(w)
  {
    SumIgnoresStored(w, sum);
  }

  // Buffers that differ in one group only.
  predicate AgreeBut(v: seq<Word>, w: seq<Word>, g: nat) {
    |v| == |w| && forall i | 0 <= i < |v| && !(g <= i < g + 4) :: v[i] == w[i]
  }

  lemma {:induction false} HashAgrees(v: Buffer, w: Buffer, g: nat, i: nat)
    requires AgreeBut(v, w, g) && i % 4 == 0 && g % 4 == 0 && i <= g && i < |v|
    ensures HashUpTo(v, i) == HashUpTo(w, i)
  {
    hide Round;
    if i > 0 {
      HashAgrees(v, w, g, i - 4);
    }
  }

  lemma {:induction false} HashDiffers(v: Buffer, w: Buffer, g: nat, i: nat)
    requires AgreeBut(v, w, g) && i % 4 == 0 && g % 4 == 0 && g < i < |v|
    requires Group(v, g) != Group(w, g)
    ensures HashUpTo(v, i) != HashUpTo(w, i)
  {
    hide Round;
    if i == g + 4 {
      HashAgrees(v, w, g, g);
      RoundInjectiveInGroup(HashUpTo(v, g), Group(v, g), Group(w, g));
    } else {
      HashDiffers(v, w, g, i - 4);
      RoundInjectiveInHash(HashUpTo(v, i - 4), HashUpTo(w, i - 4), Group(v, i - 4));
    }
  }

  // Two buffers that differ in front of the checksum, inside one aligned group of four words,
  // have different sums.
  lemma SumDetects(v: Buffer, w: Buffer, g: nat, p: nat)
    requires AgreeBut(v, w, g) && g % 4 == 0
    requires g <= p < g + 4 && p < |v| - 4 && v[p] != w[p]
    ensures Sum(v) != Sum(w)
  {
    var zero := Quad(0, 0, 0, 0);
    var v', w' := Sealed(v, zero), Sealed(w, zero);
    assert v'[p] != w'[p];
    assert AgreeBut(v', w', g);
    HashDiffers(v', w', g, GroupsEnd(|v|));
  }

  // Of two buffers that differ in front of the checksum, inside one aligned group of four
  // words, at most one verifies.
  lemma CorruptionDetected(v: Buffer, w: Buffer, g: nat)
    requires AgreeBut(v, w, g) && g % 4 == 0 && Stored(v) == Stored(w) && v != w
    ensures Valid(v) ==> !Valid(w)
  {
    hide Sum;
    var p :| 0 <= p < |v| && v[p] != w[p];
    assert p < |v| - 4 by {
      assert Group(v, |v| - 4) == Group(w, |w| - 4);
    }
    SumDetects(v, w, g, p);
  }

  // Corruption of the checksum alone does not verify either.
  lemma ForgeryDetected(v: Buffer, sum: Quad)
    requires sum != Stored(v)
    ensures Valid(v) ==> !Valid(Sealed(v, sum))
  {
    hide Sum;
    SumIgnoresStored(v, sum);
  }

  // ---- Some sums

  // One group of zeros, whatever the last four words hold.
  lemma SumOfZeros(s: Quad)
    ensures Sum([0, 0, 0, 0, s.w1, s.w2, s.w3, s.w4]) == Quad(0x561ccd1b, 0x0bcaa747, 0x96cd1c35, 0xe13c3c9e)
  {
    var w := [0, 0, 0, 0, s.w1, s.w2, s.w3, s.w4];
    hide Sum, Round;
    OneRound(w);
    ZeroRoundIs();
    assert Group(w, 0) == Quad(0, 0, 0, 0);
  }

  lemma OneRound(w: Buffer)
    requires |w| == 8
    ensures Sum(w) == Round(Quad(0, 0, 0, 0), Group(w, 0))
  {
    hide Round;
    var v := Sealed(w, Quad(0, 0, 0, 0));
    assert GroupsEnd(8) == 4;
    assert HashUpTo(v, 0) == Quad(0, 0, 0, 0);
    assert Group(v, 0) == Group(w, 0);
  }

  // Two rounds; the second group ends with the zeroed checksum if the buffer is no multiple
  // of four words.
  lemma TwoRounds(w: Buffer)
    requires 9 <= |w| <= 12
    ensures var v := Sealed(w, Quad(0, 0, 0, 0));
            Sum(w) == Round(Round(Quad(0, 0, 0, 0), Group(v, 0)), Group(v, 4))
  {
    hide Round, Sealed;
    var v := Sealed(w, Quad(0, 0, 0, 0));
    assert GroupsEnd(|w|) == 8;
    assert HashUpTo(v, 0) == Quad(0, 0, 0, 0);
    assert HashUpTo(v, 4) == Round(Quad(0, 0, 0, 0), Group(v, 0));
  }

  // Two groups, whatever the last four words hold.
  lemma SumOfTwoGroups(s: Quad)
    ensures Sum([1, 2, 3, 4, 0x80000001, 0xdeadbeef, 0x12345678, 0xffffffff, s.w1, s.w2, s.w3, s.w4])
         == Quad(0x3e11b725, 0x91ee1c55, 0xe9c7b5ef, 0x74c87609)
  {
    var w := [1, 2, 3, 4, 0x80000001, 0xdeadbeef, 0x12345678, 0xffffffff, s.w1, s.w2, s.w3, s.w4];
    hide Sum, Round;
    TwoRounds(w);
    FirstRoundIs();
    SecondRoundIs();
    var v := Sealed(w, Quad(0, 0, 0, 0));
    assert Group(v, 0) == Quad(1, 2, 3, 4);
    assert Group(v, 4) == Quad(0x80000001, 0xdeadbeef, 0x12345678, 0xffffffff);
  }

  // A buffer of ten words: the second group takes two of the zeroed words.
  lemma SumOfUnevenBuffer(s: Quad)
    ensures Sum([1, 2, 3, 4, 5, 6, s.w1, s.w2, s.w3, s.w4])
         == Quad(0xa48b2013, 0x11fa9007, 0x46bfbd9c, 0x0667c5db)
  {
    var w := [1, 2, 3, 4, 5, 6, s.w1, s.w2, s.w3, s.w4];
    hide Sum, Round;
    TwoRounds(w);
    FirstRoundIs();
    UnevenRoundIs();
    var v := Sealed(w, Quad(0, 0, 0, 0));
    assert Group(v, 0) == Quad(1, 2, 3, 4);
    assert Group(v, 4) == Quad(5, 6, 0, 0);
  }

  // ---- The code

  lemma HashStep(w: Buffer, i: nat)
    requires i % 4 == 0 && i + 4 < |w|
    ensures HashUpTo(w, i + 4) == Round(HashUpTo(w, i), Group(w, i))
  {
  }

  lemma SealedAre(w: Buffer, v: Buffer, sum: Quad)
    requires |v| == |w| && v[..|v| - 4] == w[..|w| - 4] && Stored(v) == sum
    ensures v == Sealed(w, sum)
  {
    assert v == v[..|v| - 4] + [sum.w1, sum.w2, sum.w3, sum.w4];
  }

  method ProduceChecksum128(buf: array<Word>)
    requires buf.Length >= 4
    modifies buf
    ensures buf[..] == Sealed(old(buf[..]), Sum(old(buf[..])))
  {
    hide Mix, Scramble, Sealed, HashUpTo, GroupsEnd;
    var n := buf.Length;
    var nblocks := n - 4;
    var h1: Word, h2: Word, h3: Word, h4: Word := 0, 0, 0, 0;
    buf[n - 4], buf[n - 3], buf[n - 2], buf[n - 1] := 0, 0, 0, 0;
    ghost var w := buf[..];
    SealedAre(old(buf[..]), w, Quad(0, 0, 0, 0));
    HashStart(w);
    var i := 0;
    while i < nblocks
      invariant i % 4 == 0 && i < n
      invariant buf[..] == w
      invariant Quad(h1, h2, h3, h4) == HashUpTo(w, i)
      decreases n - i
    {
      var k1, k2, k3, k4 := buf[i], buf[i + 1], buf[i + 2], buf[i + 3];
      HashStep(w, i);
      assert Group(w, i) == Quad(k1, k2, k3, k4);
      h1 := Mix(h1, Scramble(k1, C1, 15, C2), 19, h2, 0x561ccd1b);
      h2 := Mix(h2, Scramble(k2, C2, 16, C3), 17, h3, 0x0bcaa747);
      h3 := Mix(h3, Scramble(k3, C3, 17, C4), 15, h4, 0x96cd1c35);
      h4 := Mix(h4, Scramble(k4, C4, 18, C1), 13, h1, 0x32ac3b17);
      i := i + 4;
    }
    GroupsEndIs(n, i);
    buf[n - 4], buf[n - 3], buf[n - 2], buf[n - 1] := h1, h2, h3, h4;
    SealedAre(old(buf[..]), buf[..], Quad(h1, h2, h3, h4));
  }

  lemma GroupsEndIs(n: nat, i: nat)
    requires n >= 4 && i % 4 == 0 && n - 4 <= i < n
    ensures i == GroupsEnd(n)
  {
  }

  lemma HashStart(w: Buffer)
    ensures HashUpTo(w, 0) == Quad(0, 0, 0, 0)
  {
  }

  // The buffer is left as it was, whichever way the comparison goes.
  method VerifyChecksum128(buf: array<Word>) returns (ok: bool)
    requires buf.Length >= 4
    modifies buf
    ensures buf[..] == old(buf[..])
    ensures ok <==> Valid(buf[..])
  {
    hide Sum, Sealed, Valid;
    var n := buf.Length;
    var c1, c2, c3, c4 := buf[n - 4], buf[n - 3], buf[n - 2], buf[n - 1];
    ghost var w := buf[..];
    ProduceChecksum128(buf);
    ghost var v := buf[..];
    ok := c1 == buf[n - 4] && c2 == buf[n - 3] && c3 == buf[n - 2] && c4 == buf[n - 1];
    Compared(w, v);
    if !ok {
      buf[n - 4], buf[n - 3], buf[n - 2], buf[n - 1] := c1, c2, c3, c4;
      assert buf[..n - 4] == v[..n - 4];
      PutBack(w, v, buf[..]);
    }
  }

  lemma Compared(w: Buffer, v: Buffer)
    requires v == Sealed(w, Sum(w))
    ensures Valid(w) <==> Stored(v) == Stored(w)
    ensures Valid(w) ==> v == w
    ensures v[..|w| - 4] == w[..|w| - 4]
  {
    hide Sum;
    assert w == w[..|w| - 4] + [w[|w| - 4], w[|w| - 3], w[|w| - 2], w[|w| - 1]];
  }

  lemma PutBack(w: Buffer, v: Buffer, u: Buffer)
    requires |u| == |v| == |w| && v[..|w| - 4] == w[..|w| - 4] == u[..|w| - 4] && Stored(u) == Stored(w)
    ensures u == w
  {
    SealedAre(w, u, Stored(w));
    SealedAre(w, w, Stored(w));
  }
}
