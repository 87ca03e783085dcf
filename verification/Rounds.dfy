// One round of the 128-bit checksum (lib/common.c) on 32-bit machine words: what it computes,
// and that it is injective in the hash and in the group.
module Rounds {

  // An unsigned long.
  type Word = bv32

  // The four words of the running hash, or of one group of the buffer.
  datatype Quad = Quad(w1: Word, w2: Word, w3: Word, w4: Word)

  // The multipliers.
  datatype Factor = C1 | C2 | C3 | C4 | Five

  function Times(x: Word, c: Factor): Word {
    match c
    case C1 => x * 0x239b961b
    case C2 => x * 0xab0e9789
    case C3 => x * 0x38b34ae5
    case C4 => x * 0xa1e38b93
    case Five => x * 5
  }

  function Plus(x: Word, y: Word): Word {
    x + y
  }

  function Xor(x: Word, y: Word): Word {
    x ^ y
  }

  // _rotl, for the distances that occur.
  function Rotl(x: Word, n: nat): Word
    requires 13 <= n <= 19
  {
    match n
    case 13 => x.RotateLeft(13)
    case 14 => x.RotateLeft(14)
    case 15 => x.RotateLeft(15)
    case 16 => x.RotateLeft(16)
    case 17 => x.RotateLeft(17)
    case 18 => x.RotateLeft(18)
    case 19 => x.RotateLeft(19)
  }

  function Scramble(k: Word, c: Factor, n: nat, d: Factor): Word
    requires 13 <= n <= 19
  {
    Times(Rotl(Times(k, c), n), d)
  }

  function Mix(h: Word, k: Word, n: nat, g: Word, add: Word): Word
    requires 13 <= n <= 19
  {
    Plus(Times(Plus(Rotl(Xor(h, k), n), g), Five), add)
  }

  // One round: a group k of the buffer is mixed into the hash h.
  function Round(h: Quad, k: Quad): (r: Quad) {
    var h1 := Mix(h.w1, Scramble(k.w1, C1, 15, C2), 19, h.w2, 0x561ccd1b);
    var h2 := Mix(h.w2, Scramble(k.w2, C2, 16, C3), 17, h.w3, 0x0bcaa747);
    var h3 := Mix(h.w3, Scramble(k.w3, C3, 17, C4), 15, h.w4, 0x96cd1c35);
    var h4 := Mix(h.w4, Scramble(k.w4, C4, 18, C1), 13, h1, 0x32ac3b17);
    Quad(h1, h2, h3, h4)
  }

  // ---- What a round is, on any 32-bit words

  lemma RoundWords(h: Quad, k: Quad)
    ensures var r := Round(h, k);
            && r.w1 == Mix(h.w1, Scramble(k.w1, C1, 15, C2), 19, h.w2, 0x561ccd1b)
            && r.w2 == Mix(h.w2, Scramble(k.w2, C2, 16, C3), 17, h.w3, 0x0bcaa747)
            && r.w3 == Mix(h.w3, Scramble(k.w3, C3, 17, C4), 15, h.w4, 0x96cd1c35)
            && r.w4 == Mix(h.w4, Scramble(k.w4, C4, 18, C1), 13, r.w1, 0x32ac3b17)
  {
    hide Mix, Scramble;
  }

  // The lines of the loop for one word of the group: it is multiplied (a), rotated (b) and
  // multiplied again (c). The hash word takes it (x), is rotated (y), gets its neighbour added
  // (z), is multiplied by 5 (m) and gets a constant added (r).
  predicate KeyLines1(k: Word, a: Word, b: Word, c: Word) {
    a == k * 0x239b961b && b == (a << 15) | (a >> 17) && c == b * 0xab0e9789
  }

  predicate HashLines1(h: Word, c: Word, x: Word, y: Word, g: Word, z: Word, m: Word, r: Word) {
    x == h ^ c && y == (x << 19) | (x >> 13) && z == y + g && m == z * 5 && r == m + 0x561ccd1b
  }

  predicate KeyLines2(k: Word, a: Word, b: Word, c: Word) {
    a == k * 0xab0e9789 && b == (a << 16) | (a >> 16) && c == b * 0x38b34ae5
  }

  predicate HashLines2(h: Word, c: Word, x: Word, y: Word, g: Word, z: Word, m: Word, r: Word) {
    x == h ^ c && y == (x << 17) | (x >> 15) && z == y + g && m == z * 5 && r == m + 0x0bcaa747
  }

  predicate KeyLines3(k: Word, a: Word, b: Word, c: Word) {
    a == k * 0x38b34ae5 && b == (a << 17) | (a >> 15) && c == b * 0xa1e38b93
  }

  predicate HashLines3(h: Word, c: Word, x: Word, y: Word, g: Word, z: Word, m: Word, r: Word) {
    x == h ^ c && y == (x << 15) | (x >> 17) && z == y + g && m == z * 5 && r == m + 0x96cd1c35
  }

  predicate KeyLines4(k: Word, a: Word, b: Word, c: Word) {
    a == k * 0xa1e38b93 && b == (a << 18) | (a >> 14) && c == b * 0x239b961b
  }

  predicate HashLines4(h: Word, c: Word, x: Word, y: Word, g: Word, z: Word, m: Word, r: Word) {
    x == h ^ c && y == (x << 13) | (x >> 19) && z == y + g && m == z * 5 && r == m + 0x32ac3b17
  }

  // Running these lines on machine words gives the round, word by word.
  lemma FirstWordIs(h: Quad, k: Quad, a: Word, b: Word, c: Word, x: Word, y: Word, z: Word, m: Word, r: Word)
    requires KeyLines1(k.w1, a, b, c) && HashLines1(h.w1, c, x, y, h.w2, z, m, r)
    ensures Round(h, k).w1 == r
  {
    hide Mix, Scramble, Round, KeyLines1, HashLines1;
    Scramble1(k.w1, a, b, c);
    Mix1(h.w1, c, x, y, h.w2, z, m, r);
    RoundWords(h, k);
  }

  lemma SecondWordIs(h: Quad, k: Quad, a: Word, b: Word, c: Word, x: Word, y: Word, z: Word, m: Word, r: Word)
    requires KeyLines2(k.w2, a, b, c) && HashLines2(h.w2, c, x, y, h.w3, z, m, r)
    ensures Round(h, k).w2 == r
  {
    hide Mix, Scramble, Round, KeyLines2, HashLines2;
    Scramble2(k.w2, a, b, c);
    Mix2(h.w2, c, x, y, h.w3, z, m, r);
    RoundWords(h, k);
  }

  lemma ThirdWordIs(h: Quad, k: Quad, a: Word, b: Word, c: Word, x: Word, y: Word, z: Word, m: Word, r: Word)
    requires KeyLines3(k.w3, a, b, c) && HashLines3(h.w3, c, x, y, h.w4, z, m, r)
    ensures Round(h, k).w3 == r
  {
    hide Mix, Scramble, Round, KeyLines3, HashLines3;
    Scramble3(k.w3, a, b, c);
    Mix3(h.w3, c, x, y, h.w4, z, m, r);
    RoundWords(h, k);
  }

  // The last word gets the new first word added.
  lemma FourthWordIs(h: Quad, k: Quad, a: Word, b: Word, c: Word, x: Word, y: Word, z: Word, m: Word, r: Word)
    requires KeyLines4(k.w4, a, b, c) && HashLines4(h.w4, c, x, y, Round(h, k).w1, z, m, r)
    ensures Round(h, k).w4 == r
  {
    hide Mix, Scramble, Round, KeyLines4, HashLines4;
    Scramble4(k.w4, a, b, c);
    Mix4(h.w4, c, x, y, Round(h, k).w1, z, m, r);
    RoundWords(h, k);
  }

  lemma Scramble1(k: Word, a: Word, b: Word, c: Word)
    requires KeyLines1(k, a, b, c)
    ensures Scramble(k, C1, 15, C2) == c
  {
    hide Times, Rotl, Scramble;
    TimesC1(k, a);
    Shifts15(a, b);
    TimesC2(b, c);
    Scrambled(k, C1, 15, C2);
  }

  lemma Mix1(h: Word, c: Word, x: Word, y: Word, g: Word, z: Word, m: Word, r: Word)
    requires HashLines1(h, c, x, y, g, z, m, r)
    ensures Mix(h, c, 19, g, 0x561ccd1b) == r
  {
    hide Times, Rotl, Plus, Xor, Mix;
    XorIs(h, c, x);
    Shifts19(x, y);
    PlusIs(y, g, z);
    TimesFive(z, m);
    PlusIs(m, 0x561ccd1b, r);
    Mixed(h, c, 19, g, 0x561ccd1b);
  }

  lemma Scramble2(k: Word, a: Word, b: Word, c: Word)
    requires KeyLines2(k, a, b, c)
    ensures Scramble(k, C2, 16, C3) == c
  {
    hide Times, Rotl, Scramble;
    TimesC2(k, a);
    Shifts16(a, b);
    TimesC3(b, c);
    Scrambled(k, C2, 16, C3);
  }

  lemma Mix2(h: Word, c: Word, x: Word, y: Word, g: Word, z: Word, m: Word, r: Word)
    requires HashLines2(h, c, x, y, g, z, m, r)
    ensures Mix(h, c, 17, g, 0x0bcaa747) == r
  {
    hide Times, Rotl, Plus, Xor, Mix;
    XorIs(h, c, x);
    Shifts17(x, y);
    PlusIs(y, g, z);
    TimesFive(z, m);
    PlusIs(m, 0x0bcaa747, r);
    Mixed(h, c, 17, g, 0x0bcaa747);
  }

  lemma Scramble3(k: Word, a: Word, b: Word, c: Word)
    requires KeyLines3(k, a, b, c)
    ensures Scramble(k, C3, 17, C4) == c
  {
    hide Times, Rotl, Scramble;
    TimesC3(k, a);
    Shifts17(a, b);
    TimesC4(b, c);
    Scrambled(k, C3, 17, C4);
  }

  lemma Mix3(h: Word, c: Word, x: Word, y: Word, g: Word, z: Word, m: Word, r: Word)
    requires HashLines3(h, c, x, y, g, z, m, r)
    ensures Mix(h, c, 15, g, 0x96cd1c35) == r
  {
    hide Times, Rotl, Plus, Xor, Mix;
    XorIs(h, c, x);
    Shifts15(x, y);
    PlusIs(y, g, z);
    TimesFive(z, m);
    PlusIs(m, 0x96cd1c35, r);
    Mixed(h, c, 15, g, 0x96cd1c35);
  }

  lemma Scramble4(k: Word, a: Word, b: Word, c: Word)
    requires KeyLines4(k, a, b, c)
    ensures Scramble(k, C4, 18, C1) == c
  {
    hide Times, Rotl, Scramble;
    TimesC4(k, a);
    Shifts18(a, b);
    TimesC1(b, c);
    Scrambled(k, C4, 18, C1);
  }

  lemma Mix4(h: Word, c: Word, x: Word, y: Word, g: Word, z: Word, m: Word, r: Word)
    requires HashLines4(h, c, x, y, g, z, m, r)
    ensures Mix(h, c, 13, g, 0x32ac3b17) == r
  {
    hide Times, Rotl, Plus, Xor, Mix;
    XorIs(h, c, x);
    Shifts13(x, y);
    PlusIs(y, g, z);
    TimesFive(z, m);
    PlusIs(m, 0x32ac3b17, r);
    Mixed(h, c, 13, g, 0x32ac3b17);
  }

  lemma Scrambled(k: Word, c: Factor, n: nat, d: Factor)
    requires 13 <= n <= 19
    ensures Scramble(k, c, n, d) == Times(Rotl(Times(k, c), n), d)
  {
    hide Times, Rotl;
  }

  lemma Mixed(h: Word, k: Word, n: nat, g: Word, add: Word)
    requires 13 <= n <= 19
    ensures Mix(h, k, n, g, add) == Plus(Times(Plus(Rotl(Xor(h, k), n), g), Five), add)
  {
    hide Times, Rotl, Plus, Xor;
  }

  lemma TimesC1(x: Word, r: Word)
    requires r == x * 0x239b961b
    ensures Times(x, C1) == r
  {
  }

  lemma TimesC2(x: Word, r: Word)
    requires r == x * 0xab0e9789
    ensures Times(x, C2) == r
  {
  }

  lemma TimesC3(x: Word, r: Word)
    requires r == x * 0x38b34ae5
    ensures Times(x, C3) == r
  {
  }

  lemma TimesC4(x: Word, r: Word)
    requires r == x * 0xa1e38b93
    ensures Times(x, C4) == r
  {
  }

  lemma TimesFive(x: Word, r: Word)
    requires r == x * 5
    ensures Times(x, Five) == r
  {
  }

  lemma PlusIs(x: Word, y: Word, r: Word)
    requires r == x + y
    ensures Plus(x, y) == r
  {
  }

  lemma XorIs(x: Word, y: Word, r: Word)
    requires r == x ^ y
    ensures Xor(x, y) == r
  {
  }

  // A rotation is two shifts.
  lemma Shifts13(x: Word, r: Word)
    requires r == (x << 13) | (x >> 19)
    ensures Rotl(x, 13) == r
  {
  }

  lemma Shifts15(x: Word, r: Word)
    requires r == (x << 15) | (x >> 17)
    ensures Rotl(x, 15) == r
  {
  }

  lemma Shifts16(x: Word, r: Word)
    requires r == (x << 16) | (x >> 16)
    ensures Rotl(x, 16) == r
  {
  }

  lemma Shifts17(x: Word, r: Word)
    requires r == (x << 17) | (x >> 15)
    ensures Rotl(x, 17) == r
  {
  }

  lemma Shifts18(x: Word, r: Word)
    requires r == (x << 18) | (x >> 14)
    ensures Rotl(x, 18) == r
  {
  }

  lemma Shifts19(x: Word, r: Word)
    requires r == (x << 19) | (x >> 13)
    ensures Rotl(x, 19) == r
  {
  }

  // ---- Some rounds

  lemma ZeroRoundIs()
    ensures Round(Quad(0, 0, 0, 0), Quad(0, 0, 0, 0)) == Quad(0x561ccd1b, 0x0bcaa747, 0x96cd1c35, 0xe13c3c9e)
  {
    var h, k := Quad(0, 0, 0, 0), Quad(0, 0, 0, 0);
    hide Round;
    FirstWordIs(h, k, 0, 0, 0, 0, 0, 0, 0, 0x561ccd1b);
    SecondWordIs(h, k, 0, 0, 0, 0, 0, 0, 0, 0x0bcaa747);
    ThirdWordIs(h, k, 0, 0, 0, 0, 0, 0, 0, 0x96cd1c35);
    FourthWordIs(h, k, 0, 0, 0, 0, 0, 0x561ccd1b, 0xae900187, 0xe13c3c9e);
  }

  lemma FirstRoundIs()
    ensures Round(Quad(0, 0, 0, 0), Quad(1, 2, 3, 4)) == Quad(0x1a7bd7fe, 0x2f3e48fb, 0xb084f1e8, 0x7708fb39)
  {
    var h, k := Quad(0, 0, 0, 0), Quad(1, 2, 3, 4);
    hide Round;
    FirstWordIs(h, k, 0x239b961b, 0xcb0d91cd, 0x9378f1b5, 0x9378f1b5, 0x8dac9bc7, 0x8dac9bc7, 0xc45f0ae3, 0x1a7bd7fe);
    SecondWordIs(h, k, 0x561d2f12, 0x2f12561d, 0xf69269f1, 0xf69269f1, 0xd3e3ed24, 0xd3e3ed24, 0x2373a1b4, 0x2f3e48fb);
    ThirdWordIs(h, k, 0xaa19e0af, 0xc15f5433, 0x88ae0a49, 0x88ae0a49, 0x0524c457, 0x0524c457, 0x19b7d5b3, 0xb084f1e8);
    FourthWordIs(h, k, 0x878e2e4c, 0xb9321e38, 0xd9e5ffe8, 0xd9e5ffe8, 0xbffd1b3c, 0xda78f33a, 0x445cc022, 0x7708fb39);
  }

  lemma SecondRoundIs()
    ensures Round(Quad(0x1a7bd7fe, 0x2f3e48fb, 0xb084f1e8, 0x7708fb39),
                  Quad(0x80000001, 0xdeadbeef, 0x12345678, 0xffffffff))
         == Quad(0x3e11b725, 0x91ee1c55, 0xe9c7b5ef, 0x74c87609)
  {
    var h := Quad(0x1a7bd7fe, 0x2f3e48fb, 0xb084f1e8, 0x7708fb39);
    var k := Quad(0x80000001, 0xdeadbeef, 0x12345678, 0xffffffff);
    hide Round;
    FirstWordIs(h, k, 0xa39b961b, 0xcb0dd1cd, 0x395b31b5, 0x2320e64b, 0x32591907, 0x61976202, 0xe7f4ea0a, 0x3e11b725);
    SecondWordIs(h, k, 0xbcac26e7, 0x26e7bcac, 0x56197ddc, 0x79273527, 0x6a4ef24e, 0x1ad3e436, 0x8623750e, 0x91ee1c55);
    ThirdWordIs(h, k, 0x1fb80958, 0x12b03f70, 0x1df63d50, 0xad72ccb8, 0x665c56b9, 0xdd6551f2, 0x52fa99ba, 0xe9c7b5ef);
    FourthWordIs(h, k, 0x5e1c746d, 0xd1b57871, 0xd220e9eb, 0xa52812d2, 0x025a54a5, 0x406c0bca, 0x421c3af2, 0x74c87609);
  }

  lemma UnevenRoundIs()
    ensures Round(Quad(0x1a7bd7fe, 0x2f3e48fb, 0xb084f1e8, 0x7708fb39),
                  Quad(5, 6, 0, 0))
         == Quad(0xa48b2013, 0x11fa9007, 0x46bfbd9c, 0x0667c5db)
  {
    var h, k := Quad(0x1a7bd7fe, 0x2f3e48fb, 0xb084f1e8, 0x7708fb39), Quad(5, 6, 0, 0);
    hide Round;
    FirstWordIs(h, k, 0xb209ee87, 0xf743d904, 0xe2887f24, 0xf8f3a8da, 0x46d7c79d, 0x76161098, 0x4e6e52f8, 0xa48b2013);
    SecondWordIs(h, k, 0x02578d36, 0x8d360257, 0x98d23dd3, 0xb7ec7528, 0xea516fd8, 0x9ad661c0, 0x062fe8c0, 0x11fa9007);
    ThirdWordIs(h, k, 0, 0, 0, 0xb084f1e8, 0x78f45842, 0xeffd537b, 0xaff2a167, 0x46bfbd9c);
    FourthWordIs(h, k, 0, 0, 0, 0x7708fb39, 0x1f672ee1, 0xc3f24ef4, 0xd3bb8ac4, 0x0667c5db);
  }

  // ---- A round loses nothing

  // Each multiplier is odd, so it has an inverse modulo 2^32.
  function Undo(x: Word, c: Factor): Word {
    match c
    case C1 => x * 0x89c95413
    case C2 => x * 0xdf130eb9
    case C3 => x * 0x747862ed
    case C4 => x * 0x58d64a9b
    case Five => x * 0xcccccccd
  }

  lemma UndoneC1(x: Word)
    ensures Undo(Times(x, C1), C1) == x
  {
    assert Times(x, C1) == x * 0x239b961b;
    assert Undo(x * 0x239b961b, C1) == x;
  }

  lemma UndoneC2(x: Word)
    ensures Undo(Times(x, C2), C2) == x
  {
    assert Times(x, C2) == x * 0xab0e9789;
    assert Undo(x * 0xab0e9789, C2) == x;
  }

  lemma UndoneC3(x: Word)
    ensures Undo(Times(x, C3), C3) == x
  {
    assert Times(x, C3) == x * 0x38b34ae5;
    assert Undo(x * 0x38b34ae5, C3) == x;
  }

  lemma UndoneC4(x: Word)
    ensures Undo(Times(x, C4), C4) == x
  {
    assert Times(x, C4) == x * 0xa1e38b93;
    assert Undo(x * 0xa1e38b93, C4) == x;
  }

  lemma UndoneFive(x: Word)
    ensures Undo(Times(x, Five), Five) == x
  {
    assert Times(x, Five) == x * 5;
    assert Undo(x * 5, Five) == x;
  }

  lemma TimesUndone(x: Word, c: Factor)
    ensures Undo(Times(x, c), c) == x
  {
    hide Times, Undo;
    match c
    case C1 => UndoneC1(x);
    case C2 => UndoneC2(x);
    case C3 => UndoneC3(x);
    case C4 => UndoneC4(x);
    case Five => UndoneFive(x);
  }

  lemma TimesInjective(x: Word, y: Word, c: Factor)
    ensures Times(x, c) == Times(y, c) ==> x == y
  {
    TimesUndone(x, c);
    TimesUndone(y, c);
    hide Times, Undo;
  }

  lemma RotlInjective(x: Word, y: Word, n: nat)
    requires 13 <= n <= 19
    ensures Rotl(x, n) == Rotl(y, n) ==> x == y
  {
  }

  function Minus(x: Word, g: Word): Word {
    x - g
  }

  lemma PlusUndone(x: Word, g: Word)
    ensures Minus(Plus(x, g), g) == x
  {
    assert Plus(x, g) == x + g;
    assert Minus(x + g, g) == x;
  }

  lemma PlusInjective(x: Word, y: Word, g: Word)
    ensures Plus(x, g) == Plus(y, g) ==> x == y
  {
    hide Plus, Minus;
    PlusUndone(x, g);
    PlusUndone(y, g);
  }

  lemma XorInjective(x: Word, y: Word, k: Word)
    ensures Xor(x, k) == Xor(y, k) ==> x == y
    ensures Xor(k, x) == Xor(k, y) ==> x == y
  {
  }

  lemma ScrambleInjective(k: Word, l: Word, c: Factor, n: nat, d: Factor)
    requires 13 <= n <= 19
    ensures Scramble(k, c, n, d) == Scramble(l, c, n, d) ==> k == l
  {
    hide Times, Rotl;
    TimesInjective(Rotl(Times(k, c), n), Rotl(Times(l, c), n), d);
    RotlInjective(Times(k, c), Times(l, c), n);
    TimesInjective(k, l, c);
  }

  lemma MixInjective(h: Word, k: Word, h': Word, k': Word, n: nat, g: Word, add: Word)
    requires 13 <= n <= 19
    ensures Mix(h, k, n, g, add) == Mix(h', k', n, g, add) ==> Xor(h, k) == Xor(h', k')
  {
    hide Times, Rotl, Plus, Xor;
    var x, x' := Rotl(Xor(h, k), n), Rotl(Xor(h', k'), n);
    PlusInjective(Times(Plus(x, g), Five), Times(Plus(x', g), Five), add);
    TimesInjective(Plus(x, g), Plus(x', g), Five);
    PlusInjective(x, x', g);
    RotlInjective(Xor(h, k), Xor(h', k'), n);
  }

  // For a fixed group a round is injective in the hash, so it is a bijection of the 2^128
  // hashes.
  lemma RoundInjectiveInHash(h: Quad, h': Quad, k: Quad)
    ensures Round(h, k) == Round(h', k) ==> h == h'
  {
    hide Mix, Scramble, Xor;
    var r, r' := Round(h, k), Round(h', k);
    if r == r' {
      var s1, s2 := Scramble(k.w1, C1, 15, C2), Scramble(k.w2, C2, 16, C3);
      var s3, s4 := Scramble(k.w3, C3, 17, C4), Scramble(k.w4, C4, 18, C1);
      MixInjective(h.w4, s4, h'.w4, s4, 13, r.w1, 0x32ac3b17);
      XorInjective(h.w4, h'.w4, s4);
      MixInjective(h.w3, s3, h'.w3, s3, 15, h.w4, 0x96cd1c35);
      XorInjective(h.w3, h'.w3, s3);
      MixInjective(h.w2, s2, h'.w2, s2, 17, h.w3, 0x0bcaa747);
      XorInjective(h.w2, h'.w2, s2);
      MixInjective(h.w1, s1, h'.w1, s1, 19, h.w2, 0x561ccd1b);
      XorInjective(h.w1, h'.w1, s1);
    }
  }

  lemma MixDiffers(h: Word, k: Word, l: Word, c: Factor, m: nat, d: Factor, n: nat, g: Word, add: Word)
    requires 13 <= m <= 19 && 13 <= n <= 19 && k != l
    ensures Mix(h, Scramble(k, c, m, d), n, g, add) != Mix(h, Scramble(l, c, m, d), n, g, add)
  {
    hide Mix, Scramble, Xor;
    ScrambleInjective(k, l, c, m, d);
    MixInjective(h, Scramble(k, c, m, d), h, Scramble(l, c, m, d), n, g, add);
    XorInjective(Scramble(k, c, m, d), Scramble(l, c, m, d), h);
  }

  // For a fixed hash a round is injective in the group.
  lemma RoundInjectiveInGroup(h: Quad, k: Quad, l: Quad)
    requires k != l
    ensures Round(h, k) != Round(h, l)
  {
    hide Mix, Scramble, Xor;
    if k.w1 != l.w1 {
      MixDiffers(h.w1, k.w1, l.w1, C1, 15, C2, 19, h.w2, 0x561ccd1b);
    } else if k.w2 != l.w2 {
      MixDiffers(h.w2, k.w2, l.w2, C2, 16, C3, 17, h.w3, 0x0bcaa747);
    } else if k.w3 != l.w3 {
      MixDiffers(h.w3, k.w3, l.w3, C3, 17, C4, 15, h.w4, 0x96cd1c35);
    } else {
      MixDiffers(h.w4, k.w4, l.w4, C4, 18, C1, 13, Round(h, k).w1, 0x32ac3b17);
    }
  }
}
