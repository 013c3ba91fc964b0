/** The hashes that the self-test states for XXH32, worked out from the specification. Every literal below
    is an intermediate value of one computation; the last lemma states the values themselves. */
module KnownXxh32 {
  import opened Words
  import opened Bits
  import opened Xxh32
  import opened Xxh32Distinct
  import opened KnownWords

  // ----- the steps, on given words; products and sums with their carries -----

  lemma RoundIs(acc: u32, input: u32, q: nat, p: u32, c: nat, s: u32, hi: nat, lo: nat, r: u32, q': nat, y: u32)
    requires input * 0x85EBCA77 == q * 0x1_0000_0000 + p && acc + p == c * 0x1_0000_0000 + s
          && s == hi * 0x8_0000 + lo && lo < 0x8_0000
    requires r == lo * 0x2000 + hi && r * 0x9E3779B1 == q' * 0x1_0000_0000 + y
    ensures Round(acc, input) == y
  {
    hide Rotl32, Pow2;
    Wraps32(input * PRIME2, q, p);
    Wraps32(acc + p, c, s);
    Wraps32(r * PRIME1, q', y);
    assert Pow2(13) == 0x2000 && Pow2(19) == 0x8_0000 by { PowersOfTwo(); }
    Rotl32Parts(s, 13, hi, lo);
  }

  /** Lane `k` after `n` stripes. */
  ghost predicate LaneAt(seed: u32, data: seq<byte>, n: nat, k: nat, v: u32)
  {
    k < 4 && STRIPE * n <= |data| && Lane(AfterStripes(seed, data, n), k) == v
  }

  /** The tail from `pos` on with `h` in hand is the tail from `pos'` on with `h'`. */
  ghost predicate Moves(data: seq<byte>, h: u32, pos: nat, h': u32, pos': nat)
  {
    pos <= |data| && pos' <= |data| && Tail(h, data[pos..]) == Tail(h', data[pos'..])
  }

  lemma Onward(data: seq<byte>, h: u32, pos: nat, h': u32, pos': nat, h'': u32, pos'': nat)
    requires Moves(data, h, pos, h', pos') && Moves(data, h', pos', h'', pos'')
    ensures Moves(data, h, pos, h'', pos'')
  {
    hide Tail;
  }

  lemma LaneIs(seed: u32, data: seq<byte>, n: nat, k: nat, acc: u32, input: u32, y: u32)
    requires 16 * n + 16 <= |data| && LaneAt(seed, data, n, k, acc)
    requires ReadLE32(data, 16 * n + 4 * k) == input && Round(acc, input) == y
    ensures LaneAt(seed, data, n + 1, k, y)
  {
    hide Round, Lane, Absorb, ReadLE32, AfterStripes;
    Next(seed, data, n);
    AbsorbLane(AfterStripes(seed, data, n), data, STRIPE * n, k);
  }

  lemma LaneStart(seed: u32, data: seq<byte>, k: nat)
    requires k < 4
    ensures LaneAt(seed, data, 0, k, Lane(InitLanes(seed), k))
  {
  }

  lemma TurnIs(x: u32, n: nat, hi: nat, lo: nat, p: nat, m: nat, r: u32)
    requires 0 < n < 32 && Pow2(n) == p && Pow2(32 - n) == m && x == hi * m + lo && lo < m && r == lo * p + hi
    ensures Rotl32(x, n) == r
  {
    hide Rotl32, Pow2;
    Rotl32Parts(x, n, hi, lo);
  }

  lemma ConvergeIs(l: Lanes, r1: u32, r2: u32, r3: u32, r4: u32, c: nat, s: u32, c': nat, t: u32, c'': nat, h: u32)
    requires Rotl32(l.v1, 1) == r1 && Rotl32(l.v2, 7) == r2 && Rotl32(l.v3, 12) == r3 && Rotl32(l.v4, 18) == r4
    requires r1 + r2 == c * 0x1_0000_0000 + s && r3 + r4 == c' * 0x1_0000_0000 + t && s + t == c'' * 0x1_0000_0000 + h
    ensures Converge(l) == h
  {
    hide Rotl32;
    Wraps32(r1 + r2, c, s);
    Wraps32(r3 + r4, c', t);
    Wraps32(s + t, c'', h);
  }

  lemma AvalancheIs(h: u32, d: nat, e: nat, x: u32, q: nat, m: u32, d': nat, e': nat, x': u32, q': nat, m': u32,
        d'': nat, e'': nat)
    requires h == d * 0x8000 + e && e < 0x8000 && Xor(h, d) == x && x * 0x85EBCA77 == q * 0x1_0000_0000 + m
    requires m == d' * 0x2000 + e' && e' < 0x2000 && Xor(m, d') == x' && x' * 0xC2B2AE3D == q' * 0x1_0000_0000 + m'
    requires m' == d'' * 0x1_0000 + e'' && e'' < 0x1_0000
    ensures Avalanche(h) == Xor(m', d'')
  {
    hide Xor, Pow2;
    assert Pow2(15) == 0x8000 && Pow2(13) == 0x2000 && Pow2(16) == 0x1_0000 by { PowersOfTwo(); }
    ShiftIs(h, 15, d, e);
    Wraps32(x * PRIME2, q, m);
    ShiftIs(m, 13, d', e');
    Wraps32(x' * PRIME3, q', m');
    ShiftIs(m', 16, d'', e'');
  }

  lemma Tail4Is(h: u32, data: seq<byte>, pos: nat, w: u32, q: nat, r: u32, c: nat, x: u32, hi: nat, lo: nat, y: u32,
        q': nat, h': u32)
    requires pos + 4 <= |data| && ReadLE32(data, pos) == w && w * 0xC2B2AE3D == q * 0x1_0000_0000 + r
          && h + r == c * 0x1_0000_0000 + x
    requires x == hi * 0x8000 + lo && lo < 0x8000 && y == lo * 0x2_0000 + hi
          && y * 0x27D4EB2F == q' * 0x1_0000_0000 + h'
    ensures Moves(data, h, pos, h', pos + 4)
  {
    hide Rotl32, Pow2, LE;
    var p := data[pos..];
    assert p[0..4] == data[pos..pos + 4] && p[4..] == data[pos + 4..];
    assert Pow2(17) == 0x2_0000 && Pow2(15) == 0x8000 by { PowersOfTwo(); }
    Rotl32Parts(x, 17, hi, lo);
    Wraps32(w * PRIME3, q, r);
    Wraps32(h + r, c, x);
    Wraps32(y * PRIME4, q', h');
    assert Process4(h, p) == h';
  }

  lemma Tail1Is(h: u32, data: seq<byte>, pos: nat, b: byte, q: nat, r: u32, c: nat, x: u32, hi: nat, lo: nat, y: u32,
        q': nat, h': u32)
    requires pos < |data| < pos + 4 && data[pos] == b && b * 0x165667B1 == q * 0x1_0000_0000 + r
          && h + r == c * 0x1_0000_0000 + x
    requires x == hi * 0x20_0000 + lo && lo < 0x20_0000 && y == lo * 0x800 + hi
          && y * 0x9E3779B1 == q' * 0x1_0000_0000 + h'
    ensures Moves(data, h, pos, h', pos + 1)
  {
    hide Rotl32, Pow2;
    var p := data[pos..];
    assert p[0] == b && p[1..] == data[pos + 1..];
    assert Pow2(11) == 0x800 && Pow2(21) == 0x20_0000 by { PowersOfTwo(); }
    Rotl32Parts(x, 11, hi, lo);
    Wraps32(b * PRIME5, q, r);
    Wraps32(h + r, c, x);
    Wraps32(y * PRIME1, q', h');
    assert Process1(h, p[0]) == h';
  }

  lemma HashOf(seed: u32, data: seq<byte>, g: u32, h: u32, t: u32)
    requires |data| >= STRIPE ==> Converge(AfterStripes(seed, data, |data| / STRIPE)) == g
    requires |data| < STRIPE ==> Add32(seed, PRIME5) == g
    requires Add32(g, |data|) == h && Moves(data, h, STRIPE * (|data| / STRIPE), t, |data|)
    ensures Hash(seed, data) == Avalanche(t)
  {
    hide Converge, AfterStripes, Avalanche, Add32;
    assert data[|data|..] == [];
  }

  lemma ShortIs(seed: u32, data: seq<byte>, c: nat, g: u32, c': nat, h: u32, t: u32)
    requires |data| < 16 && seed + 0x165667B1 == c * 0x1_0000_0000 + g && g + |data| == c' * 0x1_0000_0000 + h
          && Moves(data, h, 0, t, |data|)
    ensures Hash(seed, data) == Avalanche(t)
  {
    hide Moves, Avalanche, Hash;
    Wraps32(seed + PRIME5, c, g);
    Wraps32(g + |data|, c', h);
    HashOf(seed, data, g, h, t);
  }

  lemma LongIs(seed: u32, data: seq<byte>, n: nat, v1: u32, v2: u32, v3: u32, v4: u32, g: u32, c: nat, h: u32, t: u32)
    requires 0 < n && 16 * n <= |data| < 16 * n + 16
    requires LaneAt(seed, data, n, 0, v1) && LaneAt(seed, data, n, 1, v2) && LaneAt(seed, data, n, 2, v3)
          && LaneAt(seed, data, n, 3, v4)
    requires Converge(Lanes(v1, v2, v3, v4)) == g && g + |data| == c * 0x1_0000_0000 + h && Moves(data, h, 16 * n, t,
          |data|)
    ensures Hash(seed, data) == Avalanche(t)
  {
    hide Moves, Avalanche, AfterStripes, Converge, Hash;
    assert |data| / STRIPE == n;
    var l := AfterStripes(seed, data, n);
    assert l == Lanes(Lane(l, 0), Lane(l, 1), Lane(l, 2), Lane(l, 3));
    Wraps32(g + |data|, c, h);
    HashOf(seed, data, g, h, t);
  }

  // ----- the computations -----

  lemma End14()
    ensures ReadLE32(TestBuffer(14), 0) == 0x9B925200
    ensures ReadLE32(TestBuffer(14), 4) == 0x24A332B7
    ensures ReadLE32(TestBuffer(14), 8) == 0x95AF002D
    ensures TestBuffer(14)[12] == 0xE
    ensures TestBuffer(14)[13] == 0xEC
  {
    hide Pow2, Generator, TestBuffer, ReadLE64, ReadLE32;
    assert Pow2(32) == 0x100000000 && Pow2(40) == 0x10000000000 by {
      PowersOfTwo();
    }
    Buffer0(16);
    HalfLoads(TestBuffer(16), 0, 0x24A332B7, 0x9B925200);
    HalfLoads(TestBuffer(16), 8, 0x93B8EC0E, 0x95AF002D);
    Shorter(14, 16, 0);
    Shorter(14, 16, 4);
    Shorter(14, 16, 8);
    ByteOf(TestBuffer(16), 8, 4, 0x100000000, 0x93B8EC, 0xE, 0x95AF002D);
    SameByte(14, 16, 12);
    ByteOf(TestBuffer(16), 8, 5, 0x10000000000, 0x93B8, 0xEC, 0xE95AF002D);
    SameByte(14, 16, 13);
  }

  lemma End222()
    ensures ReadLE32(TestBuffer(222), 208) == 0xD0129FE0
    ensures ReadLE32(TestBuffer(222), 212) == 0x485414D5
    ensures ReadLE32(TestBuffer(222), 216) == 0x5140445D
    ensures TestBuffer(222)[220] == 0xE3
    ensures TestBuffer(222)[221] == 0x38
  {
    hide Pow2, Generator, TestBuffer, ReadLE64, ReadLE32;
    assert Pow2(32) == 0x100000000 && Pow2(40) == 0x10000000000 by {
      PowersOfTwo();
    }
    Buffer3(224);
    HalfLoads(TestBuffer(224), 208, 0x485414D5, 0xD0129FE0);
    HalfLoads(TestBuffer(224), 216, 0x9A0638E3, 0x5140445D);
    Shorter(222, 224, 208);
    Shorter(222, 224, 212);
    Shorter(222, 224, 216);
    ByteOf(TestBuffer(224), 216, 4, 0x100000000, 0x9A0638, 0xE3, 0x5140445D);
    SameByte(222, 224, 220);
    ByteOf(TestBuffer(224), 216, 5, 0x10000000000, 0x9A06, 0x38, 0xE35140445D);
    SameByte(222, 224, 221);
  }

  lemma Tail14At0()
    ensures Moves(TestBuffer(14), 0x165667BF, 0, 0x71AA6EF1, 4)
  {
    hide Xor, Pow2, Generator, TestBuffer, ReadLE64, ReadLE32, LE, Round, Tail, Process1, Process4, Absorb,
          AfterStripes, Converge, Avalanche, Rotl32, Lane, LaneAt, Moves;
    var data := TestBuffer(14);
    End14();
    Tail4Is(0x165667BF, data, 0, 0x9B925200, 0x765177C3, 0x89998A00, 0x0, 0x9FEFF1BF, 0x13FDF, 0x71BF, 0xE37F3FDF,
          0x2365991B, 0x71AA6EF1);
  }

  lemma Tail14At4()
    ensures Moves(TestBuffer(14), 0x71AA6EF1, 4, 0x530FB1C9, 8)
  {
    hide Xor, Pow2, Generator, TestBuffer, ReadLE64, ReadLE32, LE, Round, Tail, Process1, Process4, Absorb,
          AfterStripes, Converge, Avalanche, Rotl32, Lane, LaneAt, Moves;
    var data := TestBuffer(14);
    End14();
    Tail4Is(0x71AA6EF1, data, 4, 0x24A332B7, 0x1BDD3ED7, 0x9899779B, 0x1, 0xA43E68C, 0x1487, 0x668C, 0xCD181487,
          0x1FE93F7C, 0x530FB1C9);
  }

  lemma Tail14At8()
    ensures Moves(TestBuffer(14), 0x530FB1C9, 8, 0x8C980FCA, 12)
  {
    hide Xor, Pow2, Generator, TestBuffer, ReadLE64, ReadLE32, LE, Round, Tail, Process1, Process4, Absorb,
          AfterStripes, Converge, Avalanche, Rotl32, Lane, LaneAt, Moves;
    var data := TestBuffer(14);
    End14();
    Tail4Is(0x530FB1C9, data, 8, 0x95AF002D, 0x71D717B0, 0xD61BA0B9, 0x1, 0x292B5282, 0x5256, 0x5282, 0xA5045256,
          0x19ACE7B8, 0x8C980FCA);
  }

  lemma Tail14At12()
    ensures Moves(TestBuffer(14), 0x8C980FCA, 12, 0x74A3DD0A, 13)
  {
    hide Xor, Pow2, Generator, TestBuffer, ReadLE64, ReadLE32, LE, Round, Tail, Process1, Process4, Absorb,
          AfterStripes, Converge, Avalanche, Rotl32, Lane, LaneAt, Moves;
    var data := TestBuffer(14);
    End14();
    Tail1Is(0x8C980FCA, data, 12, 0xE, 0x1, 0x38B9ABAE, 0x0, 0xC551BB78, 0x62A, 0x11BB78, 0x8DDBC62A, 0x57AC61F4,
          0x74A3DD0A);
  }

  lemma Tail14At13()
    ensures Moves(TestBuffer(14), 0x74A3DD0A, 13, 0x283745C2, 14)
  {
    hide Xor, Pow2, Generator, TestBuffer, ReadLE64, ReadLE32, LE, Round, Tail, Process1, Process4, Absorb,
          AfterStripes, Converge, Avalanche, Rotl32, Lane, LaneAt, Moves;
    var data := TestBuffer(14);
    End14();
    Tail1Is(0x74A3DD0A, data, 13, 0xEC, 0x14, 0x97A7972C, 0x1, 0xC4B7436, 0x62, 0xB7436, 0x5BA1B062, 0x38A1A628,
          0x283745C2);
  }

  lemma Hash14()
    ensures Hash(0x0, TestBuffer(14)) == 0x1208E7E2
  {
    hide Xor, Pow2, Generator, TestBuffer, ReadLE64, ReadLE32, LE, Round, Tail, Process1, Process4, Absorb,
          AfterStripes, Converge, Avalanche, Rotl32, Lane, LaneAt, Moves, Hash;
    var data := TestBuffer(14);
    Tail14At0();
    Tail14At4();
    Onward(data, 0x165667BF, 0, 0x71AA6EF1, 4, 0x530FB1C9, 8);
    Tail14At8();
    Onward(data, 0x165667BF, 0, 0x530FB1C9, 8, 0x8C980FCA, 12);
    Tail14At12();
    Onward(data, 0x165667BF, 0, 0x8C980FCA, 12, 0x74A3DD0A, 13);
    Tail14At13();
    Onward(data, 0x165667BF, 0, 0x74A3DD0A, 13, 0x283745C2, 14);
    ShortIs(0x0, data, 0x0, 0x165667B1, 0x0, 0x165667BF, 0x283745C2);
    XorIs(0x00, 0x00, 0x00, 0x00, 0x28, 0x37, 0x45, 0xc2, 0x00, 0x00, 0x00, 0x00, 0x00, 0x00, 0x50, 0x6e);
    XorIs(0x00, 0x00, 0x00, 0x00, 0x69, 0x98, 0xca, 0xf4, 0x00, 0x00, 0x00, 0x00, 0x00, 0x03, 0x4c, 0xc6);
    XorIs(0x00, 0x00, 0x00, 0x00, 0x12, 0x08, 0xf5, 0xea, 0x00, 0x00, 0x00, 0x00, 0x00, 0x00, 0x12, 0x08);
    AvalancheIs(0x283745C2, 0x506E, 0x45C2, 0x283715AC, 0x1509A8A1, 0x6998CAF4, 0x34CC6, 0xAF4, 0x699B8632,
          0x505191B6, 0x1208F5EA, 0x1208, 0xF5EA);
  }

  lemma Tail14At0Seeded()
    ensures Moves(TestBuffer(14), 0xB48DE170, 0, 0x57EA6C52, 4)
  {
    hide Xor, Pow2, Generator, TestBuffer, ReadLE64, ReadLE32, LE, Round, Tail, Process1, Process4, Absorb,
          AfterStripes, Converge, Avalanche, Rotl32, Lane, LaneAt, Moves;
    var data := TestBuffer(14);
    End14();
    Tail4Is(0xB48DE170, data, 0, 0x9B925200, 0x765177C3, 0x89998A00, 0x1, 0x3E276B70, 0x7C4E, 0x6B70, 0xD6E07C4E,
          0x216EEA3E, 0x57EA6C52);
  }

  lemma Tail14At4Seeded()
    ensures Moves(TestBuffer(14), 0x57EA6C52, 4, 0xF3BBBD49, 8)
  {
    hide Xor, Pow2, Generator, TestBuffer, ReadLE64, ReadLE32, LE, Round, Tail, Process1, Process4, Absorb,
          AfterStripes, Converge, Avalanche, Rotl32, Lane, LaneAt, Moves;
    var data := TestBuffer(14);
    End14();
    Tail4Is(0x57EA6C52, data, 4, 0x24A332B7, 0x1BDD3ED7, 0x9899779B, 0x0, 0xF083E3ED, 0x1E107, 0x63ED, 0xC7DBE107,
          0x1F18B8F9, 0xF3BBBD49);
  }

  lemma Tail14At8Seeded()
    ensures Moves(TestBuffer(14), 0xF3BBBD49, 8, 0x71AED6F2, 12)
  {
    hide Xor, Pow2, Generator, TestBuffer, ReadLE64, ReadLE32, LE, Round, Tail, Process1, Process4, Absorb,
          AfterStripes, Converge, Avalanche, Rotl32, Lane, LaneAt, Moves;
    var data := TestBuffer(14);
    End14();
    Tail4Is(0xF3BBBD49, data, 8, 0x95AF002D, 0x71D717B0, 0xD61BA0B9, 0x1, 0xC9D75E02, 0x193AE, 0x5E02, 0xBC0593AE,
          0x1D413AD9, 0x71AED6F2);
  }

  lemma Tail14At12Seeded()
    ensures Moves(TestBuffer(14), 0x71AED6F2, 12, 0x60E1E963, 13)
  {
    hide Xor, Pow2, Generator, TestBuffer, ReadLE64, ReadLE32, LE, Round, Tail, Process1, Process4, Absorb,
          AfterStripes, Converge, Avalanche, Rotl32, Lane, LaneAt, Moves;
    var data := TestBuffer(14);
    End14();
    Tail1Is(0x71AED6F2, data, 12, 0xE, 0x1, 0x38B9ABAE, 0x0, 0xAA6882A0, 0x553, 0x882A0, 0x44150553, 0x2A13BA2A,
          0x60E1E963);
  }

  lemma Tail14At13Seeded()
    ensures Moves(TestBuffer(14), 0x60E1E963, 13, 0x1A9BFA84, 14)
  {
    hide Xor, Pow2, Generator, TestBuffer, ReadLE64, ReadLE32, LE, Round, Tail, Process1, Process4, Absorb,
          AfterStripes, Converge, Avalanche, Rotl32, Lane, LaneAt, Moves;
    var data := TestBuffer(14);
    End14();
    Tail1Is(0x60E1E963, data, 13, 0xEC, 0x14, 0x97A7972C, 0x0, 0xF889808F, 0x7C4, 0x9808F, 0x4C047FC4, 0x2EFB3FF5,
          0x1A9BFA84);
  }

  lemma Hash14Seeded()
    ensures Hash(0x9E3779B1, TestBuffer(14)) == 0x6AF1D1FE
  {
    hide Xor, Pow2, Generator, TestBuffer, ReadLE64, ReadLE32, LE, Round, Tail, Process1, Process4, Absorb,
          AfterStripes, Converge, Avalanche, Rotl32, Lane, LaneAt, Moves, Hash;
    var data := TestBuffer(14);
    Tail14At0Seeded();
    Tail14At4Seeded();
    Onward(data, 0xB48DE170, 0, 0x57EA6C52, 4, 0xF3BBBD49, 8);
    Tail14At8Seeded();
    Onward(data, 0xB48DE170, 0, 0xF3BBBD49, 8, 0x71AED6F2, 12);
    Tail14At12Seeded();
    Onward(data, 0xB48DE170, 0, 0x71AED6F2, 12, 0x60E1E963, 13);
    Tail14At13Seeded();
    Onward(data, 0xB48DE170, 0, 0x60E1E963, 13, 0x1A9BFA84, 14);
    ShortIs(0x9E3779B1, data, 0x0, 0xB48DE162, 0x0, 0xB48DE170, 0x1A9BFA84);
    XorIs(0x00, 0x00, 0x00, 0x00, 0x1a, 0x9b, 0xfa, 0x84, 0x00, 0x00, 0x00, 0x00, 0x00, 0x00, 0x35, 0x37);
    XorIs(0x00, 0x00, 0x00, 0x00, 0xf8, 0xa1, 0xca, 0x35, 0x00, 0x00, 0x00, 0x00, 0x00, 0x07, 0xc5, 0x0e);
    XorIs(0x00, 0x00, 0x00, 0x00, 0x6a, 0xf1, 0xbb, 0x0f, 0x00, 0x00, 0x00, 0x00, 0x00, 0x00, 0x6a, 0xf1);
    AvalancheIs(0x1A9BFA84, 0x3537, 0x7A84, 0x1A9BCFB3, 0xDEB74FA, 0xF8A1CA35, 0x7C50E, 0xA35, 0xF8A60F3B,
          0xBD1B643D, 0x6AF1BB0F, 0x6AF1, 0xBB0F);
  }

  lemma StartSeeded()
    ensures Lane(InitLanes(0x9E3779B1), 0) == 0xC25ABDD9
    ensures Lane(InitLanes(0x9E3779B1), 1) == 0x24234428
    ensures Lane(InitLanes(0x9E3779B1), 2) == 0x9E3779B1
    ensures Lane(InitLanes(0x9E3779B1), 3) == 0x0
  {
  }

  lemma Words0()
    ensures ReadLE32(TestBuffer(222), 0) == 0x9B925200
    ensures ReadLE32(TestBuffer(222), 16) == 0x93EFDFE3
    ensures ReadLE32(TestBuffer(222), 32) == 0xFCFFC059
    ensures ReadLE32(TestBuffer(222), 48) == 0xB38470B0
    ensures ReadLE32(TestBuffer(222), 64) == 0xC5E48DD
    ensures ReadLE32(TestBuffer(222), 80) == 0x86F1B08D
    ensures ReadLE32(TestBuffer(222), 96) == 0x973329D
    ensures ReadLE32(TestBuffer(222), 112) == 0xB3361A5E
    ensures ReadLE32(TestBuffer(222), 128) == 0xEB4934F3
    ensures ReadLE32(TestBuffer(222), 144) == 0xCD4209F1
    ensures ReadLE32(TestBuffer(222), 160) == 0xC2F4104B
    ensures ReadLE32(TestBuffer(222), 176) == 0x3763FDBF
    ensures ReadLE32(TestBuffer(222), 192) == 0x594500ED
  {
    hide TestBuffer, ReadLE64, ReadLE32, Generator;
    Buffer0(222);
    Buffer1(222);
    Buffer2(222);
    Buffer3(222);
    HalfLoads(TestBuffer(222), 0, 0x24A332B7, 0x9B925200);
    HalfLoads(TestBuffer(222), 16, 0x2ACDD6AA, 0x93EFDFE3);
    HalfLoads(TestBuffer(222), 32, 0x33B9858F, 0xFCFFC059);
    HalfLoads(TestBuffer(222), 48, 0x769F7C67, 0xB38470B0);
    HalfLoads(TestBuffer(222), 64, 0x65D0CB0C, 0xC5E48DD);
    HalfLoads(TestBuffer(222), 80, 0x56596108, 0x86F1B08D);
    HalfLoads(TestBuffer(222), 96, 0xD92F71EA, 0x973329D);
    HalfLoads(TestBuffer(222), 112, 0x51CA0F6B, 0xB3361A5E);
    HalfLoads(TestBuffer(222), 128, 0x923BD10F, 0xEB4934F3);
    HalfLoads(TestBuffer(222), 144, 0xA221B3F9, 0xCD4209F1);
    HalfLoads(TestBuffer(222), 160, 0x4AF8ECEF, 0xC2F4104B);
    HalfLoads(TestBuffer(222), 176, 0x9886E341, 0x3763FDBF);
    HalfLoads(TestBuffer(222), 192, 0xB64485C1, 0x594500ED);
  }

  lemma Lane0Seeded()
    ensures LaneAt(0x9E3779B1, TestBuffer(222), 13, 0, 0xBFB63472)
  {
    hide Xor, Pow2, Generator, TestBuffer, ReadLE64, ReadLE32, LE, Round, Tail, Process1, Process4, Absorb,
          AfterStripes, Converge, Avalanche, Rotl32, Lane, LaneAt, Moves, InitLanes;
    var data := TestBuffer(222);
    LaneStart(0x9E3779B1, data, 0);
    StartSeeded();
    Words0();
    RoundIs(0xC25ABDD9, 0x9B925200, 0x51624EF5, 0xBB81E00, 0x0, 0xCE12DBD9, 0x19C2, 0x2DBD9, 0x5B7B39C2, 0x3889E09B,
          0xA32DA122);
    LaneIs(0x9E3779B1, data, 0, 0, 0xC25ABDD9, 0x9B925200, 0xA32DA122);
    RoundIs(0xA32DA122, 0x93EFDFE3, 0x4D63E183, 0x7F8B3085, 0x1, 0x22B8D1A7, 0x457, 0xD1A7, 0x1A34E457, 0x103252BF,
          0xDF2FFF27);
    LaneIs(0x9E3779B1, data, 1, 0, 0xA32DA122, 0x93EFDFE3, 0xDF2FFF27);
    RoundIs(0xDF2FFF27, 0xFCFFC059, 0x8459E5CB, 0x375BA35F, 0x1, 0x168BA286, 0x2D1, 0x3A286, 0x7450C2D1, 0x47E30CE1,
          0x70D27B81);
    LaneIs(0x9E3779B1, data, 2, 0, 0xDF2FFF27, 0xFCFFC059, 0x70D27B81);
    RoundIs(0x70D27B81, 0xB38470B0, 0x5DE92718, 0xD50B41D0, 0x1, 0x45DDBD51, 0x8BB, 0x5BD51, 0xB7AA28BB, 0x7182D200,
          0x94138C4B);
    LaneIs(0x9E3779B1, data, 3, 0, 0x70D27B81, 0xB38470B0, 0x94138C4B);
    RoundIs(0x94138C4B, 0xC5E48DD, 0x678602F, 0xD93140BB, 0x1, 0x6D44CD06, 0xDA8, 0x4CD06, 0x99A0CDA8, 0x5EF28981,
          0x187A9928);
    LaneIs(0x9E3779B1, data, 4, 0, 0x94138C4B, 0xC5E48DD, 0x187A9928);
    RoundIs(0x187A9928, 0x86F1B08D, 0x4697DB4F, 0xC217538B, 0x0, 0xDA91ECB3, 0x1B52, 0x1ECB3, 0x3D967B52, 0x261038B7,
          0xCFF305B2);
    LaneIs(0x9E3779B1, data, 5, 0, 0x187A9928, 0x86F1B08D, 0xCFF305B2);
    RoundIs(0xCFF305B2, 0x973329D, 0x4F18D84, 0x519B68FB, 0x1, 0x218E6EAD, 0x431, 0x66EAD, 0xCDD5A431, 0x7F367614,
          0xCFD8AEE1);
    LaneIs(0x9E3779B1, data, 6, 0, 0xCFF305B2, 0x973329D, 0xCFD8AEE1);
    RoundIs(0xCFD8AEE1, 0xB3361A5E, 0x5DC02C19, 0x93E6DB2, 0x0, 0xD9171C93, 0x1B22, 0x71C93, 0xE3927B22, 0x8CA5B8A5,
          0x4C83482);
    LaneIs(0x9E3779B1, data, 7, 0, 0xCFD8AEE1, 0xB3361A5E, 0x4C83482);
    RoundIs(0x4C83482, 0xEB4934F3, 0x7B15BECA, 0xFCE05AF5, 0x1, 0x1A88F77, 0x35, 0x8F77, 0x11EEE035, 0xB155139,
          0x2F8511A5);
    LaneIs(0x9E3779B1, data, 8, 0, 0x4C83482, 0xEB4934F3, 0x2F8511A5);
    RoundIs(0x2F8511A5, 0xCD4209F1, 0x6B605D1E, 0xDAC5C907, 0x1, 0xA4ADAAC, 0x149, 0x2DAAC, 0x5B558149, 0x38729094,
          0x64E8E479);
    LaneIs(0x9E3779B1, data, 9, 0, 0x2F8511A5, 0xCD4209F1, 0x64E8E479);
    RoundIs(0x64E8E479, 0xC2F4104B, 0x65FC5CB1, 0x2027C0DD, 0x0, 0x8510A556, 0x10A2, 0xA556, 0x14AAD0A2, 0xCC5E749,
          0xD584D202);
    LaneIs(0x9E3779B1, data, 10, 0, 0x64E8E479, 0xC2F4104B, 0xD584D202);
    RoundIs(0xD584D202, 0x3763FDBF, 0x1CF9F76C, 0xCF08A9C9, 0x1, 0xA48D7BCB, 0x1491, 0x57BCB, 0xAF797491, 0x6C72FC73,
          0x44392141);
    LaneIs(0x9E3779B1, data, 11, 0, 0xD584D202, 0x3763FDBF, 0x44392141);
    RoundIs(0x44392141, 0x594500ED, 0x2EB3126C, 0xEC5D702B, 0x1, 0x3096916C, 0x612, 0x6916C, 0xD22D8612, 0x81E5A46F,
          0xBFB63472);
    LaneIs(0x9E3779B1, data, 12, 0, 0x44392141, 0x594500ED, 0xBFB63472);
  }

  lemma Words1()
    ensures ReadLE32(TestBuffer(222), 4) == 0x24A332B7
    ensures ReadLE32(TestBuffer(222), 20) == 0x2ACDD6AA
    ensures ReadLE32(TestBuffer(222), 36) == 0x33B9858F
    ensures ReadLE32(TestBuffer(222), 52) == 0x769F7C67
    ensures ReadLE32(TestBuffer(222), 68) == 0x65D0CB0C
    ensures ReadLE32(TestBuffer(222), 84) == 0x56596108
    ensures ReadLE32(TestBuffer(222), 100) == 0xD92F71EA
    ensures ReadLE32(TestBuffer(222), 116) == 0x51CA0F6B
    ensures ReadLE32(TestBuffer(222), 132) == 0x923BD10F
    ensures ReadLE32(TestBuffer(222), 148) == 0xA221B3F9
    ensures ReadLE32(TestBuffer(222), 164) == 0x4AF8ECEF
    ensures ReadLE32(TestBuffer(222), 180) == 0x9886E341
    ensures ReadLE32(TestBuffer(222), 196) == 0xB64485C1
  {
    hide TestBuffer, ReadLE64, ReadLE32, Generator;
    Buffer0(222);
    Buffer1(222);
    Buffer2(222);
    Buffer3(222);
    HalfLoads(TestBuffer(222), 0, 0x24A332B7, 0x9B925200);
    HalfLoads(TestBuffer(222), 16, 0x2ACDD6AA, 0x93EFDFE3);
    HalfLoads(TestBuffer(222), 32, 0x33B9858F, 0xFCFFC059);
    HalfLoads(TestBuffer(222), 48, 0x769F7C67, 0xB38470B0);
    HalfLoads(TestBuffer(222), 64, 0x65D0CB0C, 0xC5E48DD);
    HalfLoads(TestBuffer(222), 80, 0x56596108, 0x86F1B08D);
    HalfLoads(TestBuffer(222), 96, 0xD92F71EA, 0x973329D);
    HalfLoads(TestBuffer(222), 112, 0x51CA0F6B, 0xB3361A5E);
    HalfLoads(TestBuffer(222), 128, 0x923BD10F, 0xEB4934F3);
    HalfLoads(TestBuffer(222), 144, 0xA221B3F9, 0xCD4209F1);
    HalfLoads(TestBuffer(222), 160, 0x4AF8ECEF, 0xC2F4104B);
    HalfLoads(TestBuffer(222), 176, 0x9886E341, 0x3763FDBF);
    HalfLoads(TestBuffer(222), 192, 0xB64485C1, 0x594500ED);
  }

  lemma Lane1Seeded()
    ensures LaneAt(0x9E3779B1, TestBuffer(222), 13, 1, 0x64F144D2)
  {
    hide Xor, Pow2, Generator, TestBuffer, ReadLE64, ReadLE32, LE, Round, Tail, Process1, Process4, Absorb,
          AfterStripes, Converge, Avalanche, Rotl32, Lane, LaneAt, Moves, InitLanes;
    var data := TestBuffer(222);
    LaneStart(0x9E3779B1, data, 1);
    StartSeeded();
    Words1();
    RoundIs(0x24234428, 0x24A332B7, 0x132A8822, 0x6EDDF911, 0x0, 0x93013D39, 0x1260, 0x13D39, 0x27A73260, 0x1881C8DC,
          0x84093460);
    LaneIs(0x9E3779B1, data, 0, 1, 0x24234428, 0x24A332B7, 0x84093460);
    RoundIs(0x84093460, 0x2ACDD6AA, 0x16645D54, 0xB11EED06, 0x1, 0x35282166, 0x6A5, 0x2166, 0x42CC6A5, 0x2948A34,
          0x904C5515);
    LaneIs(0x9E3779B1, data, 1, 1, 0x84093460, 0x2ACDD6AA, 0x904C5515);
    RoundIs(0x904C5515, 0x33B9858F, 0x1B0F0699, 0x53E4EB79, 0x0, 0xE431408E, 0x1C86, 0x1408E, 0x2811DC86, 0x18C3B4FD,
          0x3A5ECEA6);
    LaneIs(0x9E3779B1, data, 2, 1, 0x904C5515, 0x33B9858F, 0x3A5ECEA6);
    RoundIs(0x3A5ECEA6, 0x769F7C67, 0x3E0E1DD9, 0xB1D919E1, 0x0, 0xEC37E887, 0x1D86, 0x7E887, 0xFD10FD86, 0x9C67536B,
          0x2C5D9FA6);
    LaneIs(0x9E3779B1, data, 3, 1, 0x3A5ECEA6, 0x769F7C67, 0x2C5D9FA6);
    RoundIs(0x2C5D9FA6, 0x65D0CB0C, 0x354340AD, 0xB449DA94, 0x0, 0xE0A77A3A, 0x1C14, 0x77A3A, 0xEF475C14, 0x93E1E4E7,
          0x4B281DD4);
    LaneIs(0x9E3779B1, data, 4, 1, 0x2C5D9FA6, 0x65D0CB0C, 0x4B281DD4);
    RoundIs(0x4B281DD4, 0x56596108, 0x2D2BF7BF, 0xE4746AB8, 0x1, 0x2F9C888C, 0x5F3, 0x4888C, 0x911185F3, 0x59A84065,
          0x56A27803);
    LaneIs(0x9E3779B1, data, 5, 1, 0x4B281DD4, 0x56596108, 0x56A27803);
    RoundIs(0x56A27803, 0xD92F71EA, 0x719DB080, 0x88BE97C6, 0x0, 0xDF610FC9, 0x1BEC, 0x10FC9, 0x21F93BEC, 0x14FF2FAD,
          0xD258FA2C);
    LaneIs(0x9E3779B1, data, 6, 1, 0x56A27803, 0xD92F71EA, 0xD258FA2C);
    RoundIs(0xD258FA2C, 0x51CA0F6B, 0x2AC94F2E, 0x335098BD, 0x1, 0x5A992E9, 0xB5, 0x192E9, 0x325D20B5, 0x1F206422,
          0x93BC2A25);
    LaneIs(0x9E3779B1, data, 7, 1, 0xD258FA2C, 0x51CA0F6B, 0x93BC2A25);
    RoundIs(0x93BC2A25, 0x923BD10F, 0x4C7FC42C, 0xE08903F9, 0x1, 0x74452E1E, 0xE88, 0x52E1E, 0xA5C3CE88, 0x6672C555,
          0x78381408);
    LaneIs(0x9E3779B1, data, 8, 1, 0x93BC2A25, 0x923BD10F, 0x78381408);
    RoundIs(0x78381408, 0xA221B3F9, 0x54D0D7AA, 0x884022BF, 0x1, 0x7836C7, 0xF, 0x36C7, 0x6D8E00F, 0x43B5622,
          0xA313015F);
    LaneIs(0x9E3779B1, data, 9, 1, 0x78381408, 0xA221B3F9, 0xA313015F);
    RoundIs(0xA313015F, 0x4AF8ECEF, 0x273860E4, 0xEF0FB919, 0x1, 0x9222BA78, 0x1244, 0x2BA78, 0x574F1244, 0x35F5B8C3,
          0xA1E9C504);
    LaneIs(0x9E3779B1, data, 10, 1, 0xA313015F, 0x4AF8ECEF, 0xA1E9C504);
    RoundIs(0xA1E9C504, 0x9886E341, 0x4FCA9084, 0xB7AFED37, 0x1, 0x5999B23B, 0xB33, 0x1B23B, 0x36476B33, 0x218BD74E,
          0xCB013943);
    LaneIs(0x9E3779B1, data, 11, 1, 0xA1E9C504, 0x9886E341, 0xCB013943);
    RoundIs(0xCB013943, 0xB64485C1, 0x5F597A8A, 0xD88F76B7, 0x1, 0xA390AFFA, 0x1472, 0xAFFA, 0x15FF5472, 0xD985A6E,
          0x64F144D2);
    LaneIs(0x9E3779B1, data, 12, 1, 0xCB013943, 0xB64485C1, 0x64F144D2);
  }

  lemma Words2()
    ensures ReadLE32(TestBuffer(222), 8) == 0x95AF002D
    ensures ReadLE32(TestBuffer(222), 24) == 0x3F5C8B53
    ensures ReadLE32(TestBuffer(222), 40) == 0xF774AB1D
    ensures ReadLE32(TestBuffer(222), 56) == 0xED720048
    ensures ReadLE32(TestBuffer(222), 72) == 0x8FB2AD3F
    ensures ReadLE32(TestBuffer(222), 88) == 0x784E8E6C
    ensures ReadLE32(TestBuffer(222), 104) == 0xF0559D7A
    ensures ReadLE32(TestBuffer(222), 120) == 0xC4A28BEF
    ensures ReadLE32(TestBuffer(222), 136) == 0xDB63A9A1
    ensures ReadLE32(TestBuffer(222), 152) == 0xF4C8F2EB
    ensures ReadLE32(TestBuffer(222), 168) == 0xC37438B5
    ensures ReadLE32(TestBuffer(222), 184) == 0xBA4CEB1A
    ensures ReadLE32(TestBuffer(222), 200) == 0x41F968C3
  {
    hide TestBuffer, ReadLE64, ReadLE32, Generator;
    Buffer0(222);
    Buffer1(222);
    Buffer2(222);
    Buffer3(222);
    HalfLoads(TestBuffer(222), 8, 0x93B8EC0E, 0x95AF002D);
    HalfLoads(TestBuffer(222), 24, 0xD56F5A54, 0x3F5C8B53);
    HalfLoads(TestBuffer(222), 40, 0x279305B6, 0xF774AB1D);
    HalfLoads(TestBuffer(222), 56, 0xE817987B, 0xED720048);
    HalfLoads(TestBuffer(222), 72, 0xE86CB011, 0x8FB2AD3F);
    HalfLoads(TestBuffer(222), 88, 0xABBD6313, 0x784E8E6C);
    HalfLoads(TestBuffer(222), 104, 0xE9D08ACA, 0xF0559D7A);
    HalfLoads(TestBuffer(222), 120, 0x9600ED62, 0xC4A28BEF);
    HalfLoads(TestBuffer(222), 136, 0xCF3DEDAA, 0xDB63A9A1);
    HalfLoads(TestBuffer(222), 152, 0xD1482FE4, 0xF4C8F2EB);
    HalfLoads(TestBuffer(222), 168, 0xE62A6A4, 0xC37438B5);
    HalfLoads(TestBuffer(222), 184, 0x87660356, 0xBA4CEB1A);
    HalfLoads(TestBuffer(222), 200, 0x87F9EAA9, 0x41F968C3);
  }

  lemma Lane2Seeded()
    ensures LaneAt(0x9E3779B1, TestBuffer(222), 13, 2, 0xB4802FBC)
  {
    hide Xor, Pow2, Generator, TestBuffer, ReadLE64, ReadLE32, LE, Round, Tail, Process1, Process4, Absorb,
          AfterStripes, Converge, Avalanche, Rotl32, Lane, LaneAt, Moves, InitLanes;
    var data := TestBuffer(222);
    LaneStart(0x9E3779B1, data, 2);
    StartSeeded();
    Words2();
    RoundIs(0x9E3779B1, 0x95AF002D, 0x4E4DC91E, 0x34CB96EB, 0x0, 0xD303109C, 0x1A60, 0x3109C, 0x62139A60, 0x3C9D5A1C,
          0x7E251C60);
    LaneIs(0x9E3779B1, data, 0, 2, 0x9E3779B1, 0x95AF002D, 0x7E251C60);
    RoundIs(0x7E251C60, 0x3F5C8B53, 0x21257072, 0x7E254195, 0x0, 0xFC4A5DF5, 0x1F89, 0x25DF5, 0x4BBEBF89, 0x2ED02433,
          0x3BD92EB9);
    LaneIs(0x9E3779B1, data, 1, 2, 0x7E251C60, 0x3F5C8B53, 0x3BD92EB9);
    RoundIs(0x3BD92EB9, 0xF774AB1D, 0x817388B4, 0x3ADF6C7B, 0x0, 0x76B89B34, 0xED7, 0x9B34, 0x13668ED7, 0xBFD806A,
          0x459D61A7);
    LaneIs(0x9E3779B1, data, 2, 2, 0x3BD92EB9, 0xF774AB1D, 0x459D61A7);
    RoundIs(0x459D61A7, 0xED720048, 0x7C36ED95, 0xFE4EF178, 0x1, 0x43EC531F, 0x87D, 0x4531F, 0x8A63E87D, 0x5587A6BD,
          0xD1D36D);
    LaneIs(0x9E3779B1, data, 3, 2, 0x459D61A7, 0xED720048, 0xD1D36D);
    RoundIs(0xD1D36D, 0x8FB2AD3F, 0x4B2C2EAC, 0x8C973E49, 0x0, 0x8D6911B6, 0x11AD, 0x111B6, 0x2236D1AD, 0x15253F73,
          0x632CBD9D);
    LaneIs(0x9E3779B1, data, 4, 2, 0xD1D36D, 0x8FB2AD3F, 0x632CBD9D);
    RoundIs(0x632CBD9D, 0x784E8E6C, 0x3EEF9F40, 0xC2096C34, 0x1, 0x253629D1, 0x4A6, 0x629D1, 0xC53A24A6, 0x79E49FDD,
          0x2C2FCCC6);
    LaneIs(0x9E3779B1, data, 5, 2, 0x632CBD9D, 0x784E8E6C, 0x2C2FCCC6);
    RoundIs(0x2C2FCCC6, 0xF0559D7A, 0x7DB9D77B, 0x370C77B6, 0x0, 0x633C447C, 0xC67, 0x4447C, 0x888F8C67, 0x54663069,
          0xBDC237);
    LaneIs(0x9E3779B1, data, 6, 2, 0x2C2FCCC6, 0xF0559D7A, 0xBDC237);
    RoundIs(0xBDC237, 0xC4A28BEF, 0x66DD8F6D, 0x495EA219, 0x0, 0x4A1C6450, 0x943, 0x46450, 0x8C8A0943, 0x56DBA62D,
          0xC1361253);
    LaneIs(0x9E3779B1, data, 7, 2, 0xBDC237, 0xC4A28BEF, 0xC1361253);
    RoundIs(0xC1361253, 0xDB63A9A1, 0x72C4D91F, 0xFAF7E3D7, 0x1, 0xBC2DF62A, 0x1785, 0x5F62A, 0xBEC55785, 0x75E72319,
          0x10625FF5);
    LaneIs(0x9E3779B1, data, 8, 2, 0xC1361253, 0xDB63A9A1, 0x10625FF5);
    RoundIs(0x10625FF5, 0xF4C8F2EB, 0x800DDC43, 0x6DCF593D, 0x0, 0x7E31B932, 0xFC6, 0x1B932, 0x37264FC6, 0x221598AE,
          0x94BBBDE6);
    LaneIs(0x9E3779B1, data, 9, 2, 0x10625FF5, 0xF4C8F2EB, 0x94BBBDE6);
    RoundIs(0x94BBBDE6, 0xC37438B5, 0x663F67BA, 0xA6EC2E23, 0x1, 0x3BA7EC09, 0x774, 0x7EC09, 0xFD812774, 0x9CACA59A,
          0x63DE1B34);
    LaneIs(0x9E3779B1, data, 10, 2, 0x94BBBDE6, 0xC37438B5, 0x63DE1B34);
    RoundIs(0x63DE1B34, 0xBA4CEB1A, 0x61758E17, 0x9E21CD16, 0x1, 0x1FFE84A, 0x3F, 0x7E84A, 0xFD09403F, 0x9C628AEC,
          0x24C328F);
    LaneIs(0x9E3779B1, data, 11, 2, 0x63DE1B34, 0xBA4CEB1A, 0x24C328F);
    RoundIs(0x24C328F, 0x41F968C3, 0x2283578D, 0xF19A90A5, 0x0, 0xF3E6C334, 0x1E7C, 0x6C334, 0xD8669E7C, 0x85BE3ABA,
          0xB4802FBC);
    LaneIs(0x9E3779B1, data, 12, 2, 0x24C328F, 0x41F968C3, 0xB4802FBC);
  }

  lemma Words3()
    ensures ReadLE32(TestBuffer(222), 12) == 0x93B8EC0E
    ensures ReadLE32(TestBuffer(222), 28) == 0xD56F5A54
    ensures ReadLE32(TestBuffer(222), 44) == 0x279305B6
    ensures ReadLE32(TestBuffer(222), 60) == 0xE817987B
    ensures ReadLE32(TestBuffer(222), 76) == 0xE86CB011
    ensures ReadLE32(TestBuffer(222), 92) == 0xABBD6313
    ensures ReadLE32(TestBuffer(222), 108) == 0xE9D08ACA
    ensures ReadLE32(TestBuffer(222), 124) == 0x9600ED62
    ensures ReadLE32(TestBuffer(222), 140) == 0xCF3DEDAA
    ensures ReadLE32(TestBuffer(222), 156) == 0xD1482FE4
    ensures ReadLE32(TestBuffer(222), 172) == 0xE62A6A4
    ensures ReadLE32(TestBuffer(222), 188) == 0x87660356
    ensures ReadLE32(TestBuffer(222), 204) == 0x87F9EAA9
  {
    hide TestBuffer, ReadLE64, ReadLE32, Generator;
    Buffer0(222);
    Buffer1(222);
    Buffer2(222);
    Buffer3(222);
    HalfLoads(TestBuffer(222), 8, 0x93B8EC0E, 0x95AF002D);
    HalfLoads(TestBuffer(222), 24, 0xD56F5A54, 0x3F5C8B53);
    HalfLoads(TestBuffer(222), 40, 0x279305B6, 0xF774AB1D);
    HalfLoads(TestBuffer(222), 56, 0xE817987B, 0xED720048);
    HalfLoads(TestBuffer(222), 72, 0xE86CB011, 0x8FB2AD3F);
    HalfLoads(TestBuffer(222), 88, 0xABBD6313, 0x784E8E6C);
    HalfLoads(TestBuffer(222), 104, 0xE9D08ACA, 0xF0559D7A);
    HalfLoads(TestBuffer(222), 120, 0x9600ED62, 0xC4A28BEF);
    HalfLoads(TestBuffer(222), 136, 0xCF3DEDAA, 0xDB63A9A1);
    HalfLoads(TestBuffer(222), 152, 0xD1482FE4, 0xF4C8F2EB);
    HalfLoads(TestBuffer(222), 168, 0xE62A6A4, 0xC37438B5);
    HalfLoads(TestBuffer(222), 184, 0x87660356, 0xBA4CEB1A);
    HalfLoads(TestBuffer(222), 200, 0x87F9EAA9, 0x41F968C3);
  }

  lemma Lane3Seeded()
    ensures LaneAt(0x9E3779B1, TestBuffer(222), 13, 3, 0xBF57BD62)
  {
    hide Xor, Pow2, Generator, TestBuffer, ReadLE64, ReadLE32, LE, Round, Tail, Process1, Process4, Absorb,
          AfterStripes, Converge, Avalanche, Rotl32, Lane, LaneAt, Moves, InitLanes;
    var data := TestBuffer(222);
    LaneStart(0x9E3779B1, data, 3);
    StartSeeded();
    Words3();
    RoundIs(0x0, 0x93B8EC0E, 0x4D472238, 0x8C12C682, 0x0, 0x8C12C682, 0x1182, 0x2C682, 0x58D05182, 0x36E3D147,
          0x9D7CCCE2);
    LaneIs(0x9E3779B1, data, 0, 3, 0x0, 0x93B8EC0E, 0x9D7CCCE2);
    RoundIs(0x9D7CCCE2, 0xD56F5A54, 0x6FA76FF2, 0xA325450C, 0x1, 0x40A211EE, 0x814, 0x211EE, 0x423DC814, 0x28F07C3F,
          0x5494C9D4);
    LaneIs(0x9E3779B1, data, 1, 3, 0x9D7CCCE2, 0xD56F5A54, 0x5494C9D4);
    RoundIs(0x5494C9D4, 0x279305B6, 0x14B3D53A, 0x33EB439A, 0x0, 0x88800D6E, 0x1110, 0xD6E, 0x1ADD110, 0x109A42C,
          0x1B6E1C10);
    LaneIs(0x9E3779B1, data, 2, 3, 0x5494C9D4, 0x279305B6, 0x1B6E1C10);
    RoundIs(0x1B6E1C10, 0xE817987B, 0x796A076F, 0x6131EF2D, 0x0, 0x7CA00B3D, 0xF94, 0xB3D, 0x167AF94, 0xDE4C4F,
          0xB795954);
    LaneIs(0x9E3779B1, data, 3, 3, 0x1B6E1C10, 0xE817987B, 0xB795954);
    RoundIs(0xB795954, 0xE86CB011, 0x79968B10, 0x420E41E7, 0x0, 0x4D879B3B, 0x9B0, 0x79B3B, 0xF36769B0, 0x966E9226,
          0x804442B0);
    LaneIs(0x9E3779B1, data, 4, 3, 0xB795954, 0xE86CB011, 0x804442B0);
    RoundIs(0x804442B0, 0xABBD6313, 0x59D79326, 0x16A70BD5, 0x0, 0x96EB4E85, 0x12DD, 0x34E85, 0x69D0B2DD, 0x4165BC87,
          0xA1511FCD);
    LaneIs(0x9E3779B1, data, 5, 3, 0x804442B0, 0xABBD6313, 0xA1511FCD);
    RoundIs(0xA1511FCD, 0xE9D08ACA, 0x7A50B375, 0x96E1E7E6, 0x1, 0x383307B3, 0x706, 0x307B3, 0x60F66706, 0x3BED169D,
          0x57591126);
    LaneIs(0x9E3779B1, data, 6, 3, 0xA1511FCD, 0xE9D08ACA, 0x57591126);
    RoundIs(0x57591126, 0x9600ED62, 0x4E78A4D0, 0x48B3AC8E, 0x0, 0xA00CBDB4, 0x1401, 0x4BDB4, 0x97B69401, 0x5DC38FB0,
          0x9B67CDB1);
    LaneIs(0x9E3779B1, data, 7, 3, 0x57591126, 0x9600ED62, 0x9B67CDB1);
    RoundIs(0x9B67CDB1, 0xCF3DEDAA, 0x6C6A0E39, 0xB05F9E06, 0x1, 0x4BC76BB7, 0x978, 0x76BB7, 0xED76E978, 0x92C2D985,
          0x9C5923F8);
    LaneIs(0x9E3779B1, data, 8, 3, 0x9B67CDB1, 0xCF3DEDAA, 0x9C5923F8);
    RoundIs(0x9C5923F8, 0xD1482FE4, 0x6D7B43A9, 0xA8A42AFC, 0x1, 0x44FD4EF4, 0x89F, 0x54EF4, 0xA9DE889F, 0x68FC27E1,
          0x1D989CEF);
    LaneIs(0x9E3779B1, data, 9, 3, 0x9C5923F8, 0xD1482FE4, 0x1D989CEF);
    RoundIs(0x1D989CEF, 0xE62A6A4, 0x7868082, 0xB3E4DE3C, 0x0, 0xD17D7B2B, 0x1A2F, 0x57B2B, 0xAF657A2F, 0x6C66A396,
          0x7E02B17F);
    LaneIs(0x9E3779B1, data, 10, 3, 0x1D989CEF, 0xE62A6A4, 0x7E02B17F);
    RoundIs(0x7E02B17F, 0x87660356, 0x46D4B576, 0x2CFF68FA, 0x0, 0xAB021A79, 0x1560, 0x21A79, 0x434F3560, 0x299978F4,
          0xB19E4760);
    LaneIs(0x9E3779B1, data, 11, 3, 0x7E02B17F, 0x87660356, 0xB19E4760);
    RoundIs(0xB19E4760, 0x87F9EAA9, 0x472214DE, 0x9E786E8F, 0x1, 0x5016B5EF, 0xA02, 0x6B5EF, 0xD6BDEA02, 0x84B7BF4E,
          0xBF57BD62);
    LaneIs(0x9E3779B1, data, 12, 3, 0xB19E4760, 0x87F9EAA9, 0xBF57BD62);
  }

  lemma TogetherSeeded()
    ensures Converge(Lanes(0xBFB63472, 0x64F144D2, 0xB4802FBC, 0xBF57BD62)) == 0xF0959ABD
  {
    hide Xor, Pow2, Generator, TestBuffer, ReadLE64, ReadLE32, LE, Round, Tail, Process1, Process4, Absorb,
          AfterStripes, Converge, Avalanche, Rotl32, Lane, LaneAt, Moves, Hash;
    assert Pow2(1) == 0x2 && Pow2(7) == 0x80 && Pow2(12) == 0x1000 && Pow2(14) == 0x4000 && Pow2(18) == 0x40000
          && Pow2(20) == 0x100000 && Pow2(25) == 0x2000000 && Pow2(31) == 0x80000000 by {
      PowersOfTwo();
    }
    TurnIs(0xBFB63472, 1, 0x1, 0x3FB63472, 0x2, 0x80000000, 0x7F6C68E5);
    TurnIs(0x64F144D2, 7, 0x32, 0xF144D2, 0x80, 0x2000000, 0x78A26932);
    TurnIs(0xB4802FBC, 12, 0xB48, 0x2FBC, 0x1000, 0x100000, 0x2FBCB48);
    TurnIs(0xBF57BD62, 18, 0x2FD5E, 0x3D62, 0x40000, 0x4000, 0xF58AFD5E);
    ConvergeIs(Lanes(0xBFB63472, 0x64F144D2, 0xB4802FBC, 0xBF57BD62), 0x7F6C68E5, 0x78A26932, 0x2FBCB48, 0xF58AFD5E,
          0x0, 0xF80ED217, 0x0, 0xF886C8A6, 0x1, 0xF0959ABD);
  }

  lemma Tail222At208Seeded()
    ensures Moves(TestBuffer(222), 0xF0959B9B, 208, 0x5CE54FF1, 212)
  {
    hide Xor, Pow2, Generator, TestBuffer, ReadLE64, ReadLE32, LE, Round, Tail, Process1, Process4, Absorb,
          AfterStripes, Converge, Avalanche, Rotl32, Lane, LaneAt, Moves;
    var data := TestBuffer(222);
    End222();
    Tail4Is(0xF0959B9B, data, 208, 0xD0129FE0, 0x9E3F57B9, 0x26DA5860, 0x1, 0x176FF3FB, 0x2EDF, 0x73FB, 0xE7F62EDF,
          0x24176E1C, 0x5CE54FF1);
  }

  lemma Tail222At212Seeded()
    ensures Moves(TestBuffer(222), 0x5CE54FF1, 212, 0x2C089DFE, 216)
  {
    hide Xor, Pow2, Generator, TestBuffer, ReadLE64, ReadLE32, LE, Round, Tail, Process1, Process4, Absorb,
          AfterStripes, Converge, Avalanche, Rotl32, Lane, LaneAt, Moves;
    var data := TestBuffer(222);
    End222();
    Tail4Is(0x5CE54FF1, data, 212, 0x485414D5, 0x3702337A, 0x484BBCC1, 0x0, 0xA5310CB2, 0x14A62, 0xCB2, 0x19654A62,
          0x3F38D8B, 0x2C089DFE);
  }

  lemma Tail222At216Seeded()
    ensures Moves(TestBuffer(222), 0x2C089DFE, 216, 0x73FD16CC, 220)
  {
    hide Xor, Pow2, Generator, TestBuffer, ReadLE64, ReadLE32, LE, Round, Tail, Process1, Process4, Absorb,
          AfterStripes, Converge, Avalanche, Rotl32, Lane, LaneAt, Moves;
    var data := TestBuffer(222);
    End222();
    Tail4Is(0x2C089DFE, data, 216, 0x5140445D, 0x3DCB69CB, 0xD718029, 0x0, 0x397A1E27, 0x72F4, 0x1E27, 0x3C4E72F4,
          0x9621BE1, 0x73FD16CC);
  }

  lemma Tail222At220Seeded()
    ensures Moves(TestBuffer(222), 0x73FD16CC, 220, 0xADE15BD4, 221)
  {
    hide Xor, Pow2, Generator, TestBuffer, ReadLE64, ReadLE32, LE, Round, Tail, Process1, Process4, Absorb,
          AfterStripes, Converge, Avalanche, Rotl32, Lane, LaneAt, Moves;
    var data := TestBuffer(222);
    End222();
    Tail1Is(0x73FD16CC, data, 220, 0xE3, 0x13, 0xCE9DF1F3, 0x1, 0x429B08BF, 0x214, 0x1B08BF, 0xD845FA14, 0x85AA0E2F,
          0xADE15BD4);
  }

  lemma Tail222At221Seeded()
    ensures Moves(TestBuffer(222), 0xADE15BD4, 221, 0xAAA6D6A6, 222)
  {
    hide Xor, Pow2, Generator, TestBuffer, ReadLE64, ReadLE32, LE, Round, Tail, Process1, Process4, Absorb,
          AfterStripes, Converge, Avalanche, Rotl32, Lane, LaneAt, Moves;
    var data := TestBuffer(222);
    End222();
    Tail1Is(0xADE15BD4, data, 221, 0x38, 0x4, 0xE2E6AEB8, 0x1, 0x90C80A8C, 0x486, 0x80A8C, 0x40546486, 0x27C206C0,
          0xAAA6D6A6);
  }

  lemma Tail222Seeded()
    ensures Moves(TestBuffer(222), 0xF0959B9B, 208, 0xAAA6D6A6, 222)
  {
    hide Xor, Pow2, Generator, TestBuffer, ReadLE64, ReadLE32, LE, Round, Tail, Process1, Process4, Absorb,
          AfterStripes, Converge, Avalanche, Rotl32, Lane, LaneAt, Moves;
    var data := TestBuffer(222);
    Tail222At208Seeded();
    Tail222At212Seeded();
    Onward(data, 0xF0959B9B, 208, 0x5CE54FF1, 212, 0x2C089DFE, 216);
    Tail222At216Seeded();
    Onward(data, 0xF0959B9B, 208, 0x2C089DFE, 216, 0x73FD16CC, 220);
    Tail222At220Seeded();
    Onward(data, 0xF0959B9B, 208, 0x73FD16CC, 220, 0xADE15BD4, 221);
    Tail222At221Seeded();
    Onward(data, 0xF0959B9B, 208, 0xADE15BD4, 221, 0xAAA6D6A6, 222);
  }

  lemma Hash222Seeded()
    ensures Hash(0x9E3779B1, TestBuffer(222)) == 0x58803C5F
  {
    hide Xor, Pow2, Generator, TestBuffer, ReadLE64, ReadLE32, LE, Round, Tail, Process1, Process4, Absorb,
          AfterStripes, Converge, Avalanche, Rotl32, Lane, LaneAt, Moves, Hash;
    var data := TestBuffer(222);
    Lane0Seeded();
    Lane1Seeded();
    Lane2Seeded();
    Lane3Seeded();
    TogetherSeeded();
    Tail222Seeded();
    LongIs(0x9E3779B1, data, 13, 0xBFB63472, 0x64F144D2, 0xB4802FBC, 0xBF57BD62, 0xF0959ABD, 0x0, 0xF0959B9B,
          0xAAA6D6A6);
    XorIs(0x00, 0x00, 0x00, 0x00, 0xaa, 0xa6, 0xd6, 0xa6, 0x00, 0x00, 0x00, 0x00, 0x00, 0x01, 0x55, 0x4d);
    XorIs(0x00, 0x00, 0x00, 0x00, 0xb1, 0xae, 0xc0, 0x3d, 0x00, 0x00, 0x00, 0x00, 0x00, 0x05, 0x8d, 0x76);
    XorIs(0x00, 0x00, 0x00, 0x00, 0x58, 0x80, 0x64, 0xdf, 0x00, 0x00, 0x00, 0x00, 0x00, 0x00, 0x58, 0x80);
    AvalancheIs(0xAAA6D6A6, 0x1554D, 0x56A6, 0xAAA783EB, 0x59463646, 0xB1AEC03D, 0x58D76, 0x3D, 0xB1AB4D4B,
          0x871FD29B, 0x588064DF, 0x5880, 0x64DF);
  }

  /** xxhsum.c lines 1231 to 1234. */
  lemma KnownHashes()
    ensures Hash(0, TestBuffer(14)) == 0x1208E7E2 && Hash(0x9E3779B1, TestBuffer(14)) == 0x6AF1D1FE
    ensures Hash(0x9E3779B1, TestBuffer(222)) == 0x58803C5F
  {
    hide Hash, TestBuffer, Generator;
    Hash14();
    Hash14Seeded();
    Hash222Seeded();
  }
}
