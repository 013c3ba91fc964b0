/** The hashes that the self-test states for XXH64, worked out from the specification. Every literal below
    is an intermediate value of one computation; the last lemma states the values themselves. */
module KnownXxh64 {
  import opened Words
  import opened Bits
  import opened Xxh64
  import opened Xxh64Distinct
  import opened KnownWords

  // ----- the steps, on given words; products and sums with their carries -----

  lemma RoundIs(acc: u64, input: u64, q: nat, p: u64, c: nat, s: u64, hi: nat, lo: nat, r: u64, q': nat, y: u64)
    requires input * 0xC2B2AE3D27D4EB4F == q * 0x1_0000_0000_0000_0000 + p
          && acc + p == c * 0x1_0000_0000_0000_0000 + s && s == hi * 0x2_0000_0000 + lo && lo < 0x2_0000_0000
    requires r == lo * 0x8000_0000 + hi && r * 0x9E3779B185EBCA87 == q' * 0x1_0000_0000_0000_0000 + y
    ensures Round(acc, input) == y
  {
    hide Rotl64, Pow2;
    Wraps(input * PRIME2, q, p);
    Wraps(acc + p, c, s);
    Wraps(r * PRIME1, q', y);
    assert Pow2(31) == 0x8000_0000 && Pow2(33) == 0x2_0000_0000 by { PowersOfTwo(); }
    Rotl64Parts(s, 31, hi, lo);
  }

  /** Lane `k` after `n` stripes. */
  ghost predicate LaneAt(seed: u64, data: seq<byte>, n: nat, k: nat, v: u64)
  {
    k < 4 && STRIPE * n <= |data| && Lane(AfterStripes(seed, data, n), k) == v
  }

  /** The tail from `pos` on with `h` in hand is the tail from `pos'` on with `h'`. */
  ghost predicate Moves(data: seq<byte>, h: u64, pos: nat, h': u64, pos': nat)
  {
    pos <= |data| && pos' <= |data| && Tail(h, data[pos..]) == Tail(h', data[pos'..])
  }

  lemma Onward(data: seq<byte>, h: u64, pos: nat, h': u64, pos': nat, h'': u64, pos'': nat)
    requires Moves(data, h, pos, h', pos') && Moves(data, h', pos', h'', pos'')
    ensures Moves(data, h, pos, h'', pos'')
  {
    hide Tail;
  }

  lemma LaneIs(seed: u64, data: seq<byte>, n: nat, k: nat, acc: u64, input: u64, y: u64)
    requires 32 * n + 32 <= |data| && LaneAt(seed, data, n, k, acc)
    requires ReadLE64(data, 32 * n + 8 * k) == input && Round(acc, input) == y
    ensures LaneAt(seed, data, n + 1, k, y)
  {
    hide Round, Lane, Absorb, ReadLE64, AfterStripes;
    Next(seed, data, n);
    AbsorbLane(AfterStripes(seed, data, n), data, STRIPE * n, k);
  }

  lemma LaneStart(seed: u64, data: seq<byte>, k: nat)
    requires k < 4
    ensures LaneAt(seed, data, 0, k, Lane(InitLanes(seed), k))
  {
  }

  lemma MergeIs(acc: u64, val: u64, r: u64, x: u64, q: nat, y: u64, c: nat, z: u64)
    requires Round(0, val) == r && Xor(acc, r) == x && x * 0x9E3779B185EBCA87 == q * 0x1_0000_0000_0000_0000 + y
          && y + 0x85EBCA77C2B2AE63 == c * 0x1_0000_0000_0000_0000 + z
    ensures MergeRound(acc, val) == z
  {
    hide Round, Xor;
    Wraps(x * PRIME1, q, y);
    Wraps(y + PRIME4, c, z);
  }

  lemma TurnIs(x: u64, n: nat, hi: nat, lo: nat, p: nat, m: nat, r: u64)
    requires 0 < n < 64 && Pow2(n) == p && Pow2(64 - n) == m && x == hi * m + lo && lo < m && r == lo * p + hi
    ensures Rotl64(x, n) == r
  {
    hide Rotl64, Pow2;
    Rotl64Parts(x, n, hi, lo);
  }

  lemma ConvergeIs(l: Lanes, r1: u64, r2: u64, r3: u64, r4: u64, c: nat, s: u64, c': nat, t: u64, c'': nat, h: u64,
                   h1: u64, h2: u64, h3: u64, h4: u64)
    requires Rotl64(l.v1, 1) == r1 && Rotl64(l.v2, 7) == r2 && Rotl64(l.v3, 12) == r3 && Rotl64(l.v4, 18) == r4
    requires r1 + r2 == c * 0x1_0000_0000_0000_0000 + s && r3 + r4 == c' * 0x1_0000_0000_0000_0000 + t
          && s + t == c'' * 0x1_0000_0000_0000_0000 + h
    requires MergeRound(h, l.v1) == h1 && MergeRound(h1, l.v2) == h2 && MergeRound(h2, l.v3) == h3 && MergeRound(h3,
          l.v4) == h4
    ensures Converge(l) == h4
  {
    hide Rotl64, MergeRound;
    Wraps(r1 + r2, c, s);
    Wraps(r3 + r4, c', t);
    Wraps(s + t, c'', h);
  }

  lemma AvalancheIs(h: u64, d: nat, e: nat, x: u64, q: nat, m: u64, d': nat, e': nat, x': u64, q': nat, m': u64,
        d'': nat, e'': nat)
    requires h == d * 0x2_0000_0000 + e && e < 0x2_0000_0000 && Xor(h, d) == x
          && x * 0xC2B2AE3D27D4EB4F == q * 0x1_0000_0000_0000_0000 + m
    requires m == d' * 0x2000_0000 + e' && e' < 0x2000_0000 && Xor(m, d') == x'
          && x' * 0x165667B19E3779F9 == q' * 0x1_0000_0000_0000_0000 + m'
    requires m' == d'' * 0x1_0000_0000 + e'' && e'' < 0x1_0000_0000
    ensures Avalanche(h) == Xor(m', d'')
  {
    hide Xor, Pow2;
    assert Pow2(33) == 0x2_0000_0000 && Pow2(29) == 0x2000_0000 && Pow2(32) == 0x1_0000_0000 by { PowersOfTwo(); }
    ShiftIs(h, 33, d, e);
    Wraps(x * PRIME2, q, m);
    ShiftIs(m, 29, d', e');
    Wraps(x' * PRIME3, q', m');
    ShiftIs(m', 32, d'', e'');
  }

  lemma Tail8Is(h: u64, data: seq<byte>, pos: nat, w: u64, r: u64, x: u64, hi: nat, lo: nat, y: u64, q: nat, z: u64,
        c: nat, h': u64)
    requires pos + 8 <= |data| && ReadLE64(data, pos) == w && Round(0, w) == r && Xor(h, r) == x
    requires x == hi * 0x20_0000_0000 + lo && lo < 0x20_0000_0000 && y == lo * 0x800_0000 + hi
    requires y * 0x9E3779B185EBCA87 == q * 0x1_0000_0000_0000_0000 + z
          && z + 0x85EBCA77C2B2AE63 == c * 0x1_0000_0000_0000_0000 + h'
    ensures Moves(data, h, pos, h', pos + 8)
  {
    hide Xor, Round, Rotl64, Pow2, LE;
    var p := data[pos..];
    assert p[0..8] == data[pos..pos + 8] && p[8..] == data[pos + 8..];
    assert Pow2(27) == 0x800_0000 && Pow2(37) == 0x20_0000_0000 by { PowersOfTwo(); }
    Rotl64Parts(x, 27, hi, lo);
    Wraps(y * PRIME1, q, z);
    Wraps(z + PRIME4, c, h');
    assert Process8(h, p) == h';
  }

  lemma Tail4Is(h: u64, data: seq<byte>, pos: nat, w: u32, q: nat, r: u64, x: u64, hi: nat, lo: nat, y: u64, q': nat,
        z: u64, c: nat, h': u64)
    requires pos + 4 <= |data| < pos + 8 && ReadLE32(data, pos) == w
          && w * 0x9E3779B185EBCA87 == q * 0x1_0000_0000_0000_0000 + r && Xor(h, r) == x
    requires x == hi * 0x200_0000_0000 + lo && lo < 0x200_0000_0000 && y == lo * 0x80_0000 + hi
    requires y * 0xC2B2AE3D27D4EB4F == q' * 0x1_0000_0000_0000_0000 + z
          && z + 0x165667B19E3779F9 == c * 0x1_0000_0000_0000_0000 + h'
    ensures Moves(data, h, pos, h', pos + 4)
  {
    hide Xor, Rotl64, Pow2, LE;
    var p := data[pos..];
    assert p[0..4] == data[pos..pos + 4] && p[4..] == data[pos + 4..];
    assert Pow2(23) == 0x80_0000 && Pow2(41) == 0x200_0000_0000 by { PowersOfTwo(); }
    Rotl64Parts(x, 23, hi, lo);
    Wraps(w * PRIME1, q, r);
    Wraps(y * PRIME2, q', z);
    Wraps(z + PRIME3, c, h');
    assert Process4(h, p) == h';
  }

  lemma Tail1Is(h: u64, data: seq<byte>, pos: nat, b: byte, q: nat, r: u64, x: u64, hi: nat, lo: nat, y: u64,
        q': nat, h': u64)
    requires pos < |data| < pos + 4 && data[pos] == b && b * 0x27D4EB2F165667C5 == q * 0x1_0000_0000_0000_0000 + r
          && Xor(h, r) == x
    requires x == hi * 0x20_0000_0000_0000 + lo && lo < 0x20_0000_0000_0000 && y == lo * 0x800 + hi
          && y * 0x9E3779B185EBCA87 == q' * 0x1_0000_0000_0000_0000 + h'
    ensures Moves(data, h, pos, h', pos + 1)
  {
    hide Xor, Rotl64, Pow2;
    var p := data[pos..];
    assert p[0] == b && p[1..] == data[pos + 1..];
    assert Pow2(11) == 0x800 && Pow2(53) == 0x20_0000_0000_0000 by { PowersOfTwo(); }
    Rotl64Parts(x, 11, hi, lo);
    Wraps(b * PRIME5, q, r);
    Wraps(y * PRIME1, q', h');
    assert Process1(h, p[0]) == h';
  }

  lemma HashOf(seed: u64, data: seq<byte>, g: u64, h: u64, t: u64)
    requires |data| >= STRIPE ==> Converge(AfterStripes(seed, data, |data| / STRIPE)) == g
    requires |data| < STRIPE ==> Add64(seed, PRIME5) == g
    requires Add64(g, |data|) == h && Moves(data, h, STRIPE * (|data| / STRIPE), t, |data|)
    ensures Hash(seed, data) == Avalanche(t)
  {
    hide Converge, AfterStripes, Avalanche, Add64;
    assert data[|data|..] == [];
  }

  lemma ShortIs(seed: u64, data: seq<byte>, c: nat, g: u64, c': nat, h: u64, t: u64)
    requires |data| < 32 && seed + 0x27D4EB2F165667C5 == c * 0x1_0000_0000_0000_0000 + g
          && g + |data| == c' * 0x1_0000_0000_0000_0000 + h && Moves(data, h, 0, t, |data|)
    ensures Hash(seed, data) == Avalanche(t)
  {
    hide Moves, Avalanche, Hash;
    Wraps(seed + PRIME5, c, g);
    Wraps(g + |data|, c', h);
    HashOf(seed, data, g, h, t);
  }

  lemma LongIs(seed: u64, data: seq<byte>, n: nat, v1: u64, v2: u64, v3: u64, v4: u64, g: u64, c: nat, h: u64, t: u64)
    requires 0 < n && 32 * n <= |data| < 32 * n + 32
    requires LaneAt(seed, data, n, 0, v1) && LaneAt(seed, data, n, 1, v2) && LaneAt(seed, data, n, 2, v3)
          && LaneAt(seed, data, n, 3, v4)
    requires Converge(Lanes(v1, v2, v3, v4)) == g && g + |data| == c * 0x1_0000_0000_0000_0000 + h && Moves(data, h,
          32 * n, t, |data|)
    ensures Hash(seed, data) == Avalanche(t)
  {
    hide Moves, Avalanche, AfterStripes, Converge, Hash;
    assert |data| / STRIPE == n;
    var l := AfterStripes(seed, data, n);
    assert l == Lanes(Lane(l, 0), Lane(l, 1), Lane(l, 2), Lane(l, 3));
    Wraps(g + |data|, c, h);
    HashOf(seed, data, g, h, t);
  }

  // ----- the computations -----

  lemma End14()
    ensures ReadLE32(TestBuffer(14), 8) == 0x95AF002D
    ensures TestBuffer(14)[12] == 0xE
    ensures TestBuffer(14)[13] == 0xEC
  {
    hide Pow2, Generator, TestBuffer, ReadLE64, ReadLE32;
    assert Pow2(32) == 0x100000000 && Pow2(40) == 0x10000000000 by {
      PowersOfTwo();
    }
    Buffer0(16);
    HalfLoads(TestBuffer(16), 8, 0x93B8EC0E, 0x95AF002D);
    Shorter(14, 16, 8);
    ByteOf(TestBuffer(16), 8, 4, 0x100000000, 0x93B8EC, 0xE, 0x95AF002D);
    SameByte(14, 16, 12);
    ByteOf(TestBuffer(16), 8, 5, 0x10000000000, 0x93B8, 0xEC, 0xE95AF002D);
    SameByte(14, 16, 13);
  }

  lemma End222()
    ensures ReadLE32(TestBuffer(222), 216) == 0x5140445D
    ensures TestBuffer(222)[220] == 0xE3
    ensures TestBuffer(222)[221] == 0x38
  {
    hide Pow2, Generator, TestBuffer, ReadLE64, ReadLE32;
    assert Pow2(32) == 0x100000000 && Pow2(40) == 0x10000000000 by {
      PowersOfTwo();
    }
    Buffer3(224);
    HalfLoads(TestBuffer(224), 216, 0x9A0638E3, 0x5140445D);
    Shorter(222, 224, 216);
    ByteOf(TestBuffer(224), 216, 4, 0x100000000, 0x9A0638, 0xE3, 0x5140445D);
    SameByte(222, 224, 220);
    ByteOf(TestBuffer(224), 216, 5, 0x10000000000, 0x9A06, 0x38, 0xE35140445D);
    SameByte(222, 224, 221);
  }

  lemma Keyed14At0()
    ensures Round(0, 0x24A332B79B925200) == 0x137EE5F04B9C74F7
  {
    hide Round;
    RoundIs(0x0, 0x24A332B79B925200, 0x1BDD3ED8149E44EB, 0xA044DC223B6D4E00, 0x0, 0xA044DC223B6D4E00, 0x50226E11,
          0x3B6D4E00, 0x1DB6A70050226E11, 0x125D2B70024A575C, 0x137EE5F04B9C74F7);
  }

  lemma Tail14At0()
    ensures Moves(TestBuffer(14), 0x27D4EB2F165667D3, 0, 0xF3EC4CE91CAF389D, 8)
  {
    hide Xor, Pow2, Generator, TestBuffer, ReadLE64, ReadLE32, LE, Round, Tail, Process1, Process4, Process8, Absorb,
          AfterStripes, Converge, MergeRound, Avalanche, Rotl64, Rotl32, Lane, LaneAt, Moves;
    var data := TestBuffer(14);
    Buffer0(14);
    Keyed14At0();
    XorIs(0x27, 0xd4, 0xeb, 0x2f, 0x16, 0x56, 0x67, 0xd3, 0x13, 0x7e, 0xe5, 0xf0, 0x4b, 0x9c, 0x74, 0xf7);
    Tail8Is(0x27D4EB2F165667D3, data, 0, 0x24A332B79B925200, 0x137EE5F04B9C74F7, 0x34AA0EDF5DCA1324, 0x1A55076,
          0x1F5DCA1324, 0xFAEE509921A55076, 0x9B15763A79CD4C1C, 0x6E00827159FC8A3A, 0x0, 0xF3EC4CE91CAF389D);
  }

  lemma Tail14At8()
    ensures Moves(TestBuffer(14), 0xF3EC4CE91CAF389D, 8, 0xB2CDC7820D3BD049, 12)
  {
    hide Xor, Pow2, Generator, TestBuffer, ReadLE64, ReadLE32, LE, Round, Tail, Process1, Process4, Process8, Absorb,
          AfterStripes, Converge, MergeRound, Avalanche, Rotl64, Rotl32, Lane, LaneAt, Moves;
    var data := TestBuffer(14);
    End14();
    XorIs(0xf3, 0xec, 0x4c, 0xe9, 0x1c, 0xaf, 0x38, 0x9d, 0x53, 0x0d, 0x2d, 0x44, 0x8f, 0xbb, 0x99, 0xbb);
    Tail4Is(0xF3EC4CE91CAF389D, data, 8, 0x95AF002D, 0x5C8271DC, 0x530D2D448FBB99BB, 0xA0E161AD9314A126, 0x5070B0,
          0x1AD9314A126, 0xD6C98A50935070B0, 0xA35AA523871D750D, 0x9C775FD06F045650, 0x0, 0xB2CDC7820D3BD049);
  }

  lemma Tail14At12()
    ensures Moves(TestBuffer(14), 0xB2CDC7820D3BD049, 12, 0x921865A8E984F65D, 13)
  {
    hide Xor, Pow2, Generator, TestBuffer, ReadLE64, ReadLE32, LE, Round, Tail, Process1, Process4, Process8, Absorb,
          AfterStripes, Converge, MergeRound, Avalanche, Rotl64, Rotl32, Lane, LaneAt, Moves;
    var data := TestBuffer(14);
    End14();
    XorIs(0xb2, 0xcd, 0xc7, 0x82, 0x0d, 0x3b, 0xd0, 0x49, 0x2d, 0xa4, 0xdc, 0x93, 0x38, 0xb9, 0xac, 0xc6);
    Tail1Is(0xB2CDC7820D3BD049, data, 12, 0xE, 0x2, 0x2DA4DC9338B9ACC6, 0x9F691B1135827C8F, 0x4FB, 0x91B1135827C8F,
          0x48D889AC13E47CFB, 0x2D056E1EA5246888, 0x921865A8E984F65D);
  }

  lemma Tail14At13()
    ensures Moves(TestBuffer(14), 0x921865A8E984F65D, 13, 0x697C492DD7979E3E, 14)
  {
    hide Xor, Pow2, Generator, TestBuffer, ReadLE64, ReadLE32, LE, Round, Tail, Process1, Process4, Process8, Absorb,
          AfterStripes, Converge, MergeRound, Avalanche, Rotl64, Rotl32, Lane, LaneAt, Moves;
    var data := TestBuffer(14);
    End14();
    XorIs(0x92, 0x18, 0x65, 0xa8, 0xe9, 0x84, 0xf6, 0x5d, 0xb8, 0x48, 0xcf, 0x68, 0x97, 0xa7, 0xa9, 0x9c);
    Tail1Is(0x921865A8E984F65D, data, 13, 0xEC, 0x24, 0xB848CF6897A7A99C, 0x2A50AAC07E235FC1, 0x152,
          0x10AAC07E235FC1, 0x855603F11AFE0952, 0x5267FB4BC58BC548, 0x697C492DD7979E3E);
  }

  lemma Hash14()
    ensures Hash(0x0, TestBuffer(14)) == 0x8282DCC4994E35C8
  {
    hide Xor, Pow2, Generator, TestBuffer, ReadLE64, ReadLE32, LE, Round, Tail, Process1, Process4, Process8, Absorb,
          AfterStripes, Converge, MergeRound, Avalanche, Rotl64, Rotl32, Lane, LaneAt, Moves, Hash;
    var data := TestBuffer(14);
    Tail14At0();
    Tail14At8();
    Onward(data, 0x27D4EB2F165667D3, 0, 0xF3EC4CE91CAF389D, 8, 0xB2CDC7820D3BD049, 12);
    Tail14At12();
    Onward(data, 0x27D4EB2F165667D3, 0, 0xB2CDC7820D3BD049, 12, 0x921865A8E984F65D, 13);
    Tail14At13();
    Onward(data, 0x27D4EB2F165667D3, 0, 0x921865A8E984F65D, 13, 0x697C492DD7979E3E, 14);
    ShortIs(0x0, data, 0x0, 0x27D4EB2F165667C5, 0x0, 0x27D4EB2F165667D3, 0x697C492DD7979E3E);
    XorIs(0x69, 0x7c, 0x49, 0x2d, 0xd7, 0x97, 0x9e, 0x3e, 0x00, 0x00, 0x00, 0x00, 0x34, 0xbe, 0x24, 0x96);
    XorIs(0xd2, 0xc2, 0xd8, 0xb6, 0x93, 0x58, 0xd1, 0xd8, 0x00, 0x00, 0x00, 0x06, 0x96, 0x16, 0xc5, 0xb4);
    XorIs(0x82, 0x82, 0xdc, 0xc4, 0x1b, 0xcc, 0xe9, 0x0c, 0x00, 0x00, 0x00, 0x00, 0x82, 0x82, 0xdc, 0xc4);
    AvalancheIs(0x697C492DD7979E3E, 0x34BE2496, 0x1D7979E3E, 0x697C492DE329BAA8, 0x5039CFAB54D1DDD4,
          0xD2C2D8B69358D1D8, 0x69616C5B4, 0x1358D1D8, 0xD2C2D8B0054E146C, 0x1263E1728BBF0FD6, 0x8282DCC41BCCE90C,
          0x8282DCC4, 0x1BCCE90C);
  }

  lemma Tail14At0Seeded()
    ensures Moves(TestBuffer(14), 0x27D4EB2FB48DE184, 0, 0x6504B55664AF389D, 8)
  {
    hide Xor, Pow2, Generator, TestBuffer, ReadLE64, ReadLE32, LE, Round, Tail, Process1, Process4, Process8, Absorb,
          AfterStripes, Converge, MergeRound, Avalanche, Rotl64, Rotl32, Lane, LaneAt, Moves;
    var data := TestBuffer(14);
    Buffer0(14);
    Keyed14At0();
    XorIs(0x27, 0xd4, 0xeb, 0x2f, 0xb4, 0x8d, 0xe1, 0x84, 0x13, 0x7e, 0xe5, 0xf0, 0x4b, 0x9c, 0x74, 0xf7);
    Tail8Is(0x27D4EB2FB48DE184, data, 0, 0x24A332B79B925200, 0x137EE5F04B9C74F7, 0x34AA0EDFFF119573, 0x1A55076,
          0x1FFF119573, 0xFFF88CAB99A55076, 0x9E32DEE61CF04D30, 0xDF18EADEA1FC8A3A, 0x1, 0x6504B55664AF389D);
  }

  lemma Tail14At8Seeded()
    ensures Moves(TestBuffer(14), 0x6504B55664AF389D, 8, 0x1141CA4FDDE538ED, 12)
  {
    hide Xor, Pow2, Generator, TestBuffer, ReadLE64, ReadLE32, LE, Round, Tail, Process1, Process4, Process8, Absorb,
          AfterStripes, Converge, MergeRound, Avalanche, Rotl64, Rotl32, Lane, LaneAt, Moves;
    var data := TestBuffer(14);
    End14();
    XorIs(0x65, 0x04, 0xb5, 0x56, 0x64, 0xaf, 0x38, 0x9d, 0x53, 0x0d, 0x2d, 0x44, 0x8f, 0xbb, 0x99, 0xbb);
    Tail4Is(0x6504B55664AF389D, data, 8, 0x95AF002D, 0x5C8271DC, 0x530D2D448FBB99BB, 0x36099812EB14A126, 0x1B04CC,
          0x12EB14A126, 0x9758A50931B04CC, 0x731ACFB61FE41B5, 0xFAEB629E3FADBEF4, 0x1, 0x1141CA4FDDE538ED);
  }

  lemma Tail14At12Seeded()
    ensures Moves(TestBuffer(14), 0x1141CA4FDDE538ED, 12, 0x81B1CB8F6C13AED1, 13)
  {
    hide Xor, Pow2, Generator, TestBuffer, ReadLE64, ReadLE32, LE, Round, Tail, Process1, Process4, Process8, Absorb,
          AfterStripes, Converge, MergeRound, Avalanche, Rotl64, Rotl32, Lane, LaneAt, Moves;
    var data := TestBuffer(14);
    End14();
    XorIs(0x11, 0x41, 0xca, 0x4f, 0xdd, 0xe5, 0x38, 0xed, 0x2d, 0xa4, 0xdc, 0x93, 0x38, 0xb9, 0xac, 0xc6);
    Tail1Is(0x1141CA4FDDE538ED, data, 12, 0xE, 0x2, 0x2DA4DC9338B9ACC6, 0x3CE516DCE55C942B, 0x1E7, 0x516DCE55C942B,
          0x28B6E72AE4A159E7, 0x1929B552D2585514, 0x81B1CB8F6C13AED1);
  }

  lemma Tail14At13Seeded()
    ensures Moves(TestBuffer(14), 0x81B1CB8F6C13AED1, 13, 0x2BA6FC0442502229, 14)
  {
    hide Xor, Pow2, Generator, TestBuffer, ReadLE64, ReadLE32, LE, Round, Tail, Process1, Process4, Process8, Absorb,
          AfterStripes, Converge, MergeRound, Avalanche, Rotl64, Rotl32, Lane, LaneAt, Moves;
    var data := TestBuffer(14);
    End14();
    XorIs(0x81, 0xb1, 0xcb, 0x8f, 0x6c, 0x13, 0xae, 0xd1, 0xb8, 0x48, 0xcf, 0x68, 0x97, 0xa7, 0xa9, 0x9c);
    Tail1Is(0x81B1CB8F6C13AED1, data, 13, 0xEC, 0x24, 0xB848CF6897A7A99C, 0x39F904E7FBB4074D, 0x1CF,
          0x1904E7FBB4074D, 0xC8273FDDA03A69CF, 0x7BB398FEDA892160, 0x2BA6FC0442502229);
  }

  lemma Hash14Seeded()
    ensures Hash(0x9E3779B1, TestBuffer(14)) == 0xC3BD6BF63DEB6DF0
  {
    hide Xor, Pow2, Generator, TestBuffer, ReadLE64, ReadLE32, LE, Round, Tail, Process1, Process4, Process8, Absorb,
          AfterStripes, Converge, MergeRound, Avalanche, Rotl64, Rotl32, Lane, LaneAt, Moves, Hash;
    var data := TestBuffer(14);
    Tail14At0Seeded();
    Tail14At8Seeded();
    Onward(data, 0x27D4EB2FB48DE184, 0, 0x6504B55664AF389D, 8, 0x1141CA4FDDE538ED, 12);
    Tail14At12Seeded();
    Onward(data, 0x27D4EB2FB48DE184, 0, 0x1141CA4FDDE538ED, 12, 0x81B1CB8F6C13AED1, 13);
    Tail14At13Seeded();
    Onward(data, 0x27D4EB2FB48DE184, 0, 0x81B1CB8F6C13AED1, 13, 0x2BA6FC0442502229, 14);
    ShortIs(0x9E3779B1, data, 0x0, 0x27D4EB2FB48DE176, 0x0, 0x27D4EB2FB48DE184, 0x2BA6FC0442502229);
    XorIs(0x2b, 0xa6, 0xfc, 0x04, 0x42, 0x50, 0x22, 0x29, 0x00, 0x00, 0x00, 0x00, 0x15, 0xd3, 0x7e, 0x02);
    XorIs(0xed, 0xa5, 0x6d, 0xbe, 0x77, 0xc0, 0xea, 0x45, 0x00, 0x00, 0x00, 0x07, 0x6d, 0x2b, 0x6d, 0xf3);
    XorIs(0xc3, 0xbd, 0x6b, 0xf6, 0xfe, 0x56, 0x06, 0x06, 0x00, 0x00, 0x00, 0x00, 0xc3, 0xbd, 0x6b, 0xf6);
    AvalancheIs(0x2BA6FC0442502229, 0x15D37E02, 0x42502229, 0x2BA6FC0457835C2B, 0x213302CC7236247F,
          0xEDA56DBE77C0EA45, 0x76D2B6DF3, 0x17C0EA45, 0xEDA56DB91AEB87B6, 0x14BC6D4335E53916, 0xC3BD6BF6FE560606,
          0xC3BD6BF6, 0xFE560606);
  }

  lemma Start()
    ensures Lane(InitLanes(0x0), 0) == 0x60EA27EEADC0B5D6
    ensures Lane(InitLanes(0x0), 1) == 0xC2B2AE3D27D4EB4F
    ensures Lane(InitLanes(0x0), 2) == 0x0
    ensures Lane(InitLanes(0x0), 3) == 0x61C8864E7A143579
  {
  }

  lemma Words0()
    ensures ReadLE64(TestBuffer(222), 0) == 0x24A332B79B925200
    ensures ReadLE64(TestBuffer(222), 32) == 0x33B9858FFCFFC059
    ensures ReadLE64(TestBuffer(222), 64) == 0x65D0CB0C0C5E48DD
    ensures ReadLE64(TestBuffer(222), 96) == 0xD92F71EA0973329D
    ensures ReadLE64(TestBuffer(222), 128) == 0x923BD10FEB4934F3
    ensures ReadLE64(TestBuffer(222), 160) == 0x4AF8ECEFC2F4104B
  {
    hide TestBuffer, ReadLE64, Generator;
    Buffer0(222);
    Buffer1(222);
    Buffer2(222);
  }

  lemma Lane0()
    ensures LaneAt(0x0, TestBuffer(222), 6, 0, 0x3F56AA5D3EA9D2BC)
  {
    hide Xor, Pow2, Generator, TestBuffer, ReadLE64, ReadLE32, LE, Round, Tail, Process1, Process4, Process8, Absorb,
          AfterStripes, Converge, MergeRound, Avalanche, Rotl64, Rotl32, Lane, LaneAt, Moves, InitLanes;
    var data := TestBuffer(222);
    LaneStart(0x0, data, 0);
    Start();
    Words0();
    RoundIs(0x60EA27EEADC0B5D6, 0x24A332B79B925200, 0x1BDD3ED8149E44EB, 0xA044DC223B6D4E00, 0x1, 0x12F0410E92E03D6,
          0x978208, 0xE92E03D6, 0x749701EB00978208, 0x480E770CAD28E06B, 0x621C628F61D7E238);
    LaneIs(0x0, data, 0, 0, 0x60EA27EEADC0B5D6, 0x24A332B79B925200, 0x621C628F61D7E238);
    RoundIs(0x621C628F61D7E238, 0x33B9858FFCFFC059, 0x2756B16A6FE0B363, 0x1C3331FBB1320E77, 0x0, 0x7E4F948B1309F0AF,
          0x3F27CA45, 0x11309F0AF, 0x8984F857BF27CA45, 0x54FDDE36B9168D49, 0x3E0CF6CB9ED1C63);
    LaneIs(0x0, data, 1, 0, 0x621C628F61D7E238, 0x33B9858FFCFFC059, 0x3E0CF6CB9ED1C63);
    RoundIs(0x3E0CF6CB9ED1C63, 0x65D0CB0C0C5E48DD, 0x4D6F4A588C5A1C7A, 0x3D56E5E95FFF5B33, 0x0, 0x4137B55619EC7796,
          0x209BDAAB, 0x19EC7796, 0xCF63BCB209BDAAB, 0x802C7F7960E69A7, 0x4749BAC0BEB43E2D);
    LaneIs(0x0, data, 2, 0, 0x3E0CF6CB9ED1C63, 0x65D0CB0C0C5E48DD, 0x4749BAC0BEB43E2D);
    RoundIs(0x4749BAC0BEB43E2D, 0xD92F71EA0973329D, 0xA52D8B22B169F2EB, 0x487A236A7F06BD73, 0x0, 0x8FC3DE2B3DBAFBA0,
          0x47E1EF15, 0x13DBAFBA0, 0x9EDD7DD047E1EF15, 0x622F20C16ED3B773, 0x105849AF9012A613);
    LaneIs(0x0, data, 3, 0, 0x4749BAC0BEB43E2D, 0xD92F71EA0973329D, 0x105849AF9012A613);
    RoundIs(0x105849AF9012A613, 0x923BD10FEB4934F3, 0x6F37658D0479728A, 0x60CAE87DAD6E67FD, 0x0, 0x7123322D3D810E10,
          0x38919916, 0x13D810E10, 0x9EC0870838919916, 0x621D3A2B2BAA81AA, 0x41C3825EACC5169A);
    LaneIs(0x0, data, 4, 0, 0x105849AF9012A613, 0x923BD10FEB4934F3, 0x41C3825EACC5169A);
    RoundIs(0x41C3825EACC5169A, 0x4AF8ECEFC2F4104B, 0x3904F7A98A7834D5, 0xE2F2B26B1F61E025, 0x1, 0x24B634C9CC26F6BF,
          0x125B1A64, 0x1CC26F6BF, 0xE6137B5F925B1A64, 0x8E31E1B33F012E1D, 0x3F56AA5D3EA9D2BC);
    LaneIs(0x0, data, 5, 0, 0x41C3825EACC5169A, 0x4AF8ECEFC2F4104B, 0x3F56AA5D3EA9D2BC);
  }

  lemma Words1()
    ensures ReadLE64(TestBuffer(222), 8) == 0x93B8EC0E95AF002D
    ensures ReadLE64(TestBuffer(222), 40) == 0x279305B6F774AB1D
    ensures ReadLE64(TestBuffer(222), 72) == 0xE86CB0118FB2AD3F
    ensures ReadLE64(TestBuffer(222), 104) == 0xE9D08ACAF0559D7A
    ensures ReadLE64(TestBuffer(222), 136) == 0xCF3DEDAADB63A9A1
    ensures ReadLE64(TestBuffer(222), 168) == 0xE62A6A4C37438B5
  {
    hide TestBuffer, ReadLE64, Generator;
    Buffer0(222);
    Buffer1(222);
    Buffer2(222);
    Buffer3(222);
  }

  lemma Lane1()
    ensures LaneAt(0x0, TestBuffer(222), 6, 1, 0x2F8034F190B43E97)
  {
    hide Xor, Pow2, Generator, TestBuffer, ReadLE64, ReadLE32, LE, Round, Tail, Process1, Process4, Process8, Absorb,
          AfterStripes, Converge, MergeRound, Avalanche, Rotl64, Rotl32, Lane, LaneAt, Moves, InitLanes;
    var data := TestBuffer(222);
    LaneStart(0x0, data, 1);
    Start();
    Words1();
    RoundIs(0xC2B2AE3D27D4EB4F, 0x93B8EC0E95AF002D, 0x70593E022A10E3E8, 0xE1BF7A93D66E5CE3, 0x1, 0xA47228D0FE434832,
          0x52391468, 0xFE434832, 0x7F21A41952391468, 0x4E924FF0F183E4F0, 0xC7A3EA2329ABD2D8);
    LaneIs(0x0, data, 0, 1, 0xC2B2AE3D27D4EB4F, 0x93B8EC0E95AF002D, 0xC7A3EA2329ABD2D8);
    RoundIs(0xC7A3EA2329ABD2D8, 0x279305B6F774AB1D, 0x1E19097E02D18194, 0xFF19E73695186CF3, 0x1, 0xC6BDD159BEC43FCB,
          0x635EE8AC, 0x1BEC43FCB, 0xDF621FE5E35EE8AC, 0x8A0EF7F5057FDDC7, 0x269E6990BC886AB4);
    LaneIs(0x0, data, 1, 1, 0xC7A3EA2329ABD2D8, 0x279305B6F774AB1D, 0x269E6990BC886AB4);
    RoundIs(0x269E6990BC886AB4, 0xE86CB0118FB2AD3F, 0xB0C4973120D713D8, 0xDDBBC6B36E584B71, 0x1, 0x45A30442AE0B625,
          0x22D1822, 0x2AE0B625, 0x15705B12822D1822, 0xD3FFD89F643A252, 0xAA9F4FEB0C088DEE);
    LaneIs(0x0, data, 2, 1, 0x269E6990BC886AB4, 0xE86CB0118FB2AD3F, 0xAA9F4FEB0C088DEE);
    RoundIs(0xAA9F4FEB0C088DEE, 0xE9D08ACAF0559D7A, 0xB1D33B51E4A43B55, 0xD9B2A334C10296A6, 0x1, 0x8451F31FCD0B2494,
          0x4228F98F, 0x1CD0B2494, 0xE685924A4228F98F, 0x8E7864913FE0776D, 0xD06AE58099CB7069);
    LaneIs(0x0, data, 3, 1, 0xAA9F4FEB0C088DEE, 0xE9D08ACAF0559D7A, 0xD06AE58099CB7069);
    RoundIs(0xD06AE58099CB7069, 0xCF3DEDAADB63A9A1, 0x9D9D94385498A1A7, 0x9E2EE5DB30CC23AF, 0x1, 0x6E99CB5BCA979418,
          0x374CE5AD, 0x1CA979418, 0xE54BCA0C374CE5AD, 0x8DB676FBC69B61CD, 0x3D3B789A8D96A03B);
    LaneIs(0x0, data, 4, 1, 0xD06AE58099CB7069, 0xCF3DEDAADB63A9A1, 0x3D3B789A8D96A03B);
    RoundIs(0x3D3B789A8D96A03B, 0xE62A6A4C37438B5, 0xAF0CCAB37B0AA32, 0x42B9C64789CFA6DB, 0x0, 0x7FF53EE217664716,
          0x3FFA9F71, 0x17664716, 0xBB3238B3FFA9F71, 0x73B18FC5D2EA9EF, 0x2F8034F190B43E97);
    LaneIs(0x0, data, 5, 1, 0x3D3B789A8D96A03B, 0xE62A6A4C37438B5, 0x2F8034F190B43E97);
  }

  lemma Words2()
    ensures ReadLE64(TestBuffer(222), 16) == 0x2ACDD6AA93EFDFE3
    ensures ReadLE64(TestBuffer(222), 48) == 0x769F7C67B38470B0
    ensures ReadLE64(TestBuffer(222), 80) == 0x5659610886F1B08D
    ensures ReadLE64(TestBuffer(222), 112) == 0x51CA0F6BB3361A5E
    ensures ReadLE64(TestBuffer(222), 144) == 0xA221B3F9CD4209F1
    ensures ReadLE64(TestBuffer(222), 176) == 0x9886E3413763FDBF
  {
    hide TestBuffer, ReadLE64, Generator;
    Buffer0(222);
    Buffer1(222);
    Buffer2(222);
    Buffer3(222);
  }

  lemma Lane2()
    ensures LaneAt(0x0, TestBuffer(222), 6, 2, 0xA2C4D38DA9803F28)
  {
    hide Xor, Pow2, Generator, TestBuffer, ReadLE64, ReadLE32, LE, Round, Tail, Process1, Process4, Process8, Absorb,
          AfterStripes, Converge, MergeRound, Avalanche, Rotl64, Rotl32, Lane, LaneAt, Moves, InitLanes;
    var data := TestBuffer(222);
    LaneStart(0x0, data, 2);
    Start();
    Words2();
    RoundIs(0x0, 0x2ACDD6AA93EFDFE3, 0x208DDCEEA853B127, 0xE78A8548D687780D, 0x0, 0xE78A8548D687780D, 0x73C542A4,
          0xD687780D, 0x6B43BC06F3C542A4, 0x424B0C9715C36542, 0x8B3B7D1B94278C7C);
    LaneIs(0x0, data, 0, 2, 0x0, 0x2ACDD6AA93EFDFE3, 0x8B3B7D1B94278C7C);
    RoundIs(0x8B3B7D1B94278C7C, 0x769F7C67B38470B0, 0x5A37A7E7D3294545, 0x5A2AE6931B105650, 0x0, 0xE56663AEAF37E2CC,
          0x72B331D7, 0xAF37E2CC, 0x579BF16672B331D7, 0x36253B238D8D472E, 0x79FE9B92552FEE61);
    LaneIs(0x0, data, 1, 2, 0x8B3B7D1B94278C7C, 0x769F7C67B38470B0, 0x79FE9B92552FEE61);
    RoundIs(0x79FE9B92552FEE61, 0x5659610886F1B08D, 0x41AC00734EE055C3, 0x62E73F26316AEA83, 0x0, 0xDCE5DAB8869AD8E4,
          0x6E72ED5C, 0x869AD8E4, 0x434D6C726E72ED5C, 0x29985E8F30BFF12B, 0xC3E2CEB9D59C384);
    LaneIs(0x0, data, 2, 2, 0x79FE9B92552FEE61, 0x5659610886F1B08D, 0xC3E2CEB9D59C384);
    RoundIs(0xC3E2CEB9D59C384, 0x51CA0F6BB3361A5E, 0x3E3435D9370C4AED, 0xF22C72F71FBE6D02, 0x0, 0xFE6A9FE2BD183086,
          0x7F354FF1, 0xBD183086, 0x5E8C18437F354FF1, 0x3A6EF404A6CDC797, 0xCF7EB511BD6C5217);
    LaneIs(0x0, data, 3, 2, 0xC3E2CEB9D59C384, 0x51CA0F6BB3361A5E, 0xCF7EB511BD6C5217);
    RoundIs(0xCF7EB511BD6C5217, 0xA221B3F9CD4209F1, 0x7B4EB42C14D26AD7, 0x68D01022E9154C5F, 0x1, 0x384EC534A6819E76,
          0x1C27629A, 0xA6819E76, 0x5340CF3B1C27629A, 0x33740A665E62ED83, 0x4B81313E71F08336);
    LaneIs(0x0, data, 4, 2, 0xCF7EB511BD6C5217, 0xA221B3F9CD4209F1, 0x4B81313E71F08336);
    RoundIs(0x4B81313E71F08336, 0x9886E3413763FDBF, 0x7400ADD18DA82C87, 0x5BC861F21CF5A2F1, 0x0, 0xA74993308EE62627,
          0x53A4C998, 0x8EE62627, 0x47731313D3A4C998, 0x2C28817645D754A3, 0xA2C4D38DA9803F28);
    LaneIs(0x0, data, 5, 2, 0x4B81313E71F08336, 0x9886E3413763FDBF, 0xA2C4D38DA9803F28);
  }

  lemma Words3()
    ensures ReadLE64(TestBuffer(222), 24) == 0xD56F5A543F5C8B53
    ensures ReadLE64(TestBuffer(222), 56) == 0xE817987BED720048
    ensures ReadLE64(TestBuffer(222), 88) == 0xABBD6313784E8E6C
    ensures ReadLE64(TestBuffer(222), 120) == 0x9600ED62C4A28BEF
    ensures ReadLE64(TestBuffer(222), 152) == 0xD1482FE4F4C8F2EB
    ensures ReadLE64(TestBuffer(222), 184) == 0x87660356BA4CEB1A
  {
    hide TestBuffer, ReadLE64, Generator;
    Buffer0(222);
    Buffer1(222);
    Buffer2(222);
    Buffer3(222);
  }

  lemma Lane3()
    ensures LaneAt(0x0, TestBuffer(222), 6, 3, 0x2A44A145BD521608)
  {
    hide Xor, Pow2, Generator, TestBuffer, ReadLE64, ReadLE32, LE, Round, Tail, Process1, Process4, Process8, Absorb,
          AfterStripes, Converge, MergeRound, Avalanche, Rotl64, Rotl32, Lane, LaneAt, Moves, InitLanes;
    var data := TestBuffer(222);
    LaneStart(0x0, data, 3);
    Start();
    Words3();
    RoundIs(0x61C8864E7A143579, 0xD56F5A543F5C8B53, 0xA2535B2552BB743A, 0x7E2964CD87302F9D, 0x0, 0xDFF1EB1C01446516,
          0x6FF8F58E, 0x1446516, 0xA2328B6FF8F58E, 0x643E58056E6A06, 0xA54AB42CAD6589E2);
    LaneIs(0x0, data, 0, 3, 0x61C8864E7A143579, 0xD56F5A543F5C8B53, 0xA54AB42CAD6589E2);
    RoundIs(0xA54AB42CAD6589E2, 0xE817987BED720048, 0xB083DFED6B7BAF80, 0x4279D2D120102E38, 0x0, 0xE7C486FDCD75B81A,
          0x73E2437E, 0x1CD75B81A, 0xE6BADC0D73E2437E, 0x8E9953A3E651A4BB, 0x7123CE6B103D0372);
    LaneIs(0x0, data, 1, 3, 0xA54AB42CAD6589E2, 0xE817987BED720048, 0x7123CE6B103D0372);
    RoundIs(0x7123CE6B103D0372, 0xABBD6313784E8E6C, 0x829D63A764E5B6BF, 0xCB7562EEA26B1754, 0x1, 0x3C993159B2A81AC6,
          0x1E4C98AC, 0x1B2A81AC6, 0xD9540D631E4C98AC, 0x8650F8A17C20BA94, 0xD2B0BBBAECC03AB4);
    LaneIs(0x0, data, 2, 3, 0x7123CE6B103D0372, 0xABBD6313784E8E6C, 0xD2B0BBBAECC03AB4);
    RoundIs(0xD2B0BBBAECC03AB4, 0x9600ED62C4A28BEF, 0x721566A25E98800F, 0x85F84FDC2F8993C1, 0x1, 0x58A90B971C49CE75,
          0x2C5485CB, 0x11C49CE75, 0x8E24E73AAC5485CB, 0x57D99435E721E436, 0xF498CB5FDA7DBC0D);
    LaneIs(0x0, data, 3, 3, 0xD2B0BBBAECC03AB4, 0x9600ED62C4A28BEF, 0xF498CB5FDA7DBC0D);
    RoundIs(0xF498CB5FDA7DBC0D, 0xD1482FE4F4C8F2EB, 0x9F2AC6EDDE03932F, 0x4A86E3C5F89CAF85, 0x1, 0x3F1FAF25D31A6B92,
          0x1F8FD792, 0x1D31A6B92, 0xE98D35C91F8FD792, 0x9057C38E62EC4943, 0xAEA3D1F2E1F9E1FE);
    LaneIs(0x0, data, 4, 3, 0xF498CB5FDA7DBC0D, 0xD1482FE4F4C8F2EB, 0xAEA3D1F2E1F9E1FE);
    RoundIs(0xAEA3D1F2E1F9E1FE, 0x87660356BA4CEB1A, 0x66F9CF9DBA20B961, 0x3FF3557DC1156B06, 0x0, 0xEE972770A30F4D04,
          0x774B93B8, 0xA30F4D04, 0x5187A682774B93B8, 0x326363AAF2CCA287, 0x2A44A145BD521608);
    LaneIs(0x0, data, 5, 3, 0xAEA3D1F2E1F9E1FE, 0x87660356BA4CEB1A, 0x2A44A145BD521608);
  }

  lemma Turned()
    ensures Rotl64(0x3F56AA5D3EA9D2BC, 1) == 0x7EAD54BA7D53A578
    ensures Rotl64(0x2F8034F190B43E97, 7) == 0xC01A78C85A1F4B97
    ensures Rotl64(0xA2C4D38DA9803F28, 12) == 0x4D38DA9803F28A2C
    ensures Rotl64(0x2A44A145BD521608, 18) == 0x8516F5485820A912
  {
    hide Pow2, Rotl64;
    assert Pow2(1) == 0x2 && Pow2(7) == 0x80 && Pow2(12) == 0x1000 && Pow2(18) == 0x40000
          && Pow2(46) == 0x400000000000 && Pow2(52) == 0x10000000000000 && Pow2(57) == 0x200000000000000
          && Pow2(63) == 0x8000000000000000 by {
      PowersOfTwo();
    }
    TurnIs(0x3F56AA5D3EA9D2BC, 1, 0x0, 0x3F56AA5D3EA9D2BC, 0x2, 0x8000000000000000, 0x7EAD54BA7D53A578);
    TurnIs(0x2F8034F190B43E97, 7, 0x17, 0x18034F190B43E97, 0x80, 0x200000000000000, 0xC01A78C85A1F4B97);
    TurnIs(0xA2C4D38DA9803F28, 12, 0xA2C, 0x4D38DA9803F28, 0x1000, 0x10000000000000, 0x4D38DA9803F28A2C);
    TurnIs(0x2A44A145BD521608, 18, 0xA912, 0x2145BD521608, 0x40000, 0x400000000000, 0x8516F5485820A912);
  }

  lemma Keyed0()
    ensures Round(0, 0x3F56AA5D3EA9D2BC) == 0xE62C340CD6F95966
  {
    hide Round;
    RoundIs(0x0, 0x3F56AA5D3EA9D2BC, 0x302BE279279F1E87, 0xBE50EDD5628A9C04, 0x0, 0xBE50EDD5628A9C04, 0x5F2876EA,
          0x1628A9C04, 0xB1454E025F2876EA, 0x6D8F304DE8C3C217, 0xE62C340CD6F95966);
  }

  lemma Merged0()
    ensures MergeRound(0x11179D633386244D, 0x3F56AA5D3EA9D2BC) == 0x393355A9F2A9E10
  {
    hide Xor, Pow2, Generator, TestBuffer, ReadLE64, ReadLE32, LE, Round, Tail, Process1, Process4, Process8, Absorb,
          AfterStripes, Converge, MergeRound, Avalanche, Rotl64, Rotl32, Lane, LaneAt, Moves;
    Keyed0();
    XorIs(0x11, 0x17, 0x9d, 0x63, 0x33, 0x86, 0x24, 0x4d, 0xe6, 0x2c, 0x34, 0x0c, 0xd6, 0xf9, 0x59, 0x66);
    MergeIs(0x11179D633386244D, 0x3F56AA5D3EA9D2BC, 0xE62C340CD6F95966, 0xF73BA96FE57F7D2B, 0x98CC65EB1B5ABDDE,
          0x7DA76AE2DC77EFAD, 0x1, 0x393355A9F2A9E10);
  }

  lemma Keyed1()
    ensures Round(0, 0x2F8034F190B43E97) == 0x3E7BF8ECBA3D500C
  {
    hide Round;
    RoundIs(0x0, 0x2F8034F190B43E97, 0x24204F985C8C0C91, 0xEEBCED28F31FED99, 0x0, 0xEEBCED28F31FED99, 0x775E7694,
          0xF31FED99, 0x798FF6CCF75E7694, 0x4B213209DE7DB9A9, 0x3E7BF8ECBA3D500C);
  }

  lemma Merged1()
    ensures MergeRound(0x393355A9F2A9E10, 0x2F8034F190B43E97) == 0xCB602714DA967727
  {
    hide Xor, Pow2, Generator, TestBuffer, ReadLE64, ReadLE32, LE, Round, Tail, Process1, Process4, Process8, Absorb,
          AfterStripes, Converge, MergeRound, Avalanche, Rotl64, Rotl32, Lane, LaneAt, Moves;
    Keyed1();
    XorIs(0x03, 0x93, 0x35, 0x5a, 0x9f, 0x2a, 0x9e, 0x10, 0x3e, 0x7b, 0xf8, 0xec, 0xba, 0x3d, 0x50, 0x0c);
    MergeIs(0x393355A9F2A9E10, 0x2F8034F190B43E97, 0x3E7BF8ECBA3D500C, 0x3DE8CDB62517CE1C, 0x26431968949AF459,
          0x45745C9D17E3C8C4, 0x0, 0xCB602714DA967727);
  }

  lemma Keyed2()
    ensures Round(0, 0xA2C4D38DA9803F28) == 0x5D601A1839691F53
  {
    hide Round;
    RoundIs(0x0, 0xA2C4D38DA9803F28, 0x7BCAC3F51CF719D5, 0x775F77AB6DAD3558, 0x0, 0x775F77AB6DAD3558, 0x3BAFBBD5,
          0x16DAD3558, 0xB6D69AAC3BAFBBD5, 0x7100127BC0F987FB, 0x5D601A1839691F53);
  }

  lemma Merged2()
    ensures MergeRound(0xCB602714DA967727, 0xA2C4D38DA9803F28) == 0xF2633118AD4A4B8F
  {
    hide Xor, Pow2, Generator, TestBuffer, ReadLE64, ReadLE32, LE, Round, Tail, Process1, Process4, Process8, Absorb,
          AfterStripes, Converge, MergeRound, Avalanche, Rotl64, Rotl32, Lane, LaneAt, Moves;
    Keyed2();
    XorIs(0xcb, 0x60, 0x27, 0x14, 0xda, 0x96, 0x77, 0x27, 0x5d, 0x60, 0x1a, 0x18, 0x39, 0x69, 0x1f, 0x53);
    MergeIs(0xCB602714DA967727, 0xA2C4D38DA9803F28, 0x5D601A1839691F53, 0x96003D0CE3FF6874, 0x5CB4A70933FA349F,
          0x6C7766A0EA979D2C, 0x0, 0xF2633118AD4A4B8F);
  }

  lemma Keyed3()
    ensures Round(0, 0x2A44A145BD521608) == 0x22F0DA41A42607EA
  {
    hide Round;
    RoundIs(0x0, 0x2A44A145BD521608, 0x202582B3BA814852, 0x81E9C28D3D2E2478, 0x0, 0x81E9C28D3D2E2478, 0x40F4E146,
          0x13D2E2478, 0x9E97123C40F4E146, 0x62039B197C11BCA0, 0x22F0DA41A42607EA);
  }

  lemma Merged3()
    ensures MergeRound(0xF2633118AD4A4B8F, 0x2A44A145BD521608) == 0xFBF1A0CAC8CDA9A6
  {
    hide Xor, Pow2, Generator, TestBuffer, ReadLE64, ReadLE32, LE, Round, Tail, Process1, Process4, Process8, Absorb,
          AfterStripes, Converge, MergeRound, Avalanche, Rotl64, Rotl32, Lane, LaneAt, Moves;
    Keyed3();
    XorIs(0xf2, 0x63, 0x31, 0x18, 0xad, 0x4a, 0x4b, 0x8f, 0x22, 0xf0, 0xda, 0x41, 0xa4, 0x26, 0x07, 0xea);
    MergeIs(0xF2633118AD4A4B8F, 0x2A44A145BD521608, 0x22F0DA41A42607EA, 0xD093EB59096C4C65, 0x80E87E2F1191A17F,
          0x7605D653061AFB43, 0x0, 0xFBF1A0CAC8CDA9A6);
  }

  lemma Together()
    ensures Converge(Lanes(0x3F56AA5D3EA9D2BC, 0x2F8034F190B43E97, 0xA2C4D38DA9803F28,
          0x2A44A145BD521608)) == 0xFBF1A0CAC8CDA9A6
  {
    hide Xor, Pow2, Generator, TestBuffer, ReadLE64, ReadLE32, LE, Round, Tail, Process1, Process4, Process8, Absorb,
          AfterStripes, Converge, MergeRound, Avalanche, Rotl64, Rotl32, Lane, LaneAt, Moves, Hash;
    Turned();
    Merged0();
    Merged1();
    Merged2();
    Merged3();
    ConvergeIs(Lanes(0x3F56AA5D3EA9D2BC, 0x2F8034F190B43E97, 0xA2C4D38DA9803F28, 0x2A44A145BD521608),
          0x7EAD54BA7D53A578, 0xC01A78C85A1F4B97, 0x4D38DA9803F28A2C, 0x8516F5485820A912, 0x1, 0x3EC7CD82D772F10F,
          0x0, 0xD24FCFE05C13333E, 0x1, 0x11179D633386244D, 0x393355A9F2A9E10, 0xCB602714DA967727,
          0xF2633118AD4A4B8F, 0xFBF1A0CAC8CDA9A6);
  }

  lemma Keyed222At192()
    ensures Round(0, 0xB64485C1594500ED) == 0x2B5E05BD7B39F5C9
  {
    hide Round;
    RoundIs(0x0, 0xB64485C1594500ED, 0x8A9F250FA3AFAF15, 0xC981825EC368D823, 0x0, 0xC981825EC368D823, 0x64C0C12F,
          0xC368D823, 0x61B46C11E4C0C12F, 0x3C6286E84AF70433, 0x2B5E05BD7B39F5C9);
  }

  lemma Tail222At192()
    ensures Moves(TestBuffer(222), 0xFBF1A0CAC8CDAA84, 192, 0x23B504099D549E10, 200)
  {
    hide Xor, Pow2, Generator, TestBuffer, ReadLE64, ReadLE32, LE, Round, Tail, Process1, Process4, Process8, Absorb,
          AfterStripes, Converge, MergeRound, Avalanche, Rotl64, Rotl32, Lane, LaneAt, Moves;
    var data := TestBuffer(222);
    Buffer3(222);
    Keyed222At192();
    XorIs(0xfb, 0xf1, 0xa0, 0xca, 0xc8, 0xcd, 0xaa, 0x84, 0x2b, 0x5e, 0x05, 0xbd, 0x7b, 0x39, 0xf5, 0xc9);
    Tail8Is(0xFBF1A0CAC8CDAA84, data, 192, 0xB64485C1594500ED, 0x2B5E05BD7B39F5C9, 0xD0AFA577B3F45F4D, 0x6857D2B,
          0x17B3F45F4D, 0xBD9FA2FA6E857D2B, 0x75319E06869EC68C, 0x9DC93991DAA1EFAD, 0x1, 0x23B504099D549E10);
  }

  lemma Keyed222At200()
    ensures Round(0, 0x87F9EAA941F968C3) == 0x39E3329E4530B3A7
  {
    hide Round;
    RoundIs(0x0, 0x87F9EAA941F968C3, 0x676A4C25C6E300AD, 0x58F8EBC2C59E552D, 0x0, 0x58F8EBC2C59E552D, 0x2C7C75E1,
          0xC59E552D, 0x62CF2A96AC7C75E1, 0x3D1145C394E22CAA, 0x39E3329E4530B3A7);
  }

  lemma Tail222At200()
    ensures Moves(TestBuffer(222), 0x23B504099D549E10, 200, 0x6D48105A1E426C4F, 208)
  {
    hide Xor, Pow2, Generator, TestBuffer, ReadLE64, ReadLE32, LE, Round, Tail, Process1, Process4, Process8, Absorb,
          AfterStripes, Converge, MergeRound, Avalanche, Rotl64, Rotl32, Lane, LaneAt, Moves;
    var data := TestBuffer(222);
    Buffer3(222);
    Keyed222At200();
    XorIs(0x23, 0xb5, 0x04, 0x09, 0x9d, 0x54, 0x9e, 0x10, 0x39, 0xe3, 0x32, 0x9e, 0x45, 0x30, 0xb3, 0xa7);
    Tail8Is(0x23B504099D549E10, data, 200, 0x87F9EAA941F968C3, 0x39E3329E4530B3A7, 0x1A563697D8642DB7, 0xD2B1B4,
          0x17D8642DB7, 0xBEC3216DB8D2B1B4, 0x75E5C53C6A26CC91, 0xE75C45E25B8FBDEC, 0x1, 0x6D48105A1E426C4F);
  }

  lemma Keyed222At208()
    ensures Round(0, 0x485414D5D0129FE0) == 0xDB929E82F857A1F7
  {
    hide Round;
    RoundIs(0x0, 0x485414D5D0129FE0, 0x3702337AF1CC0BC3, 0x7BB03223D401F620, 0x0, 0x7BB03223D401F620, 0x3DD81911,
          0x1D401F620, 0xEA00FB103DD81911, 0x909F5066B26AF6D1, 0xDB929E82F857A1F7);
  }

  lemma Tail222At208()
    ensures Moves(TestBuffer(222), 0x6D48105A1E426C4F, 208, 0xB7E58B29A013D49D, 216)
  {
    hide Xor, Pow2, Generator, TestBuffer, ReadLE64, ReadLE32, LE, Round, Tail, Process1, Process4, Process8, Absorb,
          AfterStripes, Converge, MergeRound, Avalanche, Rotl64, Rotl32, Lane, LaneAt, Moves;
    var data := TestBuffer(222);
    Buffer3(222);
    Keyed222At208();
    XorIs(0x6d, 0x48, 0x10, 0x5a, 0x1e, 0x42, 0x6c, 0x4f, 0xdb, 0x92, 0x9e, 0x82, 0xf8, 0x57, 0xa1, 0xf7);
    Tail8Is(0x6D48105A1E426C4F, data, 208, 0x485414D5D0129FE0, 0xDB929E82F857A1F7, 0xB6DA8ED8E615CDB8, 0x5B6D476,
          0x18E615CDB8, 0xC730AE6DC5B6D476, 0x7B1B35CD5CEA8FA6, 0x31F9C0B1DD61263A, 0x0, 0xB7E58B29A013D49D);
  }

  lemma Tail222At216()
    ensures Moves(TestBuffer(222), 0xB7E58B29A013D49D, 216, 0xC16692327C8C353D, 220)
  {
    hide Xor, Pow2, Generator, TestBuffer, ReadLE64, ReadLE32, LE, Round, Tail, Process1, Process4, Process8, Absorb,
          AfterStripes, Converge, MergeRound, Avalanche, Rotl64, Rotl32, Lane, LaneAt, Moves;
    var data := TestBuffer(222);
    End222();
    XorIs(0xb7, 0xe5, 0x8b, 0x29, 0xa0, 0x13, 0xd4, 0x9d, 0xce, 0x3b, 0x73, 0x17, 0xa1, 0x34, 0x6f, 0x0b);
    Tail4Is(0xB7E58B29A013D49D, data, 216, 0x5140445D, 0x3237459F, 0xCE3B7317A1346F0B, 0x79DEF83E0127BB96, 0x3CEF7C,
          0x3E0127BB96, 0x1F0093DDCB3CEF7C, 0x1794138EB0B25957, 0xAB102A80DE54BB44, 0x0, 0xC16692327C8C353D);
  }

  lemma Tail222At220()
    ensures Moves(TestBuffer(222), 0xC16692327C8C353D, 220, 0x934D1117C2824423, 221)
  {
    hide Xor, Pow2, Generator, TestBuffer, ReadLE64, ReadLE32, LE, Round, Tail, Process1, Process4, Process8, Absorb,
          AfterStripes, Converge, MergeRound, Avalanche, Rotl64, Rotl32, Lane, LaneAt, Moves;
    var data := TestBuffer(222);
    End222();
    XorIs(0xc1, 0x66, 0x92, 0x32, 0x7c, 0x8c, 0x35, 0x3d, 0x51, 0xcc, 0x8a, 0xc0, 0xce, 0x9e, 0x03, 0xaf);
    Tail1Is(0xC16692327C8C353D, data, 220, 0xE3, 0x23, 0x51CC8AC0CE9E03AF, 0x90AA18F2B2123692, 0x485,
          0xA18F2B2123692, 0x50C7959091B49485, 0x31ECAF96B5EE971B, 0x934D1117C2824423);
  }

  lemma Tail222At221()
    ensures Moves(TestBuffer(222), 0x934D1117C2824423, 221, 0x97F5DA3FDB99D342, 222)
  {
    hide Xor, Pow2, Generator, TestBuffer, ReadLE64, ReadLE32, LE, Round, Tail, Process1, Process4, Process8, Absorb,
          AfterStripes, Converge, MergeRound, Avalanche, Rotl64, Rotl32, Lane, LaneAt, Moves;
    var data := TestBuffer(222);
    End222();
    XorIs(0x93, 0x4d, 0x11, 0x17, 0xc2, 0x82, 0x44, 0x23, 0xb6, 0x93, 0x72, 0x4c, 0xe2, 0xe6, 0xb3, 0x18);
    Tail1Is(0x934D1117C2824423, data, 221, 0x38, 0x8, 0xB693724CE2E6B318, 0x25DE635B2064F73B, 0x12E,
          0x1E635B2064F73B, 0xF31AD90327B9D92E, 0x963F4044D781A2A4, 0x97F5DA3FDB99D342);
  }

  lemma Tail222()
    ensures Moves(TestBuffer(222), 0xFBF1A0CAC8CDAA84, 192, 0x97F5DA3FDB99D342, 222)
  {
    hide Xor, Pow2, Generator, TestBuffer, ReadLE64, ReadLE32, LE, Round, Tail, Process1, Process4, Process8, Absorb,
          AfterStripes, Converge, MergeRound, Avalanche, Rotl64, Rotl32, Lane, LaneAt, Moves;
    var data := TestBuffer(222);
    Tail222At192();
    Tail222At200();
    Onward(data, 0xFBF1A0CAC8CDAA84, 192, 0x23B504099D549E10, 200, 0x6D48105A1E426C4F, 208);
    Tail222At208();
    Onward(data, 0xFBF1A0CAC8CDAA84, 192, 0x6D48105A1E426C4F, 208, 0xB7E58B29A013D49D, 216);
    Tail222At216();
    Onward(data, 0xFBF1A0CAC8CDAA84, 192, 0xB7E58B29A013D49D, 216, 0xC16692327C8C353D, 220);
    Tail222At220();
    Onward(data, 0xFBF1A0CAC8CDAA84, 192, 0xC16692327C8C353D, 220, 0x934D1117C2824423, 221);
    Tail222At221();
    Onward(data, 0xFBF1A0CAC8CDAA84, 192, 0x934D1117C2824423, 221, 0x97F5DA3FDB99D342, 222);
  }

  lemma Hash222()
    ensures Hash(0x0, TestBuffer(222)) == 0xB641AE8CB691C174
  {
    hide Xor, Pow2, Generator, TestBuffer, ReadLE64, ReadLE32, LE, Round, Tail, Process1, Process4, Process8, Absorb,
          AfterStripes, Converge, MergeRound, Avalanche, Rotl64, Rotl32, Lane, LaneAt, Moves, Hash;
    var data := TestBuffer(222);
    Lane0();
    Lane1();
    Lane2();
    Lane3();
    Together();
    Tail222();
    LongIs(0x0, data, 6, 0x3F56AA5D3EA9D2BC, 0x2F8034F190B43E97, 0xA2C4D38DA9803F28, 0x2A44A145BD521608,
          0xFBF1A0CAC8CDA9A6, 0x0, 0xFBF1A0CAC8CDAA84, 0x97F5DA3FDB99D342);
    XorIs(0x97, 0xf5, 0xda, 0x3f, 0xdb, 0x99, 0xd3, 0x42, 0x00, 0x00, 0x00, 0x00, 0x4b, 0xfa, 0xed, 0x1f);
    XorIs(0xb2, 0x8c, 0x76, 0x01, 0x78, 0xe3, 0x9d, 0xb3, 0x00, 0x00, 0x00, 0x05, 0x94, 0x63, 0xb0, 0x0b);
    XorIs(0xb6, 0x41, 0xae, 0x8c, 0x00, 0xd0, 0x6f, 0xf8, 0x00, 0x00, 0x00, 0x00, 0xb6, 0x41, 0xae, 0x8c);
    AvalancheIs(0x97F5DA3FDB99D342, 0x4BFAED1F, 0x1DB99D342, 0x97F5DA3F90633E5D, 0x73925FC3532EA712,
          0xB28C760178E39DB3, 0x59463B00B, 0x18E39DB3, 0xB28C7604EC802DB8, 0xF9455A676ED6DA2, 0xB641AE8C00D06FF8,
          0xB641AE8C, 0xD06FF8);
  }

  lemma StartSeeded()
    ensures Lane(InitLanes(0x9E3779B1), 0) == 0x60EA27EF4BF82F87
    ensures Lane(InitLanes(0x9E3779B1), 1) == 0xC2B2AE3DC60C6500
    ensures Lane(InitLanes(0x9E3779B1), 2) == 0x9E3779B1
    ensures Lane(InitLanes(0x9E3779B1), 3) == 0x61C8864F184BAF2A
  {
  }

  lemma Lane0Seeded()
    ensures LaneAt(0x9E3779B1, TestBuffer(222), 6, 0, 0x354F640A868424B9)
  {
    hide Xor, Pow2, Generator, TestBuffer, ReadLE64, ReadLE32, LE, Round, Tail, Process1, Process4, Process8, Absorb,
          AfterStripes, Converge, MergeRound, Avalanche, Rotl64, Rotl32, Lane, LaneAt, Moves, InitLanes;
    var data := TestBuffer(222);
    LaneStart(0x9E3779B1, data, 0);
    StartSeeded();
    Words0();
    RoundIs(0x60EA27EF4BF82F87, 0x24A332B79B925200, 0x1BDD3ED8149E44EB, 0xA044DC223B6D4E00, 0x1, 0x12F041187657D87,
          0x978208, 0x187657D87, 0xC3B2BEC380978208, 0x78F2BA2AD67E8CC4, 0x51FD4DBAE1D7E238);
    LaneIs(0x9E3779B1, data, 0, 0, 0x60EA27EF4BF82F87, 0x24A332B79B925200, 0x51FD4DBAE1D7E238);
    RoundIs(0x51FD4DBAE1D7E238, 0x33B9858FFCFFC059, 0x2756B16A6FE0B363, 0x1C3331FBB1320E77, 0x0, 0x6E307FB69309F0AF,
          0x37183FDB, 0x9309F0AF, 0x4984F857B7183FDB, 0x2D6FFFCA52A0440E, 0x2BB8829515357A7D);
    LaneIs(0x9E3779B1, data, 1, 0, 0x51FD4DBAE1D7E238, 0x33B9858FFCFFC059, 0x2BB8829515357A7D);
    RoundIs(0x2BB8829515357A7D, 0x65D0CB0C0C5E48DD, 0x4D6F4A588C5A1C7A, 0x3D56E5E95FFF5B33, 0x0, 0x690F687E7534D5B0,
          0x3487B43F, 0x7534D5B0, 0x3A9A6AD83487B43F, 0x243800FA04CB4E56, 0x390E113CF89EC339);
    LaneIs(0x9E3779B1, data, 2, 0, 0x2BB8829515357A7D, 0x65D0CB0C0C5E48DD, 0x390E113CF89EC339);
    RoundIs(0x390E113CF89EC339, 0xD92F71EA0973329D, 0xA52D8B22B169F2EB, 0x487A236A7F06BD73, 0x0, 0x818834A777A580AC,
          0x40C41A53, 0x177A580AC, 0xBBD2C05640C41A53, 0x7414C6456A622F9B, 0x109740AB2D605FC5);
    LaneIs(0x9E3779B1, data, 3, 0, 0x390E113CF89EC339, 0xD92F71EA0973329D, 0x109740AB2D605FC5);
    RoundIs(0x109740AB2D605FC5, 0x923BD10FEB4934F3, 0x6F37658D0479728A, 0x60CAE87DAD6E67FD, 0x0, 0x71622928DACEC7C2,
          0x38B11494, 0xDACEC7C2, 0x6D6763E138B11494, 0x439D84DD324D769C, 0xA17D9B13677AA20C);
    LaneIs(0x9E3779B1, data, 4, 0, 0x109740AB2D605FC5, 0x923BD10FEB4934F3, 0xA17D9B13677AA20C);
    RoundIs(0xA17D9B13677AA20C, 0x4AF8ECEFC2F4104B, 0x3904F7A98A7834D5, 0xE2F2B26B1F61E025, 0x1, 0x84704D7E86DC8231,
          0x423826BF, 0x86DC8231, 0x436E4118C23826BF, 0x29ACA8EB23767B45, 0x354F640A868424B9);
    LaneIs(0x9E3779B1, data, 5, 0, 0xA17D9B13677AA20C, 0x4AF8ECEFC2F4104B, 0x354F640A868424B9);
  }

  lemma Lane1Seeded()
    ensures LaneAt(0x9E3779B1, TestBuffer(222), 6, 1, 0xB1224A2A33B724E2)
  {
    hide Xor, Pow2, Generator, TestBuffer, ReadLE64, ReadLE32, LE, Round, Tail, Process1, Process4, Process8, Absorb,
          AfterStripes, Converge, MergeRound, Avalanche, Rotl64, Rotl32, Lane, LaneAt, Moves, InitLanes;
    var data := TestBuffer(222);
    LaneStart(0x9E3779B1, data, 1);
    StartSeeded();
    Words1();
    RoundIs(0xC2B2AE3DC60C6500, 0x93B8EC0E95AF002D, 0x70593E022A10E3E8, 0xE1BF7A93D66E5CE3, 0x1, 0xA47228D19C7AC1E3,
          0x52391468, 0x19C7AC1E3, 0xCE3D60F1D2391468, 0x7F76930F1AD99149, 0xB784D54EA9ABD2D8);
    LaneIs(0x9E3779B1, data, 0, 1, 0xC2B2AE3DC60C6500, 0x93B8EC0E95AF002D, 0xB784D54EA9ABD2D8);
    RoundIs(0xB784D54EA9ABD2D8, 0x279305B6F774AB1D, 0x1E19097E02D18194, 0xFF19E73695186CF3, 0x1, 0xB69EBC853EC43FCB,
          0x5B4F5E42, 0x13EC43FCB, 0x9F621FE5DB4F5E42, 0x628119889F09948C, 0x4E761CB917D0C8CE);
    LaneIs(0x9E3779B1, data, 1, 1, 0xB784D54EA9ABD2D8, 0x279305B6F774AB1D, 0x4E761CB917D0C8CE);
    RoundIs(0x4E761CB917D0C8CE, 0xE86CB0118FB2AD3F, 0xB0C4973120D713D8, 0xDDBBC6B36E584B71, 0x1, 0x2C31E36C8629143F,
          0x1618F1B6, 0x8629143F, 0x43148A1F9618F1B6, 0x2975368C65008701, 0x9C63A66745F312FA);
    LaneIs(0x9E3779B1, data, 2, 1, 0x4E761CB917D0C8CE, 0xE86CB0118FB2AD3F, 0x9C63A66745F312FA);
    RoundIs(0x9C63A66745F312FA, 0xE9D08ACAF0559D7A, 0xB1D33B51E4A43B55, 0xD9B2A334C10296A6, 0x1, 0x7616499C06F5A9A0,
          0x3B0B24CE, 0x6F5A9A0, 0x37AD4D03B0B24CE, 0x2269063B583250F, 0x6EE1562DBD04F4A2);
    LaneIs(0x9E3779B1, data, 3, 1, 0x9C63A66745F312FA, 0xE9D08ACAF0559D7A, 0x6EE1562DBD04F4A2);
    RoundIs(0x6EE1562DBD04F4A2, 0xCF3DEDAADB63A9A1, 0x9D9D94385498A1A7, 0x9E2EE5DB30CC23AF, 0x1, 0xD103C08EDD11851,
          0x6881E04, 0xEDD11851, 0x76E88C2886881E04, 0x497D4AFD7EF94FBC, 0x2F7ABED5FB22FC1C);
    LaneIs(0x9E3779B1, data, 4, 1, 0x6EE1562DBD04F4A2, 0xCF3DEDAADB63A9A1, 0x2F7ABED5FB22FC1C);
    RoundIs(0x2F7ABED5FB22FC1C, 0xE62A6A4C37438B5, 0xAF0CCAB37B0AA32, 0x42B9C64789CFA6DB, 0x0, 0x7234851D84F2A2F7,
          0x391A428E, 0x184F2A2F7, 0xC279517BB91A428E, 0x783104CD10F3F14D, 0xB1224A2A33B724E2);
    LaneIs(0x9E3779B1, data, 5, 1, 0x2F7ABED5FB22FC1C, 0xE62A6A4C37438B5, 0xB1224A2A33B724E2);
  }

  lemma Lane2Seeded()
    ensures LaneAt(0x9E3779B1, TestBuffer(222), 6, 2, 0x8CA87635D06B9826)
  {
    hide Xor, Pow2, Generator, TestBuffer, ReadLE64, ReadLE32, LE, Round, Tail, Process1, Process4, Process8, Absorb,
          AfterStripes, Converge, MergeRound, Avalanche, Rotl64, Rotl32, Lane, LaneAt, Moves, InitLanes;
    var data := TestBuffer(222);
    LaneStart(0x9E3779B1, data, 2);
    StartSeeded();
    Words2();
    RoundIs(0x9E3779B1, 0x2ACDD6AA93EFDFE3, 0x208DDCEEA853B127, 0xE78A8548D687780D, 0x0, 0xE78A854974BEF1BE,
          0x73C542A4, 0x174BEF1BE, 0xBA5F78DF73C542A4, 0x732F4FB53F19119B, 0x7B1C684714278C7C);
    LaneIs(0x9E3779B1, data, 0, 2, 0x9E3779B1, 0x2ACDD6AA93EFDFE3, 0x7B1C684714278C7C);
    RoundIs(0x7B1C684714278C7C, 0x769F7C67B38470B0, 0x5A37A7E7D3294545, 0x5A2AE6931B105650, 0x0, 0xD5474EDA2F37E2CC,
          0x6AA3A76D, 0x2F37E2CC, 0x179BF1666AA3A76D, 0xE975CB72716FDF3, 0xA1D64EBAB0784C7B);
    LaneIs(0x9E3779B1, data, 1, 2, 0x7B1C684714278C7C, 0x769F7C67B38470B0, 0xA1D64EBAB0784C7B);
    RoundIs(0xA1D64EBAB0784C7B, 0x5659610886F1B08D, 0x41AC00734EE055C3, 0x62E73F26316AEA83, 0x1, 0x4BD8DE0E1E336FE,
          0x25EC6F0, 0xE1E336FE, 0x70F19B7F025EC6F0, 0x45CD979150611901, 0x3B0C9E2457444890);
    LaneIs(0x9E3779B1, data, 2, 2, 0xA1D64EBAB0784C7B, 0x5659610886F1B08D, 0x3B0C9E2457444890);
    RoundIs(0x3B0C9E2457444890, 0x51CA0F6BB3361A5E, 0x3E3435D9370C4AED, 0xF22C72F71FBE6D02, 0x1, 0x2D39111B7702B592,
          0x169C888D, 0x17702B592, 0xBB815AC9169C888D, 0x73E277F4C79830E0, 0xBD40AF020ABA445B);
    LaneIs(0x9E3779B1, data, 3, 2, 0x3B0C9E2457444890, 0x51CA0F6BB3361A5E, 0xBD40AF020ABA445B);
    RoundIs(0xBD40AF020ABA445B, 0xA221B3F9CD4209F1, 0x7B4EB42C14D26AD7, 0x68D01022E9154C5F, 0x1, 0x2610BF24F3CF90BA,
          0x13085F92, 0xF3CF90BA, 0x79E7C85D13085F92, 0x4B57786894797B70, 0x37FC026239D999FE);
    LaneIs(0x9E3779B1, data, 4, 2, 0xBD40AF020ABA445B, 0xA221B3F9CD4209F1, 0x37FC026239D999FE);
    RoundIs(0x37FC026239D999FE, 0x9886E3413763FDBF, 0x7400ADD18DA82C87, 0x5BC861F21CF5A2F1, 0x0, 0x93C4645456CF3CEF,
          0x49E2322A, 0x56CF3CEF, 0x2B679E77C9E2322A, 0x1AD35BB30D95F996, 0x8CA87635D06B9826);
    LaneIs(0x9E3779B1, data, 5, 2, 0x37FC026239D999FE, 0x9886E3413763FDBF, 0x8CA87635D06B9826);
  }

  lemma Lane3Seeded()
    ensures LaneAt(0x9E3779B1, TestBuffer(222), 6, 3, 0x8360639D25FFF77A)
  {
    hide Xor, Pow2, Generator, TestBuffer, ReadLE64, ReadLE32, LE, Round, Tail, Process1, Process4, Process8, Absorb,
          AfterStripes, Converge, MergeRound, Avalanche, Rotl64, Rotl32, Lane, LaneAt, Moves, InitLanes;
    var data := TestBuffer(222);
    LaneStart(0x9E3779B1, data, 3);
    StartSeeded();
    Words3();
    RoundIs(0x61C8864F184BAF2A, 0xD56F5A543F5C8B53, 0xA2535B2552BB743A, 0x7E2964CD87302F9D, 0x0, 0xDFF1EB1C9F7BDEC7,
          0x6FF8F58E, 0x9F7BDEC7, 0x4FBDEF63EFF8F58E, 0x314881762EC4165F, 0x952B9F582D6589E2);
    LaneIs(0x9E3779B1, data, 0, 3, 0x61C8864F184BAF2A, 0xD56F5A543F5C8B53, 0x952B9F582D6589E2);
    RoundIs(0x952B9F582D6589E2, 0xE817987BED720048, 0xB083DFED6B7BAF80, 0x4279D2D120102E38, 0x0, 0xD7A572294D75B81A,
          0x6BD2B914, 0x14D75B81A, 0xA6BADC0D6BD2B914, 0x670B75377FDB5B80, 0x98FB81936B85618C);
    LaneIs(0x9E3779B1, data, 1, 3, 0x952B9F582D6589E2, 0xE817987BED720048, 0x98FB81936B85618C);
    RoundIs(0x98FB81936B85618C, 0xABBD6313784E8E6C, 0x829D63A764E5B6BF, 0xCB7562EEA26B1754, 0x1, 0x6470E4820DF078E0,
          0x32387241, 0xDF078E0, 0x6F83C7032387241, 0x44EB7F264F1D4BD, 0x62AC8BE8AC968A47);
    LaneIs(0x9E3779B1, data, 2, 3, 0x98FB81936B85618C, 0xABBD6313784E8E6C, 0x62AC8BE8AC968A47);
    RoundIs(0x62AC8BE8AC968A47, 0x9600ED62C4A28BEF, 0x721566A25E98800F, 0x85F84FDC2F8993C1, 0x0, 0xE8A4DBC4DC201E08,
          0x74526DE2, 0xDC201E08, 0x6E100F0474526DE2, 0x4405C309E3871234, 0x4A52D525AAA2462E);
    LaneIs(0x9E3779B1, data, 3, 3, 0x62AC8BE8AC968A47, 0x9600ED62C4A28BEF, 0x4A52D525AAA2462E);
    RoundIs(0x4A52D525AAA2462E, 0xD1482FE4F4C8F2EB, 0x9F2AC6EDDE03932F, 0x4A86E3C5F89CAF85, 0x0, 0x94D9B8EBA33EF5B3,
          0x4A6CDC75, 0x1A33EF5B3, 0xD19F7AD9CA6CDC75, 0x818DDABB8DB77CC5, 0x4ABBBCEFCDC393B3);
    LaneIs(0x9E3779B1, data, 4, 3, 0x4A52D525AAA2462E, 0xD1482FE4F4C8F2EB, 0x4ABBBCEFCDC393B3);
    RoundIs(0x4ABBBCEFCDC393B3, 0x87660356BA4CEB1A, 0x66F9CF9DBA20B961, 0x3FF3557DC1156B06, 0x0, 0x8AAF126D8ED8FEB9,
          0x45578936, 0x18ED8FEB9, 0xC76C7F5CC5578936, 0x7B402DB731446171, 0x8360639D25FFF77A);
    LaneIs(0x9E3779B1, data, 5, 3, 0x4ABBBCEFCDC393B3, 0x87660356BA4CEB1A, 0x8360639D25FFF77A);
  }

  lemma TurnedSeeded()
    ensures Rotl64(0x354F640A868424B9, 1) == 0x6A9EC8150D084972
    ensures Rotl64(0xB1224A2A33B724E2, 7) == 0x91251519DB927158
    ensures Rotl64(0x8CA87635D06B9826, 12) == 0x87635D06B98268CA
    ensures Rotl64(0x8360639D25FFF77A, 18) == 0x8E7497FFDDEA0D81
  {
    hide Pow2, Rotl64;
    assert Pow2(1) == 0x2 && Pow2(7) == 0x80 && Pow2(12) == 0x1000 && Pow2(18) == 0x40000
          && Pow2(46) == 0x400000000000 && Pow2(52) == 0x10000000000000 && Pow2(57) == 0x200000000000000
          && Pow2(63) == 0x8000000000000000 by {
      PowersOfTwo();
    }
    TurnIs(0x354F640A868424B9, 1, 0x0, 0x354F640A868424B9, 0x2, 0x8000000000000000, 0x6A9EC8150D084972);
    TurnIs(0xB1224A2A33B724E2, 7, 0x58, 0x1224A2A33B724E2, 0x80, 0x200000000000000, 0x91251519DB927158);
    TurnIs(0x8CA87635D06B9826, 12, 0x8CA, 0x87635D06B9826, 0x1000, 0x10000000000000, 0x87635D06B98268CA);
    TurnIs(0x8360639D25FFF77A, 18, 0x20D81, 0x239D25FFF77A, 0x40000, 0x400000000000, 0x8E7497FFDDEA0D81);
  }

  lemma Keyed0Seeded()
    ensures Round(0, 0x354F640A868424B9) == 0xDB8632579DC053ED
  {
    hide Round;
    RoundIs(0x0, 0x354F640A868424B9, 0x288B5F4C3B7718A2, 0x609F8DD668B12817, 0x0, 0x609F8DD668B12817, 0x304FC6EB,
          0x68B12817, 0x3458940BB04FC6EB, 0x205A03492FEE3BF6, 0xDB8632579DC053ED);
  }

  lemma Merged0Seeded()
    ensures MergeRound(0x119BD23580073115, 0x354F640A868424B9) == 0xCA2F1B9F7C978F2B
  {
    hide Xor, Pow2, Generator, TestBuffer, ReadLE64, ReadLE32, LE, Round, Tail, Process1, Process4, Process8, Absorb,
          AfterStripes, Converge, MergeRound, Avalanche, Rotl64, Rotl32, Lane, LaneAt, Moves;
    Keyed0Seeded();
    XorIs(0x11, 0x9b, 0xd2, 0x35, 0x80, 0x07, 0x31, 0x15, 0xdb, 0x86, 0x32, 0x57, 0x9d, 0xc0, 0x53, 0xed);
    MergeIs(0x119BD23580073115, 0x354F640A868424B9, 0xDB8632579DC053ED, 0xCA1DE0621DC762F8, 0x7CEA3CFC0AE7A7BB,
          0x44435127B9E4E0C8, 0x0, 0xCA2F1B9F7C978F2B);
  }

  lemma Keyed1Seeded()
    ensures Round(0, 0xB1224A2A33B724E2) == 0x6877D9E602BAB4B7
  {
    hide Round;
    RoundIs(0x0, 0xB1224A2A33B724E2, 0x86B79E9B2BACA702, 0xB356C0A20D87D7BE, 0x0, 0xB356C0A20D87D7BE, 0x59AB6051,
          0xD87D7BE, 0x6C3EBDF59AB6051, 0x42E62E2D1D0B4D1, 0x6877D9E602BAB4B7);
  }

  lemma Merged1Seeded()
    ensures MergeRound(0xCA2F1B9F7C978F2B, 0xB1224A2A33B724E2) == 0x85397C72C1CA35A7
  {
    hide Xor, Pow2, Generator, TestBuffer, ReadLE64, ReadLE32, LE, Round, Tail, Process1, Process4, Process8, Absorb,
          AfterStripes, Converge, MergeRound, Avalanche, Rotl64, Rotl32, Lane, LaneAt, Moves;
    Keyed1Seeded();
    XorIs(0xca, 0x2f, 0x1b, 0x9f, 0x7c, 0x97, 0x8f, 0x2b, 0x68, 0x77, 0xd9, 0xe6, 0x02, 0xba, 0xb4, 0xb7);
    MergeIs(0xCA2F1B9F7C978F2B, 0xB1224A2A33B724E2, 0x6877D9E602BAB4B7, 0xA258C2797E2D3B9C, 0x6455F6454C318E18,
          0xFF4DB1FAFF178744, 0x1, 0x85397C72C1CA35A7);
  }

  lemma Keyed2Seeded()
    ensures Round(0, 0x8CA87635D06B9826) == 0xC01885B71DC3ADE7
  {
    hide Round;
    RoundIs(0x0, 0x8CA87635D06B9826, 0x6AF9D67313BBD966, 0x8549F343DF56D5BA, 0x0, 0x8549F343DF56D5BA, 0x42A4F9A1,
          0x1DF56D5BA, 0xEFAB6ADD42A4F9A1, 0x941FBBB6BD136979, 0xC01885B71DC3ADE7);
  }

  lemma Merged2Seeded()
    ensures MergeRound(0x85397C72C1CA35A7, 0x8CA87635D06B9826) == 0xBF371E9660A47823
  {
    hide Xor, Pow2, Generator, TestBuffer, ReadLE64, ReadLE32, LE, Round, Tail, Process1, Process4, Process8, Absorb,
          AfterStripes, Converge, MergeRound, Avalanche, Rotl64, Rotl32, Lane, LaneAt, Moves;
    Keyed2Seeded();
    XorIs(0x85, 0x39, 0x7c, 0x72, 0xc1, 0xca, 0x35, 0xa7, 0xc0, 0x18, 0x85, 0xb7, 0x1d, 0xc3, 0xad, 0xe7);
    MergeIs(0x85397C72C1CA35A7, 0x8CA87635D06B9826, 0xC01885B71DC3ADE7, 0x4521F9C5DC099840, 0x2AB9F351C706BC7A,
          0x394B541E9DF1C9C0, 0x0, 0xBF371E9660A47823);
  }

  lemma Keyed3Seeded()
    ensures Round(0, 0x8360639D25FFF77A) == 0xFB183DF96E898E9
  {
    hide Round;
    RoundIs(0x0, 0x8360639D25FFF77A, 0x63EABDED402DE58C, 0x4245A1F39325CA6, 0x0, 0x4245A1F39325CA6, 0x2122D0F,
          0x139325CA6, 0x9C992E5302122D0F, 0x60C879F12DD6BEA8, 0xFB183DF96E898E9);
  }

  lemma Merged3Seeded()
    ensures MergeRound(0xBF371E9660A47823, 0x8360639D25FFF77A) == 0x3DAD07D69A0A9CE9
  {
    hide Xor, Pow2, Generator, TestBuffer, ReadLE64, ReadLE32, LE, Round, Tail, Process1, Process4, Process8, Absorb,
          AfterStripes, Converge, MergeRound, Avalanche, Rotl64, Rotl32, Lane, LaneAt, Moves;
    Keyed3Seeded();
    XorIs(0xbf, 0x37, 0x1e, 0x96, 0x60, 0xa4, 0x78, 0x23, 0x0f, 0xb1, 0x83, 0xdf, 0x96, 0xe8, 0x98, 0xe9);
    MergeIs(0xBF371E9660A47823, 0x8360639D25FFF77A, 0xFB183DF96E898E9, 0xB0869D49F64CE0CA, 0x6D1955E97AAA99BF,
          0xB7C13D5ED757EE86, 0x1, 0x3DAD07D69A0A9CE9);
  }

  lemma TogetherSeeded()
    ensures Converge(Lanes(0x354F640A868424B9, 0xB1224A2A33B724E2, 0x8CA87635D06B9826,
          0x8360639D25FFF77A)) == 0x3DAD07D69A0A9CE9
  {
    hide Xor, Pow2, Generator, TestBuffer, ReadLE64, ReadLE32, LE, Round, Tail, Process1, Process4, Process8, Absorb,
          AfterStripes, Converge, MergeRound, Avalanche, Rotl64, Rotl32, Lane, LaneAt, Moves, Hash;
    TurnedSeeded();
    Merged0Seeded();
    Merged1Seeded();
    Merged2Seeded();
    Merged3Seeded();
    ConvergeIs(Lanes(0x354F640A868424B9, 0xB1224A2A33B724E2, 0x8CA87635D06B9826, 0x8360639D25FFF77A),
          0x6A9EC8150D084972, 0x91251519DB927158, 0x87635D06B98268CA, 0x8E7497FFDDEA0D81, 0x0, 0xFBC3DD2EE89ABACA,
          0x1, 0x15D7F506976C764B, 0x1, 0x119BD23580073115, 0xCA2F1B9F7C978F2B, 0x85397C72C1CA35A7,
          0xBF371E9660A47823, 0x3DAD07D69A0A9CE9);
  }

  lemma Tail222At192Seeded()
    ensures Moves(TestBuffer(222), 0x3DAD07D69A0A9DC7, 192, 0x531A7D1189F3DE68, 200)
  {
    hide Xor, Pow2, Generator, TestBuffer, ReadLE64, ReadLE32, LE, Round, Tail, Process1, Process4, Process8, Absorb,
          AfterStripes, Converge, MergeRound, Avalanche, Rotl64, Rotl32, Lane, LaneAt, Moves;
    var data := TestBuffer(222);
    Buffer3(222);
    Keyed222At192();
    XorIs(0x3d, 0xad, 0x07, 0xd6, 0x9a, 0x0a, 0x9d, 0xc7, 0x2b, 0x5e, 0x05, 0xbd, 0x7b, 0x39, 0xf5, 0xc9);
    Tail8Is(0x3DAD07D69A0A9DC7, data, 192, 0xB64485C1594500ED, 0x2B5E05BD7B39F5C9, 0x16F3026BE133680E, 0xB79813,
          0xBE133680E, 0x5F099B4070B79813, 0x3ABC860F9226DACB, 0xCD2EB299C7413005, 0x1, 0x531A7D1189F3DE68);
  }

  lemma Tail222At200Seeded()
    ensures Moves(TestBuffer(222), 0x531A7D1189F3DE68, 200, 0x22F4E0935F984DC7, 208)
  {
    hide Xor, Pow2, Generator, TestBuffer, ReadLE64, ReadLE32, LE, Round, Tail, Process1, Process4, Process8, Absorb,
          AfterStripes, Converge, MergeRound, Avalanche, Rotl64, Rotl32, Lane, LaneAt, Moves;
    var data := TestBuffer(222);
    Buffer3(222);
    Keyed222At200();
    XorIs(0x53, 0x1a, 0x7d, 0x11, 0x89, 0xf3, 0xde, 0x68, 0x39, 0xe3, 0x32, 0x9e, 0x45, 0x30, 0xb3, 0xa7);
    Tail8Is(0x531A7D1189F3DE68, data, 200, 0x87F9EAA941F968C3, 0x39E3329E4530B3A7, 0x6AF94F8FCCC36DCF, 0x357CA7C,
          0xFCCC36DCF, 0x7E661B6E7B57CA7C, 0x4E1E68F3FE8C567F, 0x9D09161B9CE59F64, 0x1, 0x22F4E0935F984DC7);
  }

  lemma Tail222At208Seeded()
    ensures Moves(TestBuffer(222), 0x22F4E0935F984DC7, 208, 0x24137E81132671F3, 216)
  {
    hide Xor, Pow2, Generator, TestBuffer, ReadLE64, ReadLE32, LE, Round, Tail, Process1, Process4, Process8, Absorb,
          AfterStripes, Converge, MergeRound, Avalanche, Rotl64, Rotl32, Lane, LaneAt, Moves;
    var data := TestBuffer(222);
    Buffer3(222);
    Keyed222At208();
    XorIs(0x22, 0xf4, 0xe0, 0x93, 0x5f, 0x98, 0x4d, 0xc7, 0xdb, 0x92, 0x9e, 0x82, 0xf8, 0x57, 0xa1, 0xf7);
    Tail8Is(0x22F4E0935F984DC7, data, 208, 0x485414D5D0129FE0, 0xDB929E82F857A1F7, 0xF9667E11A7CFEC30, 0x7CB33F0,
          0x11A7CFEC30, 0x8D3E7F6187CB33F0, 0x574B2E300C12529E, 0x9E27B4095073C390, 0x1, 0x24137E81132671F3);
  }

  lemma Tail222At216Seeded()
    ensures Moves(TestBuffer(222), 0x24137E81132671F3, 216, 0x22982B27FEB229D3, 220)
  {
    hide Xor, Pow2, Generator, TestBuffer, ReadLE64, ReadLE32, LE, Round, Tail, Process1, Process4, Process8, Absorb,
          AfterStripes, Converge, MergeRound, Avalanche, Rotl64, Rotl32, Lane, LaneAt, Moves;
    var data := TestBuffer(222);
    End222();
    XorIs(0x24, 0x13, 0x7e, 0x81, 0x13, 0x26, 0x71, 0xf3, 0xce, 0x3b, 0x73, 0x17, 0xa1, 0x34, 0x6f, 0x0b);
    Tail4Is(0x24137E81132671F3, data, 216, 0x5140445D, 0x3237459F, 0xCE3B7317A1346F0B, 0xEA280D96B2121EF8, 0x751406,
          0x196B2121EF8, 0xCB59090F7C751406, 0x9AA7672D2118A2E3, 0xC41C376607AAFDA, 0x0, 0x22982B27FEB229D3);
  }

  lemma Tail222At220Seeded()
    ensures Moves(TestBuffer(222), 0x22982B27FEB229D3, 220, 0xF3667EC175328A36, 221)
  {
    hide Xor, Pow2, Generator, TestBuffer, ReadLE64, ReadLE32, LE, Round, Tail, Process1, Process4, Process8, Absorb,
          AfterStripes, Converge, MergeRound, Avalanche, Rotl64, Rotl32, Lane, LaneAt, Moves;
    var data := TestBuffer(222);
    End222();
    XorIs(0x22, 0x98, 0x2b, 0x27, 0xfe, 0xb2, 0x29, 0xd3, 0x51, 0xcc, 0x8a, 0xc0, 0xce, 0x9e, 0x03, 0xaf);
    Tail1Is(0x22982B27FEB229D3, data, 220, 0xE3, 0x23, 0x51CC8AC0CE9E03AF, 0x7354A1E7302C2A7C, 0x39A,
          0x14A1E7302C2A7C, 0xA50F39816153E39A, 0x66032A39DCEB8962, 0xF3667EC175328A36);
  }

  lemma Tail222At221Seeded()
    ensures Moves(TestBuffer(222), 0xF3667EC175328A36, 221, 0x852919ED81794CC9, 222)
  {
    hide Xor, Pow2, Generator, TestBuffer, ReadLE64, ReadLE32, LE, Round, Tail, Process1, Process4, Process8, Absorb,
          AfterStripes, Converge, MergeRound, Avalanche, Rotl64, Rotl32, Lane, LaneAt, Moves;
    var data := TestBuffer(222);
    End222();
    XorIs(0xf3, 0x66, 0x7e, 0xc1, 0x75, 0x32, 0x8a, 0x36, 0xb6, 0x93, 0x72, 0x4c, 0xe2, 0xe6, 0xb3, 0x18);
    Tail1Is(0xF3667EC175328A36, data, 221, 0x38, 0x8, 0xB693724CE2E6B318, 0x45F50C8D97D4392E, 0x22F,
          0x150C8D97D4392E, 0xA8646CBEA1C9722F, 0x681278BD41BBA6ED, 0x852919ED81794CC9);
  }

  lemma Tail222Seeded()
    ensures Moves(TestBuffer(222), 0x3DAD07D69A0A9DC7, 192, 0x852919ED81794CC9, 222)
  {
    hide Xor, Pow2, Generator, TestBuffer, ReadLE64, ReadLE32, LE, Round, Tail, Process1, Process4, Process8, Absorb,
          AfterStripes, Converge, MergeRound, Avalanche, Rotl64, Rotl32, Lane, LaneAt, Moves;
    var data := TestBuffer(222);
    Tail222At192Seeded();
    Tail222At200Seeded();
    Onward(data, 0x3DAD07D69A0A9DC7, 192, 0x531A7D1189F3DE68, 200, 0x22F4E0935F984DC7, 208);
    Tail222At208Seeded();
    Onward(data, 0x3DAD07D69A0A9DC7, 192, 0x22F4E0935F984DC7, 208, 0x24137E81132671F3, 216);
    Tail222At216Seeded();
    Onward(data, 0x3DAD07D69A0A9DC7, 192, 0x24137E81132671F3, 216, 0x22982B27FEB229D3, 220);
    Tail222At220Seeded();
    Onward(data, 0x3DAD07D69A0A9DC7, 192, 0x22982B27FEB229D3, 220, 0xF3667EC175328A36, 221);
    Tail222At221Seeded();
    Onward(data, 0x3DAD07D69A0A9DC7, 192, 0xF3667EC175328A36, 221, 0x852919ED81794CC9, 222);
  }

  lemma Hash222Seeded()
    ensures Hash(0x9E3779B1, TestBuffer(222)) == 0x20CB8AB7AE10C14A
  {
    hide Xor, Pow2, Generator, TestBuffer, ReadLE64, ReadLE32, LE, Round, Tail, Process1, Process4, Process8, Absorb,
          AfterStripes, Converge, MergeRound, Avalanche, Rotl64, Rotl32, Lane, LaneAt, Moves, Hash;
    var data := TestBuffer(222);
    Lane0Seeded();
    Lane1Seeded();
    Lane2Seeded();
    Lane3Seeded();
    TogetherSeeded();
    Tail222Seeded();
    LongIs(0x9E3779B1, data, 6, 0x354F640A868424B9, 0xB1224A2A33B724E2, 0x8CA87635D06B9826, 0x8360639D25FFF77A,
          0x3DAD07D69A0A9CE9, 0x0, 0x3DAD07D69A0A9DC7, 0x852919ED81794CC9);
    XorIs(0x85, 0x29, 0x19, 0xed, 0x81, 0x79, 0x4c, 0xc9, 0x00, 0x00, 0x00, 0x00, 0x42, 0x94, 0x8c, 0xf6);
    XorIs(0x36, 0x5b, 0x5d, 0x6a, 0x83, 0x04, 0x28, 0x71, 0x00, 0x00, 0x00, 0x01, 0xb2, 0xda, 0xeb, 0x54);
    XorIs(0x20, 0xcb, 0x8a, 0xb7, 0x8e, 0xdb, 0x4b, 0xfd, 0x00, 0x00, 0x00, 0x00, 0x20, 0xcb, 0x8a, 0xb7);
    AvalancheIs(0x852919ED81794CC9, 0x42948CF6, 0x181794CC9, 0x852919EDC3EDC03F, 0x654616DBF4EF3335,
          0x365B5D6A83042871, 0x1B2DAEB54, 0x3042871, 0x365B5D6B31DEC325, 0x4BE32BD11A5C8F8, 0x20CB8AB78EDB4BFD,
          0x20CB8AB7, 0x8EDB4BFD);
  }

  /** xxhsum.c lines 1241 to 1244. */
  lemma KnownHashes()
    ensures Hash(0, TestBuffer(14)) == 0x8282DCC4994E35C8 && Hash(0x9E3779B1, TestBuffer(14)) == 0xC3BD6BF63DEB6DF0
    ensures Hash(0, TestBuffer(222)) == 0xB641AE8CB691C174 && Hash(0x9E3779B1, TestBuffer(222)) == 0x20CB8AB7AE10C14A
  {
    hide Hash, TestBuffer, Generator;
    Hash14();
    Hash14Seeded();
    Hash222();
    Hash222Seeded();
  }
}
