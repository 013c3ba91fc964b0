/** Working hashes out by hand: exclusive or, shifts and loads of given words as arithmetic, and the
    buffer of the self-test whose hashes the program states. */
module KnownWords {
  import opened Words
  import opened Bits
  import opened LongMultiply

  // ----- exclusive or, byte by byte -----

  function Value(x: bv8): byte
  {
    x as nat
  }

  lemma ByteHalf(x: bv8)
    ensures Value(x) == 2 * Value(x >> 1) + Value(x & 1) && Value(x & 1) < 2 && (x == 0 <==> Value(x) == 0)
  {
  }

  lemma LowBits(x: bv8, y: bv8)
    ensures Value((x ^ y) & 1) == if Value(x & 1) != Value(y & 1) then 1 else 0
    ensures (x ^ y) >> 1 == (x >> 1) ^ (y >> 1) && (x == 0 && y == 0 ==> x ^ y == 0)
  {
  }

  /** On one byte, the machine's exclusive or is that of the specification. */
  lemma {:induction false} XorBits(x: bv8, y: bv8, n: nat)
    requires Value(x) < Pow2(n) && Value(y) < Pow2(n)
    ensures Xor(Value(x), Value(y)) == Value(x ^ y)
    decreases n
  {
    hide *;
    if n > 0 {
      HalvesFit(x, y, n);
      XorBits(x >> 1, y >> 1, n - 1);
      FromHalves(x, y);
    } else {
      NothingLeft(x, y);
    }
  }

  lemma HalvesFit(x: bv8, y: bv8, n: nat)
    requires n > 0 && Value(x) < Pow2(n) && Value(y) < Pow2(n)
    ensures Value(x >> 1) < Pow2(n - 1) && Value(y >> 1) < Pow2(n - 1)
  {
    hide Value;
    ByteHalf(x);
    ByteHalf(y);
  }

  lemma NothingLeft(x: bv8, y: bv8)
    requires Value(x) < Pow2(0) && Value(y) < Pow2(0)
    ensures Xor(Value(x), Value(y)) == Value(x ^ y)
  {
    hide Value, Xor;
    ByteHalf(x);
    ByteHalf(y);
    ByteHalf(x ^ y);
    LowBits(x, y);
    XorZero(0);
  }

  lemma FromHalves(x: bv8, y: bv8)
    requires Xor(Value(x >> 1), Value(y >> 1)) == Value((x >> 1) ^ (y >> 1))
    ensures Xor(Value(x), Value(y)) == Value(x ^ y)
  {
    hide Value, Xor;
    ByteHalf(x);
    ByteHalf(y);
    ByteHalf(x ^ y);
    LowBits(x, y);
    XorHalves(Value(x), Value(y));
    WholeXor(Value(x), Value(x >> 1), Value(x & 1));
    WholeXor(Value(y), Value(y >> 1), Value(y & 1));
  }

  lemma WholeXor(x: nat, h: nat, l: nat)
    requires x == 2 * h + l && l < 2
    ensures x / 2 == h && x % 2 == l
  {
  }

  lemma XorValues(x: bv8, y: bv8)
    ensures Xor(Value(x), Value(y)) == Value(x ^ y)
  {
    hide Xor, Pow2, Value;
    Pow2Values();
    XorBits(x, y, 8);
  }

  function Quad(x0: nat, x1: nat, x2: nat, x3: nat, above: nat): nat
  {
    x3 + 0x100 * (x2 + 0x100 * (x1 + 0x100 * (x0 + 0x100 * above)))
  }

  lemma QuadIs(x0: nat, x1: nat, x2: nat, x3: nat, above: nat)
    ensures Quad(x0, x1, x2, x3, above) == x3 + 0x100 * (x2 + 0x100 * (x1 + 0x100 * (x0 + 0x100 * above)))
  {
  }

  lemma XorHalf(x0: byte, x1: byte, x2: byte, x3: byte, y0: byte, y1: byte, y2: byte, y3: byte, x: nat, y: nat)
    ensures Xor(Quad(x0, x1, x2, x3, x), Quad(y0, y1, y2, y3, y)) ==
            Quad(Xor(x0, y0), Xor(x1, y1), Xor(x2, y2), Xor(x3, y3), Xor(x, y))
  {
    hide Xor, Quad;
    var u, v := x0 + 0x100 * x, y0 + 0x100 * y;
    XorAbove(x0, y0, x, y);
    XorAbove(x1, y1, u, v);
    XorAbove(x2, y2, x1 + 0x100 * u, y1 + 0x100 * v);
    XorAbove(x3, y3, x2 + 0x100 * (x1 + 0x100 * u), y2 + 0x100 * (y1 + 0x100 * v));
    QuadIs(x0, x1, x2, x3, x);
    QuadIs(y0, y1, y2, y3, y);
    QuadIs(Xor(x0, y0), Xor(x1, y1), Xor(x2, y2), Xor(x3, y3), Xor(x, y));
  }

  lemma XorFour(x0: bv8, x1: bv8, x2: bv8, x3: bv8, y0: bv8, y1: bv8, y2: bv8, y3: bv8, x: nat, y: nat)
    ensures Xor(Quad(Value(x0), Value(x1), Value(x2), Value(x3), x), Quad(Value(y0), Value(y1), Value(y2), Value(y3),
          y)) ==
            Quad(Value(x0 ^ y0), Value(x1 ^ y1), Value(x2 ^ y2), Value(x3 ^ y3), Xor(x, y))
  {
    hide *;
    XorValues(x0, y0);
    XorValues(x1, y1);
    XorValues(x2, y2);
    XorValues(x3, y3);
    XorHalf(Value(x0), Value(x1), Value(x2), Value(x3), Value(y0), Value(y1), Value(y2), Value(y3), x, y);
  }

  /** A word from its bytes, the highest first. */
  function Word(x0: bv8, x1: bv8, x2: bv8, x3: bv8, x4: bv8, x5: bv8, x6: bv8, x7: bv8): nat
  {
    Quad(x4 as nat, x5 as nat, x6 as nat, x7 as nat, Quad(x0 as nat, x1 as nat, x2 as nat, x3 as nat, 0))
  }

  lemma WordIs(x0: bv8, x1: bv8, x2: bv8, x3: bv8, x4: bv8, x5: bv8, x6: bv8, x7: bv8)
    ensures Word(x0, x1, x2, x3, x4, x5, x6, x7) ==
            Quad(Value(x4), Value(x5), Value(x6), Value(x7), Quad(Value(x0), Value(x1), Value(x2), Value(x3), 0))
  {
  }

  lemma NothingXor()
    ensures Xor(0, 0) == 0
  {
  }

  /** The exclusive or of two words given in bytes. */
  lemma XorIs(x0: bv8, x1: bv8, x2: bv8, x3: bv8, x4: bv8, x5: bv8, x6: bv8, x7: bv8,
              y0: bv8, y1: bv8, y2: bv8, y3: bv8, y4: bv8, y5: bv8, y6: bv8, y7: bv8)
    ensures Xor(Word(x0, x1, x2, x3, x4, x5, x6, x7), Word(y0, y1, y2, y3, y4, y5, y6, y7)) ==
            Word(x0 ^ y0, x1 ^ y1, x2 ^ y2, x3 ^ y3, x4 ^ y4, x5 ^ y5, x6 ^ y6, x7 ^ y7)
  {
    hide *;
    NothingXor();
    XorFour(x0, x1, x2, x3, y0, y1, y2, y3, 0, 0);
    XorFour(x4, x5, x6, x7, y4, y5, y6, y7,
            Quad(Value(x0), Value(x1), Value(x2), Value(x3), 0), Quad(Value(y0), Value(y1), Value(y2), Value(y3), 0));
    WordIs(x0, x1, x2, x3, x4, x5, x6, x7);
    WordIs(y0, y1, y2, y3, y4, y5, y6, y7);
    WordIs(x0 ^ y0, x1 ^ y1, x2 ^ y2, x3 ^ y3, x4 ^ y4, x5 ^ y5, x6 ^ y6, x7 ^ y7);
  }

  // ----- shifts and rotations -----

  lemma PowersOfTwo()
    ensures Pow2(1) == 0x2 && Pow2(3) == 0x8 && Pow2(7) == 0x80 && Pow2(8) == 0x100
    ensures Pow2(11) == 0x800 && Pow2(12) == 0x1000 && Pow2(13) == 0x2000 && Pow2(14) == 0x4000
    ensures Pow2(15) == 0x8000 && Pow2(16) == 0x10000 && Pow2(17) == 0x20000 && Pow2(18) == 0x40000
    ensures Pow2(19) == 0x80000 && Pow2(20) == 0x100000 && Pow2(21) == 0x200000 && Pow2(23) == 0x800000
    ensures Pow2(24) == 0x1000000 && Pow2(25) == 0x2000000 && Pow2(27) == 0x8000000 && Pow2(28) == 0x10000000
    ensures Pow2(29) == 0x20000000 && Pow2(31) == 0x80000000 && Pow2(32) == 0x100000000 && Pow2(33) == 0x200000000
    ensures Pow2(34) == 0x400000000 && Pow2(35) == 0x800000000 && Pow2(37) == 0x2000000000 && Pow2(40) == 0x10000000000
    ensures Pow2(41) == 0x20000000000 && Pow2(46) == 0x400000000000 && Pow2(47) == 0x800000000000
          && Pow2(48) == 0x1000000000000
    ensures Pow2(49) == 0x2000000000000 && Pow2(50) == 0x4000000000000 && Pow2(51) == 0x8000000000000
          && Pow2(52) == 0x10000000000000
    ensures Pow2(53) == 0x20000000000000 && Pow2(54) == 0x40000000000000 && Pow2(56) == 0x100000000000000
          && Pow2(57) == 0x200000000000000
    ensures Pow2(63) == 0x8000000000000000
  {
    assert Pow2(8) == 0x100;
    assert Pow2(16) == 0x10000;
    assert Pow2(24) == 0x1000000;
    assert Pow2(32) == 0x100000000;
    assert Pow2(40) == 0x10000000000;
    assert Pow2(48) == 0x1000000000000;
    assert Pow2(56) == 0x100000000000000;
    assert Pow2(64) == 0x10000000000000000;
  }

  /** Rotated: what leaves at the top comes in at the bottom. */
  lemma Rotl64Is(x: u64, n: nat)
    requires 0 < n < 64
    ensures Rotl64(x, n) == x * Pow2(n) % W64 + x / Pow2(64 - n)
  {
    hide Or, Pow2;
    Pow2Values();
    ShiftedOut(x, n, 64 - n);
    OrIsSum(n, x % Pow2(64 - n), x / Pow2(64 - n));
  }

  lemma Rotl32Is(x: u32, n: nat)
    requires 0 < n < 32
    ensures Rotl32(x, n) == x * Pow2(n) % W32 + x / Pow2(32 - n)
  {
    hide Or, Pow2;
    Pow2Values();
    ShiftedOut(x, n, 32 - n);
    OrIsSum(n, x % Pow2(32 - n), x / Pow2(32 - n));
  }

  /** With the word cut into what leaves and what stays. */
  lemma Rotl64Parts(x: u64, n: nat, hi: nat, lo: nat)
    requires 0 < n < 64 && x == hi * Pow2(64 - n) + lo && lo < Pow2(64 - n)
    ensures Rotl64(x, n) == lo * Pow2(n) + hi
  {
    hide Rotl64, Pow2;
    Pow2Values();
    Rotl64Is(x, n);
    ShiftedOut(x, n, 64 - n);
    ModUnique(x, Pow2(64 - n), hi, lo);
  }

  lemma Rotl32Parts(x: u32, n: nat, hi: nat, lo: nat)
    requires 0 < n < 32 && x == hi * Pow2(32 - n) + lo && lo < Pow2(32 - n)
    ensures Rotl32(x, n) == lo * Pow2(n) + hi
  {
    hide Rotl32, Pow2;
    Pow2Values();
    Rotl32Is(x, n);
    ShiftedOut(x, n, 32 - n);
    ModUnique(x, Pow2(32 - n), hi, lo);
  }

  lemma ShiftIs(x: nat, n: nat, d: nat, e: nat)
    requires x == d * Pow2(n) + e && e < Pow2(n)
    ensures x / Pow2(n) == d
  {
    hide Pow2;
    ModUnique(x, Pow2(n), d, e);
  }

  /** A sum or product that wraps, with what is lost. */
  lemma Wraps(a: nat, q: nat, m: u64)
    requires a == q * W64 + m
    ensures a % W64 == m
  {
    ModUnique(a, W64, q, m);
  }

  lemma Wraps32(a: nat, q: nat, m: u32)
    requires a == q * W32 + m
    ensures a % W32 == m
  {
    ModUnique(a, W32, q, m);
  }

  lemma ShiftedOut(x: nat, n: nat, m: nat)
    requires x < Pow2(n + m)
    ensures x * Pow2(n) % Pow2(n + m) == x % Pow2(m) * Pow2(n) && x / Pow2(m) < Pow2(n)
  {
    hide Pow2;
    PowersMultiply(n, m);
    var p, q := Pow2(n), Pow2(m);
    var h, l := x / q, x % q;
    assert x == h * q + l;
    assert x * p == h * (p * q) + l * p by { assert h * q * p == h * (p * q); }
    assert l * p < q * p by { MulMonotone(l + 1, p, q, p); }
    ModUnique(x * p, p * q, h, l * p);
    if h >= p {
      MulMonotone(p, q, h, q);
    }
  }

  lemma {:induction false} PowersMultiply(n: nat, m: nat)
    ensures Pow2(n + m) == Pow2(n) * Pow2(m)
    decreases n
  {
    if n > 0 {
      PowersMultiply(n - 1, m);
      assert 2 * Pow2(n - 1) * Pow2(m) == 2 * (Pow2(n - 1) * Pow2(m));
    } else {
      assert Pow2(0) == 1;
    }
  }

  /** A product folded, worked out. */
  lemma FoldIs(x: u64, y: u64, lo: u64, hi: u64)
    requires x * y == hi * W64 + lo
    ensures Mul128Fold64(x, y) == Xor(lo, hi)
  {
    hide Mult64to128, Xor;
    ProductIs(x, y, lo, hi);
  }

  lemma ProductIs(x: u64, y: u64, lo: u64, hi: u64)
    requires x * y == hi * W64 + lo
    ensures Mult64to128(x, y) == U128(lo, hi)
  {
    hide Mult64to128;
    var m := Mult64to128(x, y);
    Mult64to128Exact(x, y);
    ModUnique(x * y, W64, m.high64, m.low64);
    ModUnique(x * y, W64, hi, lo);
  }

  // ----- loads -----

  lemma Load8(s: seq<byte>, pos: nat)
    requires pos + 8 <= |s|
    ensures ReadLE64(s, pos) == Quad(s[pos + 3], s[pos + 2], s[pos + 1], s[pos],
                                     Quad(s[pos + 7], s[pos + 6], s[pos + 5], s[pos + 4], 0))
  {
    hide Quad;
    var w := s[pos..pos + 8];
    LoadTwice(w[..4], w[4..]);
    assert w == w[..4] + w[4..];
    FourLoaded(w[..4]);
    FourLoaded(w[4..]);
    QuadIs(w[3], w[2], w[1], w[0], LE(w[4..]));
    QuadIs(w[3], w[2], w[1], w[0], 0);
  }

  lemma FourLoaded(w: seq<byte>)
    requires |w| == 4
    ensures LE(w) == Quad(w[3], w[2], w[1], w[0], 0)
  {
    var u := w[1..];
    var v := u[1..];
    assert v[1..] == [w[3]];
    assert LE(v) == w[2] + 0x100 * LE(v[1..]);
    assert LE(u) == w[1] + 0x100 * LE(v);
  }

  lemma LoadTwice(s: seq<byte>, t: seq<byte>)
    requires |s| == 4
    ensures LE(s + t) == LE(s) + W32 * LE(t)
  {
    hide Pow2;
    var r := s + t;
    assert r[1..] == s[1..] + t && r[1..][1..] == s[1..][1..] + t && r[1..][1..][1..] == s[1..][1..][1..] + t;
    assert r[1..][1..][1..][1..] == t;
    assert LE(r) == s[0] + 0x100 * LE(r[1..]);
    assert LE(r[1..]) == s[1] + 0x100 * LE(r[1..][1..]);
    assert LE(r[1..][1..]) == s[2] + 0x100 * LE(r[1..][1..][1..]);
    assert LE(r[1..][1..][1..]) == s[3] + 0x100 * LE(t);
    FourLoaded(s);
  }

  lemma Load4(s: seq<byte>, pos: nat)
    requires pos + 4 <= |s|
    ensures ReadLE32(s, pos) == Quad(s[pos + 3], s[pos + 2], s[pos + 1], s[pos], 0)
  {
    FourLoaded(s[pos..pos + 4]);
  }

  // ----- the self-test's buffer -----

  const SELF_TEST_PRIME32 := 2654435761
  const SELF_TEST_PRIME64 := 11400714785074694797
  const TOP := 0x100_0000_0000_0000

  /** The generator before byte `i` of the buffer. */
  function Generator(i: nat): u64
  {
    if i == 0 then SELF_TEST_PRIME32 else Mul64(Generator(i - 1), SELF_TEST_PRIME64)
  }

  function TestByte(g: u64): byte
  {
    g / TOP
  }

  function TestBuffer(n: nat): (s: seq<byte>)
    ensures |s| == n
  {
    seq(n, i requires 0 <= i => TestByte(Generator(i)))
  }

  lemma BufferByte(n: nat, i: nat, g: u64)
    requires i < n && g == Generator(i)
    ensures TestBuffer(n)[i] == TestByte(g)
  {
  }

  /** Eight bytes of the buffer, from the generator's states. */
  lemma Made(n: nat, i: nat, g: u64, g1: u64, g2: u64, g3: u64, g4: u64, g5: u64, g6: u64, g7: u64, g8: u64)
    requires Generator(i) == g
    requires g * SELF_TEST_PRIME64 % W64 == g1 && g1 * SELF_TEST_PRIME64 % W64 == g2
          && g2 * SELF_TEST_PRIME64 % W64 == g3
    requires g3 * SELF_TEST_PRIME64 % W64 == g4 && g4 * SELF_TEST_PRIME64 % W64 == g5
          && g5 * SELF_TEST_PRIME64 % W64 == g6
    requires g6 * SELF_TEST_PRIME64 % W64 == g7 && g7 * SELF_TEST_PRIME64 % W64 == g8
    ensures Generator(i + 8) == g8
    ensures i + 8 <= n ==> (ReadLE64(TestBuffer(n), i) ==
                            Quad(g3 / TOP, g2 / TOP, g1 / TOP, g / TOP, Quad(g7 / TOP, g6 / TOP, g5 / TOP, g4 / TOP,
                                  0)))
  {
    hide TestBuffer, ReadLE64, Quad;
    assert Generator(i + 1) == g1;
    assert Generator(i + 2) == g2;
    assert Generator(i + 3) == g3;
    assert Generator(i + 4) == g4;
    assert Generator(i + 5) == g5;
    assert Generator(i + 6) == g6;
    assert Generator(i + 7) == g7;
    if i + 8 <= n {
      Load8(TestBuffer(n), i);
      BufferByte(n, i, g);
      BufferByte(n, i + 1, g1);
      BufferByte(n, i + 2, g2);
      BufferByte(n, i + 3, g3);
      BufferByte(n, i + 4, g4);
      BufferByte(n, i + 5, g5);
      BufferByte(n, i + 6, g6);
      BufferByte(n, i + 7, g7);
    }
  }

  /** A shorter buffer is the start of a longer one. */
  lemma Shorter(n: nat, m: nat, pos: nat)
    requires n <= m && pos <= n
    ensures pos + 8 <= n ==> ReadLE64(TestBuffer(n), pos) == ReadLE64(TestBuffer(m), pos)
    ensures pos + 4 <= n ==> ReadLE32(TestBuffer(n), pos) == ReadLE32(TestBuffer(m), pos)
  {
    hide LE, Generator;
    if pos + 8 <= n {
      assert TestBuffer(n)[pos..pos + 8] == TestBuffer(m)[pos..pos + 8];
    }
    if pos + 4 <= n {
      assert TestBuffer(n)[pos..pos + 4] == TestBuffer(m)[pos..pos + 4];
    }
  }

  /** A load that is not aligned takes the top of one word and the bottom of the next. */
  lemma Across(s: seq<byte>, pos: nat, d: nat, p: nat, r: nat, hi: nat, lo: nat, hi': nat, lo': nat)
    requires 0 < d < 8 && pos + 16 <= |s| && Pow2(8 * d) == p && Pow2(64 - 8 * d) == r
    requires ReadLE64(s, pos) == hi * p + lo && lo < p && ReadLE64(s, pos + 8) == hi' * p + lo' && lo' < p
    ensures ReadLE64(s, pos + d) == lo' * r + hi
  {
    hide LE, Pow2;
    LESplit(s[pos..pos + 8], d);
    LESplit(s[pos + 8..pos + 16], d);
    LESplit(s[pos + d..pos + d + 8], 8 - d);
    assert s[pos..pos + 8][d..] == s[pos + d..pos + d + 8][..8 - d];
    assert s[pos + 8..pos + 16][..d] == s[pos + d..pos + d + 8][8 - d..];
    SameParts(p, LE(s[pos..pos + 8][d..]), LE(s[pos..pos + 8][..d]), hi, lo);
    SameParts(p, LE(s[pos + 8..pos + 16][d..]), LE(s[pos + 8..pos + 16][..d]), hi', lo');
  }

  lemma SameParts(p: nat, h: nat, l: nat, hi: nat, lo: nat)
    requires p > 0 && h * p + l == hi * p + lo && l < p && lo < p
    ensures h == hi && l == lo
  {
    ModUnique(h * p + l, p, h, l);
    ModUnique(h * p + l, p, hi, lo);
  }

  /** A word is two half words. */
  lemma HalfLoads(s: seq<byte>, pos: nat, hi: nat, lo: nat)
    requires pos + 8 <= |s| && ReadLE64(s, pos) == hi * W32 + lo && lo < W32
    ensures ReadLE32(s, pos) == lo && ReadLE32(s, pos + 4) == hi
  {
    hide LE, Pow2;
    LESplit(s[pos..pos + 8], 4);
    assert s[pos..pos + 8][4..] == s[pos + 4..pos + 8] && s[pos..pos + 8][..4] == s[pos..pos + 4];
    Pow2Values();
    SameParts(W32, ReadLE32(s, pos + 4), ReadLE32(s, pos), hi, lo);
  }

  /** A byte of a word. */
  lemma ByteOf(s: seq<byte>, pos: nat, j: nat, p: nat, hi: nat, b: byte, lo: nat)
    requires pos + 8 <= |s| && j < 8 && Pow2(8 * j) == p && ReadLE64(s, pos) == (0x100 * hi + b) * p + lo && lo < p
    ensures s[pos + j] == b
  {
    hide Pow2;
    var w := s[pos..pos + 8];
    LESplit(w, j);
    SameParts(p, LE(w[j..]), LE(w[..j]), 0x100 * hi + b, lo);
    LowByte(w[j], LE(w[j..][1..]));
    LowByte(b, hi);
  }

  lemma SameByte(n: nat, m: nat, i: nat)
    requires i < n && i < m
    ensures TestBuffer(n)[i] == TestBuffer(m)[i]
  {
  }

  lemma Swap32Is(b0: byte, b1: byte, b2: byte, b3: byte)
    ensures Quad(b3, b2, b1, b0, 0) < W32 && Swap32(Quad(b3, b2, b1, b0, 0)) == Quad(b0, b1, b2, b3, 0)
  {
    hide LE, LEBytes, Quad;
    var s, r := [b0, b1, b2, b3], [b3, b2, b1, b0];
    FourLoaded(s);
    FourLoaded(r);
    Pow2Values();
    StoreLoad(s);
    assert Reverse(s) == r;
  }

  lemma Swap64Is(b0: byte, b1: byte, b2: byte, b3: byte, b4: byte, b5: byte, b6: byte, b7: byte)
    ensures Quad(b3, b2, b1, b0, Quad(b7, b6, b5, b4, 0)) < W64
    ensures Swap64(Quad(b3, b2, b1, b0, Quad(b7, b6, b5, b4, 0))) == Quad(b4, b5, b6, b7, Quad(b0, b1, b2, b3, 0))
  {
    hide LE, LEBytes, Quad;
    EightLoaded([b0, b1, b2, b3], [b4, b5, b6, b7]);
    EightLoaded([b7, b6, b5, b4], [b3, b2, b1, b0]);
    var s := [b0, b1, b2, b3] + [b4, b5, b6, b7];
    Pow2Values();
    StoreLoad(s);
    assert Reverse(s) == [b7, b6, b5, b4] + [b3, b2, b1, b0];
  }

  lemma EightLoaded(s: seq<byte>, t: seq<byte>)
    requires |s| == |t| == 4
    ensures LE(s + t) == Quad(s[3], s[2], s[1], s[0], Quad(t[3], t[2], t[1], t[0], 0))
  {
    hide LE, Quad;
    LoadTwice(s, t);
    FourLoaded(s);
    FourLoaded(t);
    QuadIs(s[3], s[2], s[1], s[0], LE(t));
    QuadIs(s[3], s[2], s[1], s[0], 0);
  }

  lemma First(n: nat)
    ensures Generator(8) == 0x2D0903738CC7A3D1 && (n >= 8 ==> ReadLE64(TestBuffer(n), 0) == 0x24A332B79B925200)
  {
    hide Generator, TestBuffer, ReadLE64;
    GeneratorStart();
    Made(n, 0, 0x9E3779B1, 0x52AB58B5950EB07D, 0x92EDB53AA418D6D9, 0x9B5ABE3CF1688F85, 0xB727E38E4FECFE41,
          0x32AFA30930D253CD, 0xA341F8EF4826E9E9, 0x246C391137E3AF55, 0x2D0903738CC7A3D1);
  }

  lemma Buffer0(n: nat)
    ensures Generator(56) == 0x4858064FF3013491
    ensures n >= 8 ==> ReadLE64(TestBuffer(n), 0) == 0x24A332B79B925200
    ensures n >= 16 ==> ReadLE64(TestBuffer(n), 8) == 0x93B8EC0E95AF002D
    ensures n >= 24 ==> ReadLE64(TestBuffer(n), 16) == 0x2ACDD6AA93EFDFE3
    ensures n >= 32 ==> ReadLE64(TestBuffer(n), 24) == 0xD56F5A543F5C8B53
    ensures n >= 40 ==> ReadLE64(TestBuffer(n), 32) == 0x33B9858FFCFFC059
    ensures n >= 48 ==> ReadLE64(TestBuffer(n), 40) == 0x279305B6F774AB1D
    ensures n >= 56 ==> ReadLE64(TestBuffer(n), 48) == 0x769F7C67B38470B0
  {
    hide Generator, TestBuffer, ReadLE64;
    First(n);
    Made(n, 8, 0x2D0903738CC7A3D1, 0x43139A0713241D, 0xAF0372CD37A8C5F9, 0x958B81E3ECBE8425, 0xEAF8B77402AFA61,
          0xEC701AE97D47716D, 0xB8D41F541FE87B09, 0x932E0710A263DDF5, 0xE3283BAE470B91F1);
    Made(n, 16, 0xE3283BAE470B91F1, 0xDFE66E1E6FC28BBD, 0xEFF947CF87E91919, 0x937A56D8D0238CC5, 0xAA82E3A0427EFA81,
          0xD64602A2CB04C30D, 0xCDD4BF8D6176B029, 0x2AE05E9858026095, 0x531889BB6B4BC411);
    Made(n, 24, 0x531889BB6B4BC411, 0x8BB1330EB20B675D, 0x5C98810D43365039, 0x3FA2DE49218A2965, 0x54730FE8F6797EA1,
          0x5A469C6D81A0C8AD, 0x6F609C105BB60949, 0xD5F38CC69999B735, 0x5997D3849AE0BA31);
    Made(n, 32, 0x5997D3849AE0BA31, 0xC09FF42600AC36FD, 0xFF66260B2D7CEB59, 0xFCE73786E734DA05, 0x8FC8D4FAC7BB06C1,
          0x859C975C0D82024D, 0xB9B7EE23241B0669, 0x33802294A55461D5, 0x1D8D42E21C32F451);
    Made(n, 40, 0x1D8D42E21C32F451, 0xABE6D17F18337A9D, 0x74F49D9B12396A79, 0xF7ED8878F1B61EA5, 0xB6F74685AFF412E1,
          0x5FE0DE5B9DEEFED, 0x93CD465AA8AA2789, 0x27309A7AA0ACE075, 0xB076A586BCBAF271);
    Made(n, 48, 0xB076A586BCBAF271, 0x70D1E4D3B8FFB23D, 0x84C5D415F6784D99, 0xB33EDD1C65F07745, 0x6794C67D38E52301,
          0x7C421414CABE118D, 0x9FA91A8301F7ECA9, 0x76ED1818C26DB315, 0x4858064FF3013491);
  }

  lemma Buffer1(n: nat)
    ensures Generator(112) == 0x5E12048EBFA67371
    ensures n >= 64 ==> ReadLE64(TestBuffer(n), 56) == 0xE817987BED720048
    ensures n >= 72 ==> ReadLE64(TestBuffer(n), 64) == 0x65D0CB0C0C5E48DD
    ensures n >= 80 ==> ReadLE64(TestBuffer(n), 72) == 0xE86CB0118FB2AD3F
    ensures n >= 88 ==> ReadLE64(TestBuffer(n), 80) == 0x5659610886F1B08D
    ensures n >= 96 ==> ReadLE64(TestBuffer(n), 88) == 0xABBD6313784E8E6C
    ensures n >= 104 ==> ReadLE64(TestBuffer(n), 96) == 0xD92F71EA0973329D
    ensures n >= 112 ==> ReadLE64(TestBuffer(n), 104) == 0xE9D08ACAF0559D7A
  {
    hide Generator, TestBuffer, ReadLE64;
    Buffer0(n);
    Made(n, 56, 0x4858064FF3013491, 0xEF2373613F5DDD, 0x72C81D048AD614B9, 0xEDF9013F871663E5, 0x7B86C25DBE5EB721,
          0x98AE32BFD6F5E72D, 0x17B9833A0528D5C9, 0xE820D38DBCB159B5, 0xDD0F4982409E3AB1);
    Made(n, 64, 0xDD0F4982409E3AB1, 0x48BB06D946F0FD7D, 0x5E03E2FDDD7F3FD9, 0xC257C9DC0AA6485, 0xCC7DC81F0414F41,
          0xCBC0FA36622CF0CD, 0xD094948415F162E9, 0x6561172266E25455, 0x3F5E6679D43A84D1);
    Made(n, 72, 0x3F5E6679D43A84D1, 0xAD1668C991E3111D, 0xB22B31844C304EF9, 0x8F1CFE84F07EF925, 0x11479090947D6B61,
          0xB0A943C8B6D9AE6D, 0x6C53C5A338961409, 0xE87CAAF2A7BB22F5, 0x8DFDCA576B8E92F1);
    Made(n, 80, 0x8DFDCA576B8E92F1, 0xB060BCDDD5B418BD, 0xF1CA3DA8B635C219, 0x86DC4B2BF0B6A1C5, 0x819E30A89138B81,
          0x6175C6930042A00D, 0x5924057863EB6929, 0x56DC1F3B9F464595, 0x6CD980317562E511);
    Made(n, 88, 0x6CD980317562E511, 0x8EA22E68CBD2945D, 0x4EBD4B3BEE6C1939, 0x786A21E261C3DE65, 0x13094D0106142FA1,
          0x630A50F3A47E45AD, 0xBD1461B71355E249, 0xAB739AF710DE3C35, 0x9D02EC51738FFB31);
    Made(n, 96, 0x9D02EC51738FFB31, 0x32B126994D7D03FD, 0x73B0A5566D3FD459, 0x9789841B4692F05, 0xEAA0D5FC1F9FD7C1,
          0x71434514DE731F4D, 0x2F38903318C9FF69, 0xD9A9A96C0D2D86D5, 0x7A2239059CFE5551);
    Made(n, 104, 0x7A2239059CFE5551, 0x9D225BC48DC1E79D, 0x55AED9FE42AD7379, 0xF0DC0B8773B913A5, 0xCA742F1987E703E1,
          0x8A18E3F197D7ACED, 0xD0013290AECC4089, 0xE957F65CDC2EA575, 0x5E12048EBFA67371);
  }

  lemma Buffer2(n: nat)
    ensures Generator(168) == 0xB5F8AAC2513AB651
    ensures n >= 120 ==> ReadLE64(TestBuffer(n), 112) == 0x51CA0F6BB3361A5E
    ensures n >= 128 ==> ReadLE64(TestBuffer(n), 120) == 0x9600ED62C4A28BEF
    ensures n >= 136 ==> ReadLE64(TestBuffer(n), 128) == 0x923BD10FEB4934F3
    ensures n >= 144 ==> ReadLE64(TestBuffer(n), 136) == 0xCF3DEDAADB63A9A1
    ensures n >= 152 ==> ReadLE64(TestBuffer(n), 144) == 0xA221B3F9CD4209F1
    ensures n >= 160 ==> ReadLE64(TestBuffer(n), 152) == 0xD1482FE4F4C8F2EB
    ensures n >= 168 ==> ReadLE64(TestBuffer(n), 160) == 0x4AF8ECEFC2F4104B
  {
    hide Generator, TestBuffer, ReadLE64;
    Buffer1(n);
    Made(n, 112, 0x5E12048EBFA67371, 0x1A0DC7BF937FBF3D, 0x368401B348417699, 0xB35A0E40CF160C45, 0x6BCBA36B912A3401,
          0xF3E7F3D83326E8D, 0xCADD559ECA7125A9, 0x51BEFD7A272C1815, 0xEF1170B26290D591);
    Made(n, 120, 0xEF1170B26290D591, 0x8BB9C02FF3650ADD, 0xA2E694A993185DB9, 0xC4479D6F643298E5, 0x626DD2A06FB9E821,
          0xED59D79875D9E42D, 0xF376A3AD5D2EC9, 0x96C066C362C05EB5, 0xF360657927D5FBB1);
    Made(n, 128, 0xF360657927D5FBB1, 0x3403E8BBC9F04A7D, 0x494B287A25DEA8D9, 0xEB836D4F49113985, 0xF0D6BF9BBF6A041,
          0xD1B8B97501F48DCD, 0x3BA841E3B7C4DBE9, 0x92491E7C78D5F955, 0xA16BA9A16E9E65D1);
    Made(n, 136, 0xA16BA9A16E9E65D1, 0xA959D400F56FFE1D, 0x63EC6A11E2D0D7F9, 0xDB2342E656046E25, 0xAA69809C3450DC61,
          0xED12581A5078EB6D, 0x3DE246AA7A6CAD09, 0xCF582C60B2A767F5, 0xF1AE644E352293F1);
    Made(n, 144, 0xF1AE644E352293F1, 0x934E53B9002A5BD, 0x4247C0A6BDBB6B19, 0xCDBE1484AFAEB6C5, 0xF977853FBF491C81,
          0xB39AF3293B2D7D0D, 0x2128061E08A92229, 0xA2D5E2BAE2BF2A95, 0xEB60AC7A3AAB0611);
    Made(n, 152, 0xEB60AC7A3AAB0611, 0xF2CA6183A996C15D, 0xC8FD3F7B2DFAE239, 0xF42C105E91029365, 0xE47ABC47AD6FE0A1,
          0x2F2F000CA6A8C2AD, 0x48FD0B248A5EBB49, 0xD14C330ACEF7C135, 0x4BB2FBB761903C31);
    Made(n, 160, 0x4BB2FBB761903C31, 0x10ED9C8A41EAD0FD, 0xF40AE537E07BBD59, 0xC2F5AD6755428405, 0xEFC1824B3B65A8C1,
          0xECD35DBD1C513C4D, 0xF8E722A40E01F869, 0x4AD8CADFDA7BABD5, 0xB5F8AAC2513AB651);
  }

  lemma Buffer3(n: nat)
    ensures Generator(224) == 0x4C217CB2C5E17D31
    ensures n >= 176 ==> ReadLE64(TestBuffer(n), 168) == 0xE62A6A4C37438B5
    ensures n >= 184 ==> ReadLE64(TestBuffer(n), 176) == 0x9886E3413763FDBF
    ensures n >= 192 ==> ReadLE64(TestBuffer(n), 184) == 0x87660356BA4CEB1A
    ensures n >= 200 ==> ReadLE64(TestBuffer(n), 192) == 0xB64485C1594500ED
    ensures n >= 208 ==> ReadLE64(TestBuffer(n), 200) == 0x87F9EAA941F968C3
    ensures n >= 216 ==> ReadLE64(TestBuffer(n), 208) == 0x485414D5D0129FE0
    ensures n >= 224 ==> ReadLE64(TestBuffer(n), 216) == 0x9A0638E35140445D
  {
    hide Generator, TestBuffer, ReadLE64;
    Buffer2(n);
    Made(n, 168, 0xB5F8AAC2513AB651, 0x3872C9BD828D549D, 0x74A3A0A3A9BA7C79, 0xC30F8F95C20108A5, 0xA461D81653DAF4E1,
          0xA6EE063FA45D69ED, 0x626A54649A975989, 0xE381090EFC56A75, 0xBF840F725822F471);
    Made(n, 176, 0xBF840F725822F471, 0xFDA937BC38DCCC3D, 0x63CE2B81B7C39F99, 0x37FE4DB99120A145, 0x41BF862A91904501,
          0xE3A23E47DFD3CB8D, 0x86B4E5DC81B35EA9, 0x98E12C79AA9F7D15, 0x1A59648D8DD17691);
    Made(n, 184, 0x1A59648D8DD17691, 0xEB3799009007B7DD, 0x4C6A855E0433A6B9, 0xBAA70C0A3AD3CDE5, 0x566B56C881561921,
          0x3587065628AE12D, 0x66C8792EF17A87C9, 0x87AB0064C22463B5, 0xED06550934DEBCB1);
    Made(n, 192, 0xED06550934DEBCB1, 0xB879AA0B0C977D, 0x459AB110063711D9, 0x59FC6396FF9D0E85, 0xC1082489240CF141,
          0x85E0AE244D292ACD, 0x444E43A4C6A154E9, 0xB6AC43CBB2BE9E55, 0xC31ED53E5CF346D1);
    Made(n, 200, 0xC31ED53E5CF346D1, 0x685C1F4EBEB9EB1D, 0xF9B850BBA48A60F9, 0x41F633C0324EE325, 0xA9DBDC8FB0A54D61,
          0xEA833E892725286D, 0xF9165FE79E6C4609, 0x87D1F093A828ACF5, 0xE0E0E59AC4C794F1);
    Made(n, 208, 0xE0E0E59AC4C794F1, 0x9F83CCBBCBAE32BD, 0x1260D518677A1419, 0xD0EABFE1C20BCBC5, 0xD58C145B961FAD81,
          0x14E8AE4FF8C55A0D, 0x5429694728AFDB29, 0x4852C0EFA76D0F95, 0x5D93EB55FC242711);
    Made(n, 216, 0x5D93EB55FC242711, 0x4434C08D1857EE5D, 0x40992DC6EAE2AB39, 0x5103E05704464865, 0xE3C37442BD8C91A1,
          0x38BE8356A5203FAD, 0x673D650B9D09449, 0x9A88B40FF8E64635, 0x4C217CB2C5E17D31);
  }

  lemma GeneratorStart()
    ensures Generator(0) == 0x9E3779B1
  {
  }
}
