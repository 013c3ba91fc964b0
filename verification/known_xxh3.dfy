/** The hashes that the self-test states for XXH3 of up to 240 bytes, worked out from the specification.
    Every literal below is an intermediate value of one computation; the last lemmas state the values
    themselves. */
module KnownXxh3 {
  import opened Words
  import opened Bits
  import opened LongMultiply
  import opened Xxh3Kernel
  import opened Xxh3Short
  import opened Xxh3Hash
  import opened Xxh3Distinct
  import opened KnownWords

  // ----- the steps, on given words; products and sums with their carries -----

  lemma Multiplied(x: u64, y: u64, q: nat, m: u64)
    requires x * y == q * W64 + m
    ensures Mul64(x, y) == m
  {
    Wraps(x * y, q, m);
  }

  lemma Added(x: nat, y: nat, c: nat, s: u64)
    requires x + y == c * W64 + s
    ensures Add64(x, y) == s
  {
    Wraps(x + y, c, s);
  }

  lemma Subtracted(x: u64, y: u64, c: nat, d: u64)
    requires x + c * W64 == y + d
    ensures Sub64(x, y) == d
  {
    ModUnique(x - y, W64, -(c as int), d);
  }

  lemma Shifted(x: u64, n: nat, d: nat, e: nat)
    requires x == d * Pow2(n) + e && e < Pow2(n)
    ensures Shr64(x, n) == d
  {
    hide Pow2;
    ShiftIs(x, n, d, e);
  }

  lemma AvalancheIs(h: u64, d: nat, e: nat, x: u64, q: nat, m: u64, d': nat, e': nat)
    requires h == d * 0x20_0000_0000 + e && e < 0x20_0000_0000 && Xor(h, d) == x
    requires x * 0x165667919E3779F9 == q * 0x1_0000_0000_0000_0000 + m && m == d' * 0x1_0000_0000 + e'
          && e' < 0x1_0000_0000
    ensures Avalanche(h) == Xor(m, d')
  {
    hide Xor, Pow2, Shr64, Mul64;
    assert Pow2(37) == 0x20_0000_0000 && Pow2(32) == W32 by { PowersOfTwo(); }
    Shifted(h, 37, d, e);
    Multiplied(x, 0x165667919E3779F9, q, m);
    Shifted(m, 32, d', e');
  }

  lemma Xxh64AvalancheIs(h: u64, d: nat, e: nat, x: u64, q: nat, m: u64, d': nat, e': nat, x': u64, q': nat, m': u64,
        d'': nat, e'': nat)
    requires h == d * 0x2_0000_0000 + e && e < 0x2_0000_0000 && Xor(h, d) == x
          && x * 0xC2B2AE3D27D4EB4F == q * 0x1_0000_0000_0000_0000 + m
    requires m == d' * 0x2000_0000 + e' && e' < 0x2000_0000 && Xor(m, d') == x'
          && x' * 0x165667B19E3779F9 == q' * 0x1_0000_0000_0000_0000 + m'
    requires m' == d'' * 0x1_0000_0000 + e'' && e'' < 0x1_0000_0000
    ensures Xxh64Avalanche(h) == Xor(m', d'')
  {
    hide Xor, Pow2, Shr64, Mul64;
    assert Pow2(33) == 0x2_0000_0000 && Pow2(29) == 0x2000_0000 && Pow2(32) == W32 by { PowersOfTwo(); }
    Shifted(h, 33, d, e);
    Multiplied(x, PRIME64_2, q, m);
    Shifted(m, 29, d', e');
    Multiplied(x', PRIME64_3, q', m');
    Shifted(m', 32, d'', e'');
  }

  lemma TurnedTwiceIs(h: u64, hi: nat, lo: nat, r: u64, hi': nat, lo': nat, r': u64, t: u64, x: u64)
    requires h == hi * 0x8000 + lo && lo < 0x8000 && r == lo * 0x2_0000_0000_0000 + hi
    requires h == hi' * 0x100_0000_0000 + lo' && lo' < 0x100_0000_0000 && r' == lo' * 0x100_0000 + hi'
    requires Xor(r, r') == t && Xor(h, t) == x
    ensures Xor64(h, Xor64(Rotl64(h, 49), Rotl64(h, 24))) == x
  {
    hide Xor, Pow2, Rotl64;
    assert Pow2(49) == 0x2_0000_0000_0000 && Pow2(15) == 0x8000 && Pow2(24) == 0x100_0000
          && Pow2(40) == 0x100_0000_0000 by {
      PowersOfTwo();
    }
    Rotl64Parts(h, 49, hi, lo);
    Rotl64Parts(h, 24, hi', lo');
  }

  lemma RrmxmxIs(h: u64, len: nat, x: u64, q: nat, m: u64, d: nat, e: nat, s: u64, y: u64, q': nat, m': u64, d': nat,
        e': nat)
    requires Xor64(h, Xor64(Rotl64(h, 49), Rotl64(h, 24))) == x
          && x * 0x9FB21C651E98DF25 == q * 0x1_0000_0000_0000_0000 + m
    requires m == d * 0x8_0000_0000 + e && e < 0x8_0000_0000 && s == d + len && Xor(m, s) == y
          && y * 0x9FB21C651E98DF25 == q' * 0x1_0000_0000_0000_0000 + m'
    requires m' == d' * 0x1000_0000 + e' && e' < 0x1000_0000
    ensures Rrmxmx(h, len) == Xor(m', d')
  {
    hide Xor, Pow2, Rotl64, Mul64, Shr64, Add64;
    assert Pow2(35) == 0x8_0000_0000 && Pow2(28) == 0x1000_0000 by { PowersOfTwo(); }
    Multiplied(x, RRMXMX_PRIME, q, m);
    Shifted(m, 35, d, e);
    Added(d, len, 0, s);
    Multiplied(y, RRMXMX_PRIME, q', m');
    Shifted(m', 28, d', e');
  }

  lemma MixIs(input: seq<byte>, ip: nat, a: u64, b: u64, secret: seq<byte>, sp: nat, s: u64, t: u64, seed: u64,
              c: nat, k: u64, c': nat, l: u64, x: u64, y: u64, lo: u64, hi: u64)
    requires ip + 16 <= |input| && ReadLE64(input, ip) == a && ReadLE64(input, ip + 8) == b
    requires sp + 16 <= |secret| && ReadLE64(secret, sp) == s && ReadLE64(secret, sp + 8) == t
    requires s + seed == c * 0x1_0000_0000_0000_0000 + k && t + c' * 0x1_0000_0000_0000_0000 == seed + l && Xor(a,
          k) == x && Xor(b, l) == y && x * y == hi * 0x1_0000_0000_0000_0000 + lo
    ensures Mix16B(input, ip, secret, sp, seed) == Xor(lo, hi)
  {
    hide Xor, ReadLE64, Mul128Fold64, Add64, Sub64;
    Added(s, seed, c, k);
    Subtracted(t, seed, c', l);
    FoldIs(x, y, lo, hi);
  }

  lemma Mix32Is(acc: U128, input: seq<byte>, ip: nat, a: u64, b: u64, ip': nat, a': u64, b': u64, secret: seq<byte>,
        sp: nat, seed: u64,
                m: u64, m': u64, c: nat, u: u64, d: nat, v: u64, c': nat, u': u64, d': nat, v': u64, lo: u64, hi: u64)
    requires ip + 16 <= |input| && ip' + 16 <= |input| && sp + 32 <= |secret|
    requires Mix16B(input, ip, secret, sp, seed) == m && Mix16B(input, ip', secret, sp + 16, seed) == m'
    requires ReadLE64(input, ip) == a && ReadLE64(input, ip + 8) == b && ReadLE64(input, ip') == a'
          && ReadLE64(input, ip' + 8) == b'
    requires acc.low64 + m == c * 0x1_0000_0000_0000_0000 + u && a' + b' == d * 0x1_0000_0000_0000_0000 + v && Xor(u,
          v) == lo
    requires acc.high64 + m' == c' * 0x1_0000_0000_0000_0000 + u' && a + b == d' * 0x1_0000_0000_0000_0000 + v'
          && Xor(u', v') == hi
    ensures Mix32B(acc, input, ip, ip', secret, sp, seed) == U128(lo, hi)
  {
    hide Xor, ReadLE64, Mix16B, Add64;
    Added(acc.low64, m, c, u);
    Added(a', b', d, v);
    Added(acc.high64, m', c', u');
    Added(a, b, d', v');
  }

  lemma AddedThree(x: u64, y: u64, z: u64, c: nat, s: u64)
    requires x + y + z == c * W64 + s
    ensures Add64(Add64(x, y), z) == s
  {
    TotalWraps(x + y, z);
    Wraps(x + y + z, c, s);
  }

  lemma FinishIs(acc: U128, len: nat, seed: u64, p: nat, x: u64, q: nat, y: u64, c: nat, d: u64, r: nat, z: u64,
                 c': nat, high: u64, c'': nat, low: u64, s: u64, t: u64, e: u64)
    requires acc.low64 * 0x9E3779B185EBCA87 == p * 0x1_0000_0000_0000_0000 + x
          && acc.high64 * 0x85EBCA77C2B2AE63 == q * 0x1_0000_0000_0000_0000 + y
    requires len + c * 0x1_0000_0000_0000_0000 == seed + d
          && d * 0xC2B2AE3D27D4EB4F == r * 0x1_0000_0000_0000_0000 + z
          && x + y + z == c' * 0x1_0000_0000_0000_0000 + high
    requires acc.low64 + acc.high64 == c'' * 0x1_0000_0000_0000_0000 + low && Avalanche(low) == s
          && Avalanche(high) == t && 0 < t && t + e == 0x1_0000_0000_0000_0000
    ensures Finish128(acc, len, seed) == U128(s, e)
  {
    hide Avalanche, Mul64, Add64, Sub64;
    Multiplied(acc.low64, PRIME64_1, p, x);
    Multiplied(acc.high64, PRIME64_4, q, y);
    ModUnique(len - seed, W64, -(c as int), d);
    Multiplied(d, PRIME64_2, r, z);
    AddedThree(x, y, z, c', high);
    Added(acc.low64, acc.high64, c'', low);
    Subtracted(0, t, 1, e);
  }

  lemma SpreadIs(seed: u64, q: nat, low: u32, swapped: u32, high: u64, r: u64)
    requires seed == q * 0x1_0000_0000 + low && Swap32(low) == swapped && swapped * 0x1_0000_0000 == high
          && Xor(seed, high) == r
    ensures SpreadSeed(seed) == r
  {
    hide Xor, Swap32, Pow2;
    Pow2Values();
    Wraps32(seed, q, low);
    Wraps(swapped * W32, 0, high);
  }

  lemma Len1To3Is(input: seq<byte>, secret: Secret, seed: u64, c: u32, s: u32, t: u32, x: u32, w: nat, b: u64, k: u64)
    requires 1 <= |input| <= 3 && Combined(input) == c && ReadLE32(secret, 0) == s && ReadLE32(secret, 4) == t
    requires Xor(s, t) == x && x + seed == w * 0x1_0000_0000_0000_0000 + b && Xor(c, b) == k
    ensures Len1To3(input, secret, seed) == Xxh64Avalanche(k)
  {
    hide Xor, Combined, ReadLE32, Xxh64Avalanche, Add64;
    Added(x, seed, w, b);
  }

  lemma Wide1To3Is(input: seq<byte>, secret: Secret, seed: u64, c: u32, s: u32, t: u32, x: u32, w: nat, b: u64, k: u64,
                   c': u32, r: u32, s': u32, t': u32, x': u32, w': nat, b': u64, k': u64)
    requires 1 <= |input| <= 3 && Combined(input) == c && ReadLE32(secret, 0) == s && ReadLE32(secret, 4) == t
    requires Xor(s, t) == x && x + seed == w * 0x1_0000_0000_0000_0000 + b && Xor(c, b) == k
    requires Swap32(c) == c' && Rotl32(c', 13) == r && ReadLE32(secret, 8) == s' && ReadLE32(secret, 12) == t'
    requires Xor(s', t') == x' && x' + w' * 0x1_0000_0000_0000_0000 == seed + b' && Xor(r, b') == k'
    ensures Len1To3_128(input, secret, seed) == U128(Xxh64Avalanche(k), Xxh64Avalanche(k'))
  {
    hide Xor, Combined, ReadLE32, Xxh64Avalanche, Swap32, Rotl32, Add64, Sub64;
    Added(x, seed, w, b);
    Subtracted(x', seed, w', b');
  }

  lemma Len4To8Is(input: seq<byte>, secret: Secret, seed: u64, first: u32, last: u32, s: u64, t: u64, r: u64, x: u64,
        c: nat, b: u64, w: u64, k: u64)
    requires 4 <= |input| <= 8 && ReadLE32(input, 0) == first && ReadLE32(input, |input| - 4) == last
    requires ReadLE64(secret, 8) == s && ReadLE64(secret, 16) == t && SpreadSeed(seed) == r
    requires Xor(s, t) == x && x + c * 0x1_0000_0000_0000_0000 == r + b && last + 0x1_0000_0000 * first == w
          && Xor(w, b) == k
    ensures Len4To8(input, secret, seed) == Rrmxmx(k, |input|)
  {
    hide Xor, ReadLE32, ReadLE64, Rrmxmx, SpreadSeed, Pow2, Shl64, Add64, Sub64;
    Joined(last, first);
    Subtracted(x, r, c, b);
  }

  /** The second half of the 4-to-8-byte hash, from the product on. */
  function FromProduct(m: U128): U128
  {
    var high := Add64(m.high64, Shl64(m.low64, 1));
    var low := Xor64(m.low64, Shr64(high, 3));
    U128(XorShift64(Mul64(XorShift64(low, 35), RRMXMX_PRIME), 28), Avalanche(high))
  }

  lemma Wide4To8Is(input: seq<byte>, secret: Secret, seed: u64, first: u32, last: u32, s: u64, t: u64, r: u64,
        x: u64, c: nat, b: u64,
                   w: u64, k: u64, f: u64, ml: u64, mh: u64)
    requires 4 <= |input| <= 8 && ReadLE32(input, 0) == first && ReadLE32(input, |input| - 4) == last
    requires ReadLE64(secret, 16) == s && ReadLE64(secret, 24) == t && SpreadSeed(seed) == r
    requires Xor(s, t) == x && x + r == c * 0x1_0000_0000_0000_0000 + b && first + 0x1_0000_0000 * last == w
          && Xor(w, b) == k
    requires 0x9E3779B185EBCA87 + 4 * |input| == f && k * f == mh * 0x1_0000_0000_0000_0000 + ml
    ensures Len4To8_128(input, secret, seed) == FromProduct(U128(ml, mh))
  {
    hide Xor, ReadLE32, ReadLE64, Avalanche, SpreadSeed, Pow2, Mult64to128, Mul64, Add64, Shr64, Shl64, XorShift64;
    Joined(first, last);
    Added(x, r, c, b);
    Added(PRIME64_1, 4 * |input|, 0, f);
    ProductIs(k, f, ml, mh);
  }

  lemma FromProductIs(ml: u64, mh: u64, c: nat, d: u64, c': nat, high: u64, hi: nat, lo: nat, low: u64, hi': nat,
        lo': nat, y: u64,
                      q: nat, z: u64, hi'': nat, lo'': nat, end: u64)
    requires ml * 2 == c * 0x1_0000_0000_0000_0000 + d && mh + d == c' * 0x1_0000_0000_0000_0000 + high
          && high == hi * 8 + lo && lo < 8 && Xor(ml, hi) == low
    requires low == hi' * 0x8_0000_0000 + lo' && lo' < 0x8_0000_0000 && Xor(low, hi') == y
          && y * 0x9FB21C651E98DF25 == q * 0x1_0000_0000_0000_0000 + z
    requires z == hi'' * 0x1000_0000 + lo'' && lo'' < 0x1000_0000 && Xor(z, hi'') == end
    ensures FromProduct(U128(ml, mh)) == U128(end, Avalanche(high))
  {
    hide Xor, Avalanche, Pow2, Mul64, Add64, Shr64, Shl64;
    assert Pow2(1) == 2 && Pow2(3) == 8 && Pow2(28) == 0x1000_0000 && Pow2(35) == 0x8_0000_0000 by {
      PowersOfTwo();
    }
    Doubled(ml, c, d);
    Added(mh, d, c', high);
    Shifted(high, 3, hi, lo);
    Shifted(low, 35, hi', lo');
    Multiplied(y, RRMXMX_PRIME, q, z);
    Shifted(z, 28, hi'', lo'');
  }

  lemma Doubled(x: u64, c: nat, d: u64)
    requires x * 2 == c * W64 + d
    ensures Shl64(x, 1) == d
  {
    hide Pow2;
    assert Pow2(1) == 2 by { PowersOfTwo(); }
    Wraps(x * 2, c, d);
  }

  lemma Len9To16Is(input: seq<byte>, secret: Secret, seed: u64, v: u64, w: u64, s: u64, t: u64, x: u64, c: nat,
        b: u64, lo: u64,
                   s': u64, t': u64, x': u64, c': nat, b': u64, hi: u64, swapped: u64, f: u64, d: nat, a: u64,
                         d': nat, sum: u64)
    requires 9 <= |input| <= 16 && ReadLE64(input, 0) == v && ReadLE64(input, |input| - 8) == w
    requires ReadLE64(secret, 24) == s && ReadLE64(secret, 32) == t && ReadLE64(secret, 40) == s' && ReadLE64(secret,
          48) == t'
    requires Xor(s, t) == x && x + seed == c * 0x1_0000_0000_0000_0000 + b && Xor(v, b) == lo
    requires Xor(s', t') == x' && x' + c' * 0x1_0000_0000_0000_0000 == seed + b' && Xor(w, b') == hi
    requires Swap64(lo) == swapped && Mul128Fold64(lo, hi) == f
          && |input| + swapped + hi == d * 0x1_0000_0000_0000_0000 + a && a + f == d' * 0x1_0000_0000_0000_0000 + sum
    ensures Len9To16(input, secret, seed) == Avalanche(sum)
  {
    hide Xor, ReadLE64, Avalanche, Swap64, Mul128Fold64, Sub64;
    Added(x, seed, c, b);
    Subtracted(x', seed, c', b');
    Wraps(|input| + swapped + hi, d, a);
    Added(a, f, d', sum);
  }

  lemma Wide9To16Is(input: seq<byte>, secret: Secret, seed: u64, v: u64, w: u64, s: u64, t: u64, x: u64, c: nat, b: u64,
                    s': u64, t': u64, x': u64, c': nat, b': u64, vw: u64, k: u64, hi: u64)
    requires 9 <= |input| <= 16 && ReadLE64(input, 0) == v && ReadLE64(input, |input| - 8) == w
    requires ReadLE64(secret, 32) == s && ReadLE64(secret, 40) == t && ReadLE64(secret, 48) == s' && ReadLE64(secret,
          56) == t'
    requires Xor(s, t) == x && x + c * 0x1_0000_0000_0000_0000 == seed + b && Xor(s', t') == x'
          && x' + seed == c' * 0x1_0000_0000_0000_0000 + b'
    requires Xor(v, w) == vw && Xor(vw, b) == k && Xor(w, b') == hi
    ensures Len9To16_128(input, secret, seed) == WideOf(|input|, k, hi)
  {
    hide Xor, ReadLE64, WideOf, Len9To16_128, Add64, Sub64;
    WideParts(input, secret, seed);
    Subtracted(x, seed, c, b);
    Added(x', seed, c', b');
  }

  lemma WideOfIs(n: nat, k: u64, ml: u64, mh: u64, q0: nat, d: u64, c: nat, low: u64, hi: u64, h: nat, l: nat,
        e: u64, c': nat, f: u64,
                 c'': nat, high: u64, swapped: u64, q: u64, ql: u64, qh: u64, q1: nat, g: u64, c1: nat, top: u64)
    requires 0 < n <= 16 && k * 0x9E3779B185EBCA87 == mh * 0x1_0000_0000_0000_0000 + ml
    requires (n - 1) * 0x40_0000_0000_0000 == q0 * 0x1_0000_0000_0000_0000 + d
          && ml + d == c * 0x1_0000_0000_0000_0000 + low
    requires hi == h * 0x1_0000_0000 + l && l < 0x1_0000_0000 && l * (0x85EBCA77 - 1) == e
          && hi + e == c' * 0x1_0000_0000_0000_0000 + f && mh + f == c'' * 0x1_0000_0000_0000_0000 + high
    requires Swap64(high) == swapped && Xor(low, swapped) == q
          && q * 0xC2B2AE3D27D4EB4F == qh * 0x1_0000_0000_0000_0000 + ql
    requires high * 0xC2B2AE3D27D4EB4F == q1 * 0x1_0000_0000_0000_0000 + g
          && qh + g == c1 * 0x1_0000_0000_0000_0000 + top
    ensures WideOf(n, k, hi) == U128(Avalanche(ql), Avalanche(top))
  {
    hide Xor, Avalanche, Swap64, Mult64to128, Pow2, Mult32to64, Add64, Mul64;
    assert Shl64(n - 1, 54) == d by {
      assert Pow2(54) == 0x40_0000_0000_0000 by { PowersOfTwo(); }
      Wraps((n - 1) * 0x40_0000_0000_0000, q0, d);
    }
    Added(ml, d, c, low);
    ModUnique(hi, W32, h, l);
    ShortProduct(hi, PRIME32_2 - 1);
    Added(hi, e, c', f);
    Added(mh, f, c'', high);
    ProductIs(k, PRIME64_1, ml, mh);
    ProductIs(q, PRIME64_2, ql, qh);
    Multiplied(high, PRIME64_2, q1, g);
    Added(qh, g, c1, top);
  }

  // ----- the default secret -----

  lemma Row(r: nat, b0: byte, b1: byte, b2: byte, b3: byte, b4: byte, b5: byte, b6: byte, b7: byte,
            c0: byte, c1: byte, c2: byte, c3: byte, c4: byte, c5: byte, c6: byte, c7: byte)
    requires r < 12 && SecretRow(r) == [b0, b1, b2, b3, b4, b5, b6, b7, c0, c1, c2, c3, c4, c5, c6, c7]
    ensures ReadLE64(KSecret(), 16 * r) == Quad(b3, b2, b1, b0, Quad(b7, b6, b5, b4, 0))
    ensures ReadLE64(KSecret(), 16 * r + 8) == Quad(c3, c2, c1, c0, Quad(c7, c6, c5, c4, 0))
  {
    hide ReadLE64, Quad, SecretRow, KSecret;
    Load8(KSecret(), 16 * r);
    Load8(KSecret(), 16 * r + 8);
    SecretByte(r, 0);
    SecretByte(r, 1);
    SecretByte(r, 2);
    SecretByte(r, 3);
    SecretByte(r, 4);
    SecretByte(r, 5);
    SecretByte(r, 6);
    SecretByte(r, 7);
    SecretByte(r, 8);
    SecretByte(r, 9);
    SecretByte(r, 10);
    SecretByte(r, 11);
    SecretByte(r, 12);
    SecretByte(r, 13);
    SecretByte(r, 14);
    SecretByte(r, 15);
  }

  lemma SecretByte(r: nat, j: nat)
    requires r < 12 && j < 16
    ensures KSecret()[16 * r + j] == SecretRow(r)[j]
  {
    hide SecretRow;
    assert (16 * r + j) / 16 == r && (16 * r + j) % 16 == j;
  }

  lemma Secret0()
    ensures ReadLE64(KSecret(), 0) == 0xBE4BA423396CFEB8
    ensures ReadLE64(KSecret(), 8) == 0x1CAD21F72C81017C
    ensures ReadLE64(KSecret(), 16) == 0xDB979083E96DD4DE
    ensures ReadLE64(KSecret(), 24) == 0x1F67B3B7A4A44072
    ensures ReadLE64(KSecret(), 32) == 0x78E5C0CC4EE679CB
    ensures ReadLE64(KSecret(), 40) == 0x2172FFCC7DD05A82
    ensures ReadLE64(KSecret(), 48) == 0x8E2443F7744608B8
    ensures ReadLE64(KSecret(), 56) == 0x4C263A81E69035E0
  {
    hide ReadLE64, KSecret;
    Row(0, 0xb8, 0xfe, 0x6c, 0x39, 0x23, 0xa4, 0x4b, 0xbe, 0x7c, 0x01, 0x81, 0x2c, 0xf7, 0x21, 0xad, 0x1c);
    Row(1, 0xde, 0xd4, 0x6d, 0xe9, 0x83, 0x90, 0x97, 0xdb, 0x72, 0x40, 0xa4, 0xa4, 0xb7, 0xb3, 0x67, 0x1f);
    Row(2, 0xcb, 0x79, 0xe6, 0x4e, 0xcc, 0xc0, 0xe5, 0x78, 0x82, 0x5a, 0xd0, 0x7d, 0xcc, 0xff, 0x72, 0x21);
    Row(3, 0xb8, 0x08, 0x46, 0x74, 0xf7, 0x43, 0x24, 0x8e, 0xe0, 0x35, 0x90, 0xe6, 0x81, 0x3a, 0x26, 0x4c);
  }

  lemma Secret1()
    ensures ReadLE64(KSecret(), 64) == 0xCB00C391BB52283C
    ensures ReadLE64(KSecret(), 72) == 0xA32E531B8B65D088
    ensures ReadLE64(KSecret(), 80) == 0x4EF90DA297486471
    ensures ReadLE64(KSecret(), 88) == 0xD8ACDEA946EF1938
    ensures ReadLE64(KSecret(), 96) == 0x3F349CE33F76FAA8
    ensures ReadLE64(KSecret(), 104) == 0x1D4F0BC7C7BBDCF9
    ensures ReadLE64(KSecret(), 112) == 0x3159B4CD4BE0518A
    ensures ReadLE64(KSecret(), 120) == 0x647378D9C97E9FC8
  {
    hide ReadLE64, KSecret;
    Row(4, 0x3c, 0x28, 0x52, 0xbb, 0x91, 0xc3, 0x00, 0xcb, 0x88, 0xd0, 0x65, 0x8b, 0x1b, 0x53, 0x2e, 0xa3);
    Row(5, 0x71, 0x64, 0x48, 0x97, 0xa2, 0x0d, 0xf9, 0x4e, 0x38, 0x19, 0xef, 0x46, 0xa9, 0xde, 0xac, 0xd8);
    Row(6, 0xa8, 0xfa, 0x76, 0x3f, 0xe3, 0x9c, 0x34, 0x3f, 0xf9, 0xdc, 0xbb, 0xc7, 0xc7, 0x0b, 0x4f, 0x1d);
    Row(7, 0x8a, 0x51, 0xe0, 0x4b, 0xcd, 0xb4, 0x59, 0x31, 0xc8, 0x9f, 0x7e, 0xc9, 0xd9, 0x78, 0x73, 0x64);
  }

  lemma Secret2()
    ensures ReadLE64(KSecret(), 128) == 0xC3EBD33483ACC5EA
    ensures ReadLE64(KSecret(), 136) == 0xEB6313FAFFA081C5
    ensures ReadLE64(KSecret(), 144) == 0x49DAF0B751DD0D17
    ensures ReadLE64(KSecret(), 152) == 0x9E68D429265516D3
    ensures ReadLE64(KSecret(), 160) == 0xFCA1477D58BE162B
    ensures ReadLE64(KSecret(), 168) == 0xCE31D07AD1B8F88F
    ensures ReadLE64(KSecret(), 176) == 0x280416958F3ACB45
    ensures ReadLE64(KSecret(), 184) == 0x7E404BBBCAFBD7AF
  {
    hide ReadLE64, KSecret;
    Row(8, 0xea, 0xc5, 0xac, 0x83, 0x34, 0xd3, 0xeb, 0xc3, 0xc5, 0x81, 0xa0, 0xff, 0xfa, 0x13, 0x63, 0xeb);
    Row(9, 0x17, 0x0d, 0xdd, 0x51, 0xb7, 0xf0, 0xda, 0x49, 0xd3, 0x16, 0x55, 0x26, 0x29, 0xd4, 0x68, 0x9e);
    Row(10, 0x2b, 0x16, 0xbe, 0x58, 0x7d, 0x47, 0xa1, 0xfc, 0x8f, 0xf8, 0xb8, 0xd1, 0x7a, 0xd0, 0x31, 0xce);
    Row(11, 0x45, 0xcb, 0x3a, 0x8f, 0x95, 0x16, 0x04, 0x28, 0xaf, 0xd7, 0xfb, 0xca, 0xbb, 0x4b, 0x40, 0x7e);
  }

  lemma SecretFrom3()
    ensures ReadLE64(KSecret(), 3) == 0x81017CBE4BA42339
    ensures ReadLE64(KSecret(), 11) == 0x6DD4DE1CAD21F72C
    ensures ReadLE64(KSecret(), 19) == 0xA44072DB979083E9
    ensures ReadLE64(KSecret(), 27) == 0xE679CB1F67B3B7A4
    ensures ReadLE64(KSecret(), 35) == 0xD05A8278E5C0CC4E
    ensures ReadLE64(KSecret(), 43) == 0x4608B82172FFCC7D
    ensures ReadLE64(KSecret(), 51) == 0x9035E08E2443F774
    ensures ReadLE64(KSecret(), 59) == 0x52283C4C263A81E6
  {
    hide ReadLE64, KSecret, Pow2;
    assert Pow2(24) == 0x1000000 && Pow2(40) == 0x10000000000 by {
      PowersOfTwo();
    }
    Secret0();
    Secret1();
    Across(KSecret(), 0, 3, 0x1000000, 0x10000000000, 0xBE4BA42339, 0x6CFEB8, 0x1CAD21F72C, 0x81017C);
    Across(KSecret(), 8, 3, 0x1000000, 0x10000000000, 0x1CAD21F72C, 0x81017C, 0xDB979083E9, 0x6DD4DE);
    Across(KSecret(), 16, 3, 0x1000000, 0x10000000000, 0xDB979083E9, 0x6DD4DE, 0x1F67B3B7A4, 0xA44072);
    Across(KSecret(), 24, 3, 0x1000000, 0x10000000000, 0x1F67B3B7A4, 0xA44072, 0x78E5C0CC4E, 0xE679CB);
    Across(KSecret(), 32, 3, 0x1000000, 0x10000000000, 0x78E5C0CC4E, 0xE679CB, 0x2172FFCC7D, 0xD05A82);
    Across(KSecret(), 40, 3, 0x1000000, 0x10000000000, 0x2172FFCC7D, 0xD05A82, 0x8E2443F774, 0x4608B8);
    Across(KSecret(), 48, 3, 0x1000000, 0x10000000000, 0x8E2443F774, 0x4608B8, 0x4C263A81E6, 0x9035E0);
    Across(KSecret(), 56, 3, 0x1000000, 0x10000000000, 0x4C263A81E6, 0x9035E0, 0xCB00C391BB, 0x52283C);
  }

  lemma SecretFrom103()
    ensures ReadLE64(KSecret(), 103) == 0x4F0BC7C7BBDCF93F
    ensures ReadLE64(KSecret(), 111) == 0x59B4CD4BE0518A1D
    ensures ReadLE64(KSecret(), 119) == 0x7378D9C97E9FC831
    ensures ReadLE64(KSecret(), 127) == 0xEBD33483ACC5EA64
  {
    hide ReadLE64, KSecret, Pow2;
    assert Pow2(56) == 0x100000000000000 && Pow2(8) == 0x100 by {
      PowersOfTwo();
    }
    Secret1();
    Secret2();
    Across(KSecret(), 96, 7, 0x100000000000000, 0x100, 0x3F, 0x349CE33F76FAA8, 0x1D, 0x4F0BC7C7BBDCF9);
    Across(KSecret(), 104, 7, 0x100000000000000, 0x100, 0x1D, 0x4F0BC7C7BBDCF9, 0x31, 0x59B4CD4BE0518A);
    Across(KSecret(), 112, 7, 0x100000000000000, 0x100, 0x31, 0x59B4CD4BE0518A, 0x64, 0x7378D9C97E9FC8);
    Across(KSecret(), 120, 7, 0x100000000000000, 0x100, 0x64, 0x7378D9C97E9FC8, 0xC3, 0xEBD33483ACC5EA);
  }

  lemma Xxh64AvalancheAt0()
    ensures Xxh64Avalanche(0x191180A1D829D751) == 0xA8A6B918B2F0364A
  {
    hide Xor, Xxh64Avalanche;
    XorIs(0x19, 0x11, 0x80, 0xa1, 0xd8, 0x29, 0xd7, 0x51, 0x00, 0x00, 0x00, 0x00, 0x0c, 0x88, 0xc0, 0x50);
    XorIs(0xe3, 0x9b, 0x09, 0x45, 0xb1, 0xa8, 0x04, 0x4f, 0x00, 0x00, 0x00, 0x07, 0x1c, 0xd8, 0x4a, 0x2d);
    XorIs(0xa8, 0xa6, 0xb9, 0x18, 0x1a, 0x56, 0x8f, 0x52, 0x00, 0x00, 0x00, 0x00, 0xa8, 0xa6, 0xb9, 0x18);
    Xxh64AvalancheIs(0x191180A1D829D751, 0xC88C050, 0x1D829D751, 0x191180A1D4A11701, 0x1310C2B5F62814A7,
          0xE39B0945B1A8044F, 0x71CD84A2D, 0x11A8044F, 0xE39B0942AD704E62, 0x13DC251222E427D0, 0xA8A6B9181A568F52,
          0xA8A6B918, 0x1A568F52);
  }

  lemma Short0()
    ensures Len0To16([], KSecret(), 0x9E3779B185EBCA8D) == 0xA8A6B918B2F0364A
  {
    hide Xor, Generator, Rotl64, ReadLE64, ReadLE32, KSecret, TestBuffer, Pow2, LE, Swap32, Swap64, Combined, Rotl32,
          Avalanche, Xxh64Avalanche, Rrmxmx, Mul128Fold64, Mult64to128, Mix16B;
    Secret0();
    Secret1();
    XorIs(0x4c, 0x26, 0x3a, 0x81, 0xe6, 0x90, 0x35, 0xe0, 0xcb, 0x00, 0xc3, 0x91, 0xbb, 0x52, 0x28, 0x3c);
    XorIs(0x9e, 0x37, 0x79, 0xb1, 0x85, 0xeb, 0xca, 0x8d, 0x87, 0x26, 0xf9, 0x10, 0x5d, 0xc2, 0x1d, 0xdc);
    Xxh64AvalancheAt0();
  }

  lemma Xxh64AvalancheAt1()
    ensures Xxh64Avalanche(0x87275B9B) == 0xC44BDFF4074EECDB
  {
    hide Xor, Xxh64Avalanche;
    XorIs(0x00, 0x00, 0x00, 0x00, 0x87, 0x27, 0x5b, 0x9b, 0x00, 0x00, 0x00, 0x00, 0x00, 0x00, 0x00, 0x00);
    XorIs(0x31, 0x71, 0x95, 0xb6, 0x4f, 0x98, 0x8d, 0xd5, 0x00, 0x00, 0x00, 0x01, 0x8b, 0x8c, 0xad, 0xb2);
    XorIs(0xc4, 0x4b, 0xdf, 0xf4, 0xc3, 0x05, 0x33, 0x2f, 0x00, 0x00, 0x00, 0x00, 0xc4, 0x4b, 0xdf, 0xf4);
    Xxh64AvalancheIs(0x87275B9B, 0x0, 0x87275B9B, 0x87275B9B, 0x66CA28C6, 0x317195B64F988DD5, 0x18B8CADB2, 0xF988DD5,
          0x317195B7C4142067, 0x450730D17E9DEDB, 0xC44BDFF4C305332F, 0xC44BDFF4, 0xC305332F);
  }

  lemma Short1(input: seq<byte>)
    requires input == [0x0]
    ensures Len1To3(input, KSecret(), 0x0) == 0xC44BDFF4074EECDB
  {
    hide Xor, Generator, Rotl64, ReadLE64, ReadLE32, KSecret, TestBuffer, Pow2, LE, Swap32, Swap64, Combined, Rotl32,
          Avalanche, Xxh64Avalanche, Rrmxmx, Mul128Fold64, Mult64to128, Mix16B, Len1To3;
    Secret0();
    HalfLoads(KSecret(), 0, 0xBE4BA423, 0x396CFEB8);
    CombinedValue(input, 0x0, 0x0, 0x0);
    XorIs(0x00, 0x00, 0x00, 0x00, 0x39, 0x6c, 0xfe, 0xb8, 0x00, 0x00, 0x00, 0x00, 0xbe, 0x4b, 0xa4, 0x23);
    XorIs(0x00, 0x00, 0x00, 0x00, 0x00, 0x00, 0x01, 0x00, 0x00, 0x00, 0x00, 0x00, 0x87, 0x27, 0x5a, 0x9b);
    Len1To3Is(input, KSecret(), 0x0, 0x100, 0x396CFEB8, 0xBE4BA423, 0x87275A9B, 0x0, 0x87275A9B, 0x87275B9B);
    Xxh64AvalancheAt1();
  }

  lemma Xxh64AvalancheAt2()
    ensures Xxh64Avalanche(0x9E3779B20D132428) == 0x32BE332DD766EF8
  {
    hide Xor, Xxh64Avalanche;
    XorIs(0x9e, 0x37, 0x79, 0xb2, 0x0d, 0x13, 0x24, 0x28, 0x00, 0x00, 0x00, 0x00, 0x4f, 0x1b, 0xbc, 0xd9);
    XorIs(0x3d, 0x15, 0x6e, 0x78, 0xa3, 0xa0, 0x6d, 0x5f, 0x00, 0x00, 0x00, 0x01, 0xe8, 0xab, 0x73, 0xc5);
    XorIs(0x03, 0x2b, 0xe3, 0x32, 0xde, 0x5d, 0x8d, 0xca, 0x00, 0x00, 0x00, 0x00, 0x03, 0x2b, 0xe3, 0x32);
    Xxh64AvalancheIs(0x9E3779B20D132428, 0x4F1BBCD9, 0xD132428, 0x9E3779B2420898F1, 0x7854787B3489A125,
          0x3D156E78A3A06D5F, 0x1E8AB73C5, 0x3A06D5F, 0x3D156E794B0B1E9A, 0x554756F8A36D050, 0x32BE332DE5D8DCA,
          0x32BE332, 0xDE5D8DCA);
  }

  lemma Short1Seeded(input: seq<byte>)
    requires input == [0x0]
    ensures Len1To3(input, KSecret(), 0x9E3779B185EBCA8D) == 0x32BE332DD766EF8
  {
    hide Xor, Generator, Rotl64, ReadLE64, ReadLE32, KSecret, TestBuffer, Pow2, LE, Swap32, Swap64, Combined, Rotl32,
          Avalanche, Xxh64Avalanche, Rrmxmx, Mul128Fold64, Mult64to128, Mix16B, Len1To3;
    Secret0();
    HalfLoads(KSecret(), 0, 0xBE4BA423, 0x396CFEB8);
    CombinedValue(input, 0x0, 0x0, 0x0);
    XorIs(0x00, 0x00, 0x00, 0x00, 0x39, 0x6c, 0xfe, 0xb8, 0x00, 0x00, 0x00, 0x00, 0xbe, 0x4b, 0xa4, 0x23);
    XorIs(0x00, 0x00, 0x00, 0x00, 0x00, 0x00, 0x01, 0x00, 0x9e, 0x37, 0x79, 0xb2, 0x0d, 0x13, 0x25, 0x28);
    Len1To3Is(input, KSecret(), 0x9E3779B185EBCA8D, 0x100, 0x396CFEB8, 0xBE4BA423, 0x87275A9B, 0x0,
          0x9E3779B20D132528, 0x9E3779B20D132428);
    Xxh64AvalancheAt2();
  }

  lemma Spread0()
    ensures SpreadSeed(0x0) == 0x0
  {
    hide Xor, Swap32, SpreadSeed;
    Swap32Is(0x00, 0x00, 0x00, 0x00);
    XorIs(0x00, 0x00, 0x00, 0x00, 0x00, 0x00, 0x00, 0x00, 0x00, 0x00, 0x00, 0x00, 0x00, 0x00, 0x00, 0x00);
    SpreadIs(0x0, 0x0, 0x0, 0x0, 0x0, 0x0);
  }

  lemma Rrmxmx6()
    ensures Rrmxmx(0x5CA8E374F75B4E30, 6) == 0x27B56A84CD2D7325
  {
    hide Xor, Xor64, Rotl64, Rrmxmx;
    XorIs(0x9c, 0x60, 0xb9, 0x51, 0xc6, 0xe9, 0xee, 0xb6, 0x74, 0xf7, 0x5b, 0x4e, 0x30, 0x5c, 0xa8, 0xe3);
    XorIs(0x5c, 0xa8, 0xe3, 0x74, 0xf7, 0x5b, 0x4e, 0x30, 0xe8, 0x97, 0xe2, 0x1f, 0xf6, 0xb5, 0x46, 0x55);
    XorIs(0xae, 0x28, 0xd1, 0x4f, 0x72, 0xaf, 0x31, 0x99, 0x00, 0x00, 0x00, 0x00, 0x15, 0xc5, 0x1a, 0x2f);
    XorIs(0x27, 0xb5, 0x6a, 0x86, 0xb6, 0x7b, 0xdb, 0x4e, 0x00, 0x00, 0x00, 0x02, 0x7b, 0x56, 0xa8, 0x6b);
    TurnedTwiceIs(0x5CA8E374F75B4E30, 0xB951C6E9EEB6, 0x4E30, 0x9C60B951C6E9EEB6, 0x5CA8E3, 0x74F75B4E30,
          0x74F75B4E305CA8E3, 0xE897E21FF6B54655, 0xB43F016B01EE0865);
    RrmxmxIs(0x5CA8E374F75B4E30, 6, 0xB43F016B01EE0865, 0x707089AE892876D6, 0xAE28D14F72AF3199, 0x15C51A29,
          0x772AF3199, 0x15C51A2F, 0xAE28D14F676A2BB6, 0x6CA485B31C40E52E, 0x27B56A86B67BDB4E, 0x27B56A86B, 0x67BDB4E);
  }

  lemma Short6(input: seq<byte>)
    requires |input| == 6 && ReadLE32(input, 0) == 0x9B925200 && ReadLE32(input, 2) == 0x32B79B92
    ensures Len4To8(input, KSecret(), 0x0) == 0x27B56A84CD2D7325
  {
    hide Xor, Generator, Rotl64, ReadLE64, ReadLE32, KSecret, TestBuffer, Pow2, LE, Swap32, Swap64, Combined, Rotl32,
          Avalanche, Xxh64Avalanche, Rrmxmx, Mul128Fold64, Mult64to128, Mix16B, Len4To8, SpreadSeed;
    Secret0();
    Spread0();
    XorIs(0x1c, 0xad, 0x21, 0xf7, 0x2c, 0x81, 0x01, 0x7c, 0xdb, 0x97, 0x90, 0x83, 0xe9, 0x6d, 0xd4, 0xde);
    XorIs(0x9b, 0x92, 0x52, 0x00, 0x32, 0xb7, 0x9b, 0x92, 0xc7, 0x3a, 0xb1, 0x74, 0xc5, 0xec, 0xd5, 0xa2);
    Len4To8Is(input, KSecret(), 0x0, 0x9B925200, 0x32B79B92, 0x1CAD21F72C81017C, 0xDB979083E96DD4DE, 0x0,
          0xC73AB174C5ECD5A2, 0x0, 0xC73AB174C5ECD5A2, 0x9B92520032B79B92, 0x5CA8E374F75B4E30);
    Rrmxmx6();
  }

  lemma Spread1()
    ensures SpreadSeed(0x9E3779B185EBCA8D) == 0x13FD923485EBCA8D
  {
    hide Xor, Swap32, SpreadSeed;
    Swap32Is(0x8d, 0xca, 0xeb, 0x85);
    XorIs(0x9e, 0x37, 0x79, 0xb1, 0x85, 0xeb, 0xca, 0x8d, 0x8d, 0xca, 0xeb, 0x85, 0x00, 0x00, 0x00, 0x00);
    SpreadIs(0x9E3779B185EBCA8D, 0x9E3779B1, 0x85EBCA8D, 0x8DCAEB85, 0x8DCAEB8500000000, 0x13FD923485EBCA8D);
  }

  lemma Rrmxmx6Seeded()
    ensures Rrmxmx(0x28AF4D4072B69087, 6) == 0x84589C116AB59AB9
  {
    hide Xor, Xor64, Rotl64, Rrmxmx;
    XorIs(0x21, 0x0e, 0x51, 0x5e, 0x9a, 0x80, 0xe5, 0x6d, 0x40, 0x72, 0xb6, 0x90, 0x87, 0x28, 0xaf, 0x4d);
    XorIs(0x28, 0xaf, 0x4d, 0x40, 0x72, 0xb6, 0x90, 0x87, 0x61, 0x7c, 0xe7, 0xce, 0x1d, 0xa8, 0x4a, 0x20);
    XorIs(0xfa, 0xf5, 0xd9, 0x36, 0x55, 0x15, 0x13, 0x23, 0x00, 0x00, 0x00, 0x00, 0x1f, 0x5e, 0xbb, 0x2c);
    XorIs(0x84, 0x58, 0x9c, 0x19, 0x2f, 0x3c, 0x5b, 0x2b, 0x00, 0x00, 0x00, 0x08, 0x45, 0x89, 0xc1, 0x92);
    TurnedTwiceIs(0x28AF4D4072B69087, 0x515E9A80E56D, 0x1087, 0x210E515E9A80E56D, 0x28AF4D, 0x4072B69087,
          0x4072B6908728AF4D, 0x617CE7CE1DA84A20, 0x49D3AA8E6F1EDAA7);
    RrmxmxIs(0x28AF4D4072B69087, 6, 0x49D3AA8E6F1EDAA7, 0x2E0DD44B5E0A2F9E, 0xFAF5D93655151323, 0x1F5EBB26,
          0x655151323, 0x1F5EBB2C, 0xFAF5D9364A4BA80F, 0x9C8D4CAFC4A3F4B5, 0x84589C192F3C5B2B, 0x84589C192, 0xF3C5B2B);
  }

  lemma Short6Seeded(input: seq<byte>)
    requires |input| == 6 && ReadLE32(input, 0) == 0x9B925200 && ReadLE32(input, 2) == 0x32B79B92
    ensures Len4To8(input, KSecret(), 0x9E3779B185EBCA8D) == 0x84589C116AB59AB9
  {
    hide Xor, Generator, Rotl64, ReadLE64, ReadLE32, KSecret, TestBuffer, Pow2, LE, Swap32, Swap64, Combined, Rotl32,
          Avalanche, Xxh64Avalanche, Rrmxmx, Mul128Fold64, Mult64to128, Mix16B, Len4To8, SpreadSeed;
    Secret0();
    Spread1();
    XorIs(0x1c, 0xad, 0x21, 0xf7, 0x2c, 0x81, 0x01, 0x7c, 0xdb, 0x97, 0x90, 0x83, 0xe9, 0x6d, 0xd4, 0xde);
    XorIs(0x9b, 0x92, 0x52, 0x00, 0x32, 0xb7, 0x9b, 0x92, 0xb3, 0x3d, 0x1f, 0x40, 0x40, 0x01, 0x0b, 0x15);
    Len4To8Is(input, KSecret(), 0x9E3779B185EBCA8D, 0x9B925200, 0x32B79B92, 0x1CAD21F72C81017C, 0xDB979083E96DD4DE,
          0x13FD923485EBCA8D, 0xC73AB174C5ECD5A2, 0x0, 0xB33D1F4040010B15, 0x9B92520032B79B92, 0x28AF4D4072B69087);
    Rrmxmx6Seeded();
  }

  lemma AvalancheAt0()
    ensures Avalanche(0x7AA3C95F1E47BDC5) == 0xA713DAF0DFBB77E7
  {
    hide Xor, Avalanche;
    XorIs(0x7a, 0xa3, 0xc9, 0x5f, 0x1e, 0x47, 0xbd, 0xc5, 0x00, 0x00, 0x00, 0x00, 0x03, 0xd5, 0x1e, 0x4a);
    XorIs(0xa7, 0x13, 0xda, 0xf0, 0x78, 0xa8, 0xad, 0x17, 0x00, 0x00, 0x00, 0x00, 0xa7, 0x13, 0xda, 0xf0);
    AvalancheIs(0x7AA3C95F1E47BDC5, 0x3D51E4A, 0x1F1E47BDC5, 0x7AA3C95F1D92A38F, 0xAB377F17B1486FE,
          0xA713DAF078A8AD17, 0xA713DAF0, 0x78A8AD17);
  }

  lemma Short12(input: seq<byte>)
    requires |input| == 12 && ReadLE64(input, 0) == 0x24A332B79B925200 && ReadLE64(input, 4) == 0x95AF002D24A332B7
    ensures Len9To16(input, KSecret(), 0x0) == 0xA713DAF0DFBB77E7
  {
    hide Xor, Generator, Rotl64, ReadLE64, ReadLE32, KSecret, TestBuffer, Pow2, LE, Swap32, Swap64, Combined, Rotl32,
          Avalanche, Xxh64Avalanche, Rrmxmx, Mul128Fold64, Mult64to128, Mix16B, Len9To16;
    Secret0();
    XorIs(0x1f, 0x67, 0xb3, 0xb7, 0xa4, 0xa4, 0x40, 0x72, 0x78, 0xe5, 0xc0, 0xcc, 0x4e, 0xe6, 0x79, 0xcb);
    XorIs(0x21, 0x72, 0xff, 0xcc, 0x7d, 0xd0, 0x5a, 0x82, 0x8e, 0x24, 0x43, 0xf7, 0x74, 0x46, 0x08, 0xb8);
    XorIs(0x24, 0xa3, 0x32, 0xb7, 0x9b, 0x92, 0x52, 0x00, 0x67, 0x82, 0x73, 0x7b, 0xea, 0x42, 0x39, 0xb9);
    XorIs(0x95, 0xaf, 0x00, 0x2d, 0x24, 0xa3, 0x32, 0xb7, 0xaf, 0x56, 0xbc, 0x3b, 0x09, 0x96, 0x52, 0x3a);
    Swap64Is(0xb9, 0x6b, 0xd0, 0x71, 0xcc, 0x41, 0x21, 0x43);
    XorIs(0x89, 0x49, 0x39, 0x44, 0xaa, 0x7d, 0xb4, 0xe5, 0x0f, 0x77, 0x05, 0x93, 0x8e, 0xac, 0x8f, 0x0c);
    FoldIs(0x432141CC71D06BB9, 0x3AF9BC162D35608D, 0x89493944AA7DB4E5, 0xF7705938EAC8F0C);
    Len9To16Is(input, KSecret(), 0x0, 0x24A332B79B925200, 0x95AF002D24A332B7, 0x1F67B3B7A4A44072, 0x78E5C0CC4EE679CB,
          0x6782737BEA4239B9, 0x0, 0x6782737BEA4239B9, 0x432141CC71D06BB9, 0x2172FFCC7DD05A82, 0x8E2443F7744608B8,
          0xAF56BC3B0996523A, 0x0, 0xAF56BC3B0996523A, 0x3AF9BC162D35608D, 0xB96BD071CC412143, 0x863E3CD724D13BE9,
          0x0, 0xF4658C87F97681DC, 0x1, 0x7AA3C95F1E47BDC5);
    AvalancheAt0();
  }

  lemma AvalancheAt1()
    ensures Avalanche(0x204112D559F9356B) == 0xE7303E1B2336DE0E
  {
    hide Xor, Avalanche;
    XorIs(0x20, 0x41, 0x12, 0xd5, 0x59, 0xf9, 0x35, 0x6b, 0x00, 0x00, 0x00, 0x00, 0x01, 0x02, 0x08, 0x96);
    XorIs(0xe7, 0x30, 0x3e, 0x1b, 0xc4, 0x06, 0xe0, 0x15, 0x00, 0x00, 0x00, 0x00, 0xe7, 0x30, 0x3e, 0x1b);
    AvalancheIs(0x204112D559F9356B, 0x1020896, 0x1559F9356B, 0x204112D558FB3DFD, 0x2D07A8730B02457,
          0xE7303E1BC406E015, 0xE7303E1B, 0xC406E015);
  }

  lemma Short12Seeded(input: seq<byte>)
    requires |input| == 12 && ReadLE64(input, 0) == 0x24A332B79B925200 && ReadLE64(input, 4) == 0x95AF002D24A332B7
    ensures Len9To16(input, KSecret(), 0x9E3779B185EBCA8D) == 0xE7303E1B2336DE0E
  {
    hide Xor, Generator, Rotl64, ReadLE64, ReadLE32, KSecret, TestBuffer, Pow2, LE, Swap32, Swap64, Combined, Rotl32,
          Avalanche, Xxh64Avalanche, Rrmxmx, Mul128Fold64, Mult64to128, Mix16B, Len9To16;
    Secret0();
    XorIs(0x1f, 0x67, 0xb3, 0xb7, 0xa4, 0xa4, 0x40, 0x72, 0x78, 0xe5, 0xc0, 0xcc, 0x4e, 0xe6, 0x79, 0xcb);
    XorIs(0x21, 0x72, 0xff, 0xcc, 0x7d, 0xd0, 0x5a, 0x82, 0x8e, 0x24, 0x43, 0xf7, 0x74, 0x46, 0x08, 0xb8);
    XorIs(0x24, 0xa3, 0x32, 0xb7, 0x9b, 0x92, 0x52, 0x00, 0x05, 0xb9, 0xed, 0x2d, 0x70, 0x2e, 0x04, 0x46);
    XorIs(0x95, 0xaf, 0x00, 0x2d, 0x24, 0xa3, 0x32, 0xb7, 0x11, 0x1f, 0x42, 0x89, 0x83, 0xaa, 0x87, 0xad);
    Swap64Is(0x46, 0x56, 0xbc, 0xeb, 0x9a, 0xdf, 0x1a, 0x21);
    XorIs(0x44, 0x12, 0xb5, 0x26, 0xcc, 0x96, 0x41, 0x1c, 0x11, 0x28, 0xa6, 0x63, 0xd4, 0x86, 0x27, 0x38);
    FoldIs(0x211ADF9AEBBC5646, 0x84B042A4A709B51A, 0x4412B526CC96411C, 0x1128A663D4862738);
    Len9To16Is(input, KSecret(), 0x9E3779B185EBCA8D, 0x24A332B79B925200, 0x95AF002D24A332B7, 0x1F67B3B7A4A44072,
          0x78E5C0CC4EE679CB, 0x6782737BEA4239B9, 0x1, 0x5B9ED2D702E0446, 0x211ADF9AEBBC5646, 0x2172FFCC7DD05A82,
          0x8E2443F7744608B8, 0xAF56BC3B0996523A, 0x0, 0x111F428983AA87AD, 0x84B042A4A709B51A, 0x4656BCEB9ADF1A21,
          0x553A134518106624, 0x0, 0xCB06FF9041E8CF47, 0x1, 0x204112D559F9356B);
    AvalancheAt1();
  }

  lemma Mix80At32()
    ensures Mix16B(TestBuffer(80), 32, KSecret(), 64, 0x9E3779B185EBCA8D) == 0xB761E6902021B24C
  {
    hide Xor, Generator, ReadLE64, KSecret, TestBuffer, Pow2, LE, Mix16B, Avalanche, Mul128Fold64;
    var input := TestBuffer(80);
    Buffer0(80);
    Secret1();
    XorIs(0x33, 0xb9, 0x85, 0x8f, 0xfc, 0xff, 0xc0, 0x59, 0x69, 0x38, 0x3d, 0x43, 0x41, 0x3d, 0xf2, 0xc9);
    XorIs(0x27, 0x93, 0x05, 0xb6, 0xf7, 0x74, 0xab, 0x1d, 0x04, 0xf6, 0xd9, 0x6a, 0x05, 0x7a, 0x05, 0xfb);
    XorIs(0xbb, 0xe2, 0x59, 0x17, 0x5e, 0xb7, 0x4d, 0x60, 0x0c, 0x83, 0xbf, 0x87, 0x7e, 0x96, 0xff, 0x2c);
    MixIs(input, 32, 0x33B9858FFCFFC059, 0x279305B6F774AB1D, KSecret(), 64, 0xCB00C391BB52283C, 0xA32E531B8B65D088,
          0x9E3779B185EBCA8D,
          0x1, 0x69383D43413DF2C9, 0x0, 0x4F6D96A057A05FB, 0x5A81B8CCBDC23290, 0x2365DCDCF20EAEE6,
                0xBBE259175EB74D60, 0xC83BF877E96FF2C);
  }

  lemma Mix80At32Wide()
    ensures Mix16B(TestBuffer(80), 32, KSecret(), 80, 0x9E3779B185EBCA8D) == 0x73F15A2E09412C27
  {
    hide Xor, Generator, ReadLE64, KSecret, TestBuffer, Pow2, LE, Mix16B, Avalanche, Mul128Fold64;
    var input := TestBuffer(80);
    Buffer0(80);
    Secret1();
    XorIs(0x33, 0xb9, 0x85, 0x8f, 0xfc, 0xff, 0xc0, 0x59, 0xed, 0x30, 0x87, 0x54, 0x1d, 0x34, 0x2e, 0xfe);
    XorIs(0x27, 0x93, 0x05, 0xb6, 0xf7, 0x74, 0xab, 0x1d, 0x3a, 0x75, 0x64, 0xf7, 0xc1, 0x03, 0x4e, 0xab);
    XorIs(0x6a, 0x0c, 0x92, 0xd8, 0x1d, 0x18, 0x0d, 0xba, 0x19, 0xfd, 0xc8, 0xf6, 0x14, 0x59, 0x21, 0x9d);
    MixIs(input, 32, 0x33B9858FFCFFC059, 0x279305B6F774AB1D, KSecret(), 80, 0x4EF90DA297486471, 0xD8ACDEA946EF1938,
          0x9E3779B185EBCA8D,
          0x0, 0xED3087541D342EFE, 0x0, 0x3A7564F7C1034EAB, 0xDE8902DBE1CBEEA7, 0x1DE661413677E5B6,
                0x6A0C92D81D180DBA, 0x19FDC8F61459219D);
  }

  lemma Ends80At2()
    ensures MixEnds(0x71560779D9AF4A30, TestBuffer(80), KSecret(), 0x9E3779B185EBCA8D, 2) == 0x9CA94838031228A3
  {
    hide Xor, Generator, ReadLE64, KSecret, TestBuffer, Pow2, LE, Mix16B, Avalanche, Mul128Fold64, Add64;
    Mix80At32();
    Added(0x71560779D9AF4A30, 0xB761E6902021B24C, 0x1, 0x28B7EE09F9D0FC7C);
    Mix80At32Wide();
    Added(0x28B7EE09F9D0FC7C, 0x73F15A2E09412C27, 0x0, 0x9CA94838031228A3);
  }

  lemma Mix80At16()
    ensures Mix16B(TestBuffer(80), 16, KSecret(), 32, 0x9E3779B185EBCA8D) == 0x415EC0F1B4F302E8
  {
    hide Xor, Generator, ReadLE64, KSecret, TestBuffer, Pow2, LE, Mix16B, Avalanche, Mul128Fold64;
    var input := TestBuffer(80);
    Buffer0(80);
    Secret0();
    XorIs(0x2a, 0xcd, 0xd6, 0xaa, 0x93, 0xef, 0xdf, 0xe3, 0x17, 0x1d, 0x3a, 0x7d, 0xd4, 0xd2, 0x44, 0x58);
    XorIs(0xd5, 0x6f, 0x5a, 0x54, 0x3f, 0x5c, 0x8b, 0x53, 0x83, 0x3b, 0x86, 0x1a, 0xf7, 0xe4, 0x8f, 0xf5);
    XorIs(0x55, 0x86, 0x6d, 0xa1, 0x2e, 0xc9, 0xe7, 0x42, 0x14, 0xd8, 0xad, 0x50, 0x9a, 0x3a, 0xe5, 0xaa);
    MixIs(input, 16, 0x2ACDD6AA93EFDFE3, 0xD56F5A543F5C8B53, KSecret(), 32, 0x78E5C0CC4EE679CB, 0x2172FFCC7DD05A82,
          0x9E3779B185EBCA8D,
          0x1, 0x171D3A7DD4D24458, 0x1, 0x833B861AF7E48FF5, 0x3DD0ECD7473D9BBB, 0x5654DC4EC8B804A6,
                0x55866DA12EC9E742, 0x14D8AD509A3AE5AA);
  }

  lemma Mix80At48()
    ensures Mix16B(TestBuffer(80), 48, KSecret(), 48, 0x9E3779B185EBCA8D) == 0x356F0B7A66AE730A
  {
    hide Xor, Generator, ReadLE64, KSecret, TestBuffer, Pow2, LE, Mix16B, Avalanche, Mul128Fold64;
    var input := TestBuffer(80);
    Buffer0(80);
    Buffer1(80);
    Secret0();
    XorIs(0x76, 0x9f, 0x7c, 0x67, 0xb3, 0x84, 0x70, 0xb0, 0x2c, 0x5b, 0xbd, 0xa8, 0xfa, 0x31, 0xd3, 0x45);
    XorIs(0xe8, 0x17, 0x98, 0x7b, 0xed, 0x72, 0x00, 0x48, 0xad, 0xee, 0xc0, 0xd0, 0x60, 0xa4, 0x6b, 0x53);
    XorIs(0x2d, 0xa0, 0x7a, 0x77, 0xb1, 0x7d, 0xb1, 0xd7, 0x18, 0xcf, 0x71, 0x0d, 0xd7, 0xd3, 0xc2, 0xdd);
    MixIs(input, 48, 0x769F7C67B38470B0, 0xE817987BED720048, KSecret(), 48, 0x8E2443F7744608B8, 0x4C263A81E69035E0,
          0x9E3779B185EBCA8D,
          0x1, 0x2C5BBDA8FA31D345, 0x1, 0xADEEC0D060A46B53, 0x5AC4C1CF49B5A3F5, 0x45F958AB8DD66B1B,
                0x2DA07A77B17DB1D7, 0x18CF710DD7D3C2DD);
  }

  lemma Ends80At1()
    ensures MixEnds(0x9CA94838031228A3, TestBuffer(80), KSecret(), 0x9E3779B185EBCA8D, 1) == 0x137714A41EB39E95
  {
    hide Xor, Generator, ReadLE64, KSecret, TestBuffer, Pow2, LE, Mix16B, Avalanche, Mul128Fold64, Add64;
    Mix80At16();
    Added(0x9CA94838031228A3, 0x415EC0F1B4F302E8, 0x0, 0xDE080929B8052B8B);
    Mix80At48();
    Added(0xDE080929B8052B8B, 0x356F0B7A66AE730A, 0x1, 0x137714A41EB39E95);
  }

  lemma Mix80At0()
    ensures Mix16B(TestBuffer(80), 0, KSecret(), 0, 0x9E3779B185EBCA8D) == 0x709E4B411B6DC276
  {
    hide Xor, Generator, ReadLE64, KSecret, TestBuffer, Pow2, LE, Mix16B, Avalanche, Mul128Fold64;
    var input := TestBuffer(80);
    Buffer0(80);
    Secret0();
    XorIs(0x24, 0xa3, 0x32, 0xb7, 0x9b, 0x92, 0x52, 0x00, 0x5c, 0x83, 0x1d, 0xd4, 0xbf, 0x58, 0xc9, 0x45);
    XorIs(0x93, 0xb8, 0xec, 0x0e, 0x95, 0xaf, 0x00, 0x2d, 0x7e, 0x75, 0xa8, 0x45, 0xa6, 0x95, 0x36, 0xef);
    XorIs(0x1f, 0x08, 0x56, 0xf1, 0x8a, 0xec, 0x38, 0x4a, 0x6f, 0x96, 0x1d, 0xb0, 0x91, 0x81, 0xfa, 0x3c);
    MixIs(input, 0, 0x24A332B79B925200, 0x93B8EC0E95AF002D, KSecret(), 0, 0xBE4BA423396CFEB8, 0x1CAD21F72C81017C,
          0x9E3779B185EBCA8D,
          0x1, 0x5C831DD4BF58C945, 0x1, 0x7E75A845A69536EF, 0x78202F6324CA9B45, 0xEDCD444B333A36C2,
                0x1F0856F18AEC384A, 0x6F961DB09181FA3C);
  }

  lemma Mix80At64()
    ensures Mix16B(TestBuffer(80), 64, KSecret(), 16, 0x9E3779B185EBCA8D) == 0x1D5FF396DAFB07AB
  {
    hide Xor, Generator, ReadLE64, KSecret, TestBuffer, Pow2, LE, Mix16B, Avalanche, Mul128Fold64;
    var input := TestBuffer(80);
    Buffer1(80);
    Secret0();
    XorIs(0x65, 0xd0, 0xcb, 0x0c, 0x0c, 0x5e, 0x48, 0xdd, 0x79, 0xcf, 0x0a, 0x35, 0x6f, 0x59, 0x9f, 0x6b);
    XorIs(0xe8, 0x6c, 0xb0, 0x11, 0x8f, 0xb2, 0xad, 0x3f, 0x81, 0x30, 0x3a, 0x06, 0x1e, 0xb8, 0x75, 0xe5);
    XorIs(0x16, 0xcc, 0xc3, 0x43, 0x75, 0xcb, 0x40, 0xfc, 0x0b, 0x93, 0x30, 0xd5, 0xaf, 0x30, 0x47, 0x57);
    MixIs(input, 64, 0x65D0CB0C0C5E48DD, 0xE86CB0118FB2AD3F, KSecret(), 16, 0xDB979083E96DD4DE, 0x1F67B3B7A4A44072,
          0x9E3779B185EBCA8D,
          0x1, 0x79CF0A356F599F6B, 0x1, 0x81303A061EB875E5, 0x1C1FC1396307D7B6, 0x695C8A17910AD8DA,
                0x16CCC34375CB40FC, 0xB9330D5AF304757);
  }

  lemma Ends80At0()
    ensures MixEnds(0x137714A41EB39E95, TestBuffer(80), KSecret(), 0x9E3779B185EBCA8D, 0) == 0xA175537C151C68B6
  {
    hide Xor, Generator, ReadLE64, KSecret, TestBuffer, Pow2, LE, Mix16B, Avalanche, Mul128Fold64, Add64;
    Mix80At0();
    Added(0x137714A41EB39E95, 0x709E4B411B6DC276, 0x0, 0x84155FE53A21610B);
    Mix80At64();
    Added(0x84155FE53A21610B, 0x1D5FF396DAFB07AB, 0x0, 0xA175537C151C68B6);
  }

  lemma AvalancheAt2()
    ensures Avalanche(0xA175537C151C68B6) == 0xC6DD0CB699532E73
  {
    hide Xor, Avalanche;
    XorIs(0xa1, 0x75, 0x53, 0x7c, 0x15, 0x1c, 0x68, 0xb6, 0x00, 0x00, 0x00, 0x00, 0x05, 0x0b, 0xaa, 0x9b);
    XorIs(0xc6, 0xdd, 0x0c, 0xb6, 0x5f, 0x8e, 0x22, 0xc5, 0x00, 0x00, 0x00, 0x00, 0xc6, 0xdd, 0x0c, 0xb6);
    AvalancheIs(0xA175537C151C68B6, 0x50BAA9B, 0x1C151C68B6, 0xA175537C1017C22D, 0xE1693E8C0E40D12,
          0xC6DD0CB65F8E22C5, 0xC6DD0CB6, 0x5F8E22C5);
  }

  lemma Short80()
    ensures Len17To128(TestBuffer(80), KSecret(), 0x9E3779B185EBCA8D) == 0xC6DD0CB699532E73
  {
    hide Xor, KSecret, TestBuffer, Generator, MixEnds, Avalanche, Mul64;
    Multiplied(80, PRIME64_1, 0x31, 0x71560779D9AF4A30);
    Ends80At2();
    Ends80At1();
    Ends80At0();
    AvalancheAt2();
  }

  lemma Mix195At0()
    ensures Mix16B(TestBuffer(195), 0, KSecret(), 0, 0x9E3779B185EBCA8D) == 0x709E4B411B6DC276
  {
    hide Xor, Generator, ReadLE64, KSecret, TestBuffer, Pow2, LE, Mix16B, Avalanche, Mul128Fold64;
    var input := TestBuffer(195);
    Buffer0(195);
    Secret0();
    XorIs(0x24, 0xa3, 0x32, 0xb7, 0x9b, 0x92, 0x52, 0x00, 0x5c, 0x83, 0x1d, 0xd4, 0xbf, 0x58, 0xc9, 0x45);
    XorIs(0x93, 0xb8, 0xec, 0x0e, 0x95, 0xaf, 0x00, 0x2d, 0x7e, 0x75, 0xa8, 0x45, 0xa6, 0x95, 0x36, 0xef);
    XorIs(0x1f, 0x08, 0x56, 0xf1, 0x8a, 0xec, 0x38, 0x4a, 0x6f, 0x96, 0x1d, 0xb0, 0x91, 0x81, 0xfa, 0x3c);
    MixIs(input, 0, 0x24A332B79B925200, 0x93B8EC0E95AF002D, KSecret(), 0, 0xBE4BA423396CFEB8, 0x1CAD21F72C81017C,
          0x9E3779B185EBCA8D,
          0x1, 0x5C831DD4BF58C945, 0x1, 0x7E75A845A69536EF, 0x78202F6324CA9B45, 0xEDCD444B333A36C2,
                0x1F0856F18AEC384A, 0x6F961DB09181FA3C);
  }

  lemma Mix195At16()
    ensures Mix16B(TestBuffer(195), 16, KSecret(), 16, 0x9E3779B185EBCA8D) == 0xCD500F1D6C560ED6
  {
    hide Xor, Generator, ReadLE64, KSecret, TestBuffer, Pow2, LE, Mix16B, Avalanche, Mul128Fold64;
    var input := TestBuffer(195);
    Buffer0(195);
    Secret0();
    XorIs(0x2a, 0xcd, 0xd6, 0xaa, 0x93, 0xef, 0xdf, 0xe3, 0x79, 0xcf, 0x0a, 0x35, 0x6f, 0x59, 0x9f, 0x6b);
    XorIs(0xd5, 0x6f, 0x5a, 0x54, 0x3f, 0x5c, 0x8b, 0x53, 0x81, 0x30, 0x3a, 0x06, 0x1e, 0xb8, 0x75, 0xe5);
    XorIs(0xd6, 0x0b, 0xd2, 0xad, 0x7e, 0xb8, 0xd0, 0xb0, 0x1b, 0x5b, 0xdd, 0xb0, 0x12, 0xee, 0xde, 0x66);
    MixIs(input, 16, 0x2ACDD6AA93EFDFE3, 0xD56F5A543F5C8B53, KSecret(), 16, 0xDB979083E96DD4DE, 0x1F67B3B7A4A44072,
          0x9E3779B185EBCA8D,
          0x1, 0x79CF0A356F599F6B, 0x1, 0x81303A061EB875E5, 0x5302DC9FFCB64088, 0x545F605221E4FEB6,
                0xD60BD2AD7EB8D0B0, 0x1B5BDDB012EEDE66);
  }

  lemma Mix195At32()
    ensures Mix16B(TestBuffer(195), 32, KSecret(), 32, 0x9E3779B185EBCA8D) == 0xF1DA678F15F9CD4D
  {
    hide Xor, Generator, ReadLE64, KSecret, TestBuffer, Pow2, LE, Mix16B, Avalanche, Mul128Fold64;
    var input := TestBuffer(195);
    Buffer0(195);
    Secret0();
    XorIs(0x33, 0xb9, 0x85, 0x8f, 0xfc, 0xff, 0xc0, 0x59, 0x17, 0x1d, 0x3a, 0x7d, 0xd4, 0xd2, 0x44, 0x58);
    XorIs(0x27, 0x93, 0x05, 0xb6, 0xf7, 0x74, 0xab, 0x1d, 0x83, 0x3b, 0x86, 0x1a, 0xf7, 0xe4, 0x8f, 0xf5);
    XorIs(0xe6, 0x4b, 0xce, 0x61, 0x10, 0x5f, 0xc4, 0xe8, 0x17, 0x91, 0xa9, 0xee, 0x05, 0xa6, 0x09, 0xa5);
    MixIs(input, 32, 0x33B9858FFCFFC059, 0x279305B6F774AB1D, KSecret(), 32, 0x78E5C0CC4EE679CB, 0x2172FFCC7DD05A82,
          0x9E3779B185EBCA8D,
          0x1, 0x171D3A7DD4D24458, 0x1, 0x833B861AF7E48FF5, 0x24A4BFF2282D8401, 0xA4A883AC009024E8,
                0xE64BCE61105FC4E8, 0x1791A9EE05A609A5);
  }

  lemma Mix195At48()
    ensures Mix16B(TestBuffer(195), 48, KSecret(), 48, 0x9E3779B185EBCA8D) == 0x356F0B7A66AE730A
  {
    hide Xor, Generator, ReadLE64, KSecret, TestBuffer, Pow2, LE, Mix16B, Avalanche, Mul128Fold64;
    var input := TestBuffer(195);
    Buffer0(195);
    Buffer1(195);
    Secret0();
    XorIs(0x76, 0x9f, 0x7c, 0x67, 0xb3, 0x84, 0x70, 0xb0, 0x2c, 0x5b, 0xbd, 0xa8, 0xfa, 0x31, 0xd3, 0x45);
    XorIs(0xe8, 0x17, 0x98, 0x7b, 0xed, 0x72, 0x00, 0x48, 0xad, 0xee, 0xc0, 0xd0, 0x60, 0xa4, 0x6b, 0x53);
    XorIs(0x2d, 0xa0, 0x7a, 0x77, 0xb1, 0x7d, 0xb1, 0xd7, 0x18, 0xcf, 0x71, 0x0d, 0xd7, 0xd3, 0xc2, 0xdd);
    MixIs(input, 48, 0x769F7C67B38470B0, 0xE817987BED720048, KSecret(), 48, 0x8E2443F7744608B8, 0x4C263A81E69035E0,
          0x9E3779B185EBCA8D,
          0x1, 0x2C5BBDA8FA31D345, 0x1, 0xADEEC0D060A46B53, 0x5AC4C1CF49B5A3F5, 0x45F958AB8DD66B1B,
                0x2DA07A77B17DB1D7, 0x18CF710DD7D3C2DD);
  }

  lemma Rounds195To4()
    ensures MixRounds(0x8441B239029B44D5, TestBuffer(195), KSecret(), 0x9E3779B185EBCA8D, 0, 4, 0) == 0xE9797FA107075678
  {
    hide Xor, Generator, ReadLE64, KSecret, TestBuffer, Pow2, LE, Mix16B, Avalanche, Mul128Fold64, Add64;
    var input := TestBuffer(195);
    assert MixRounds(0x8441B239029B44D5, input, KSecret(), 0x9E3779B185EBCA8D, 0, 0, 0) == 0x8441B239029B44D5;
    Mix195At0();
    Added(0x8441B239029B44D5, 0x709E4B411B6DC276, 0x0, 0xF4DFFD7A1E09074B);
    assert MixRounds(0x8441B239029B44D5, input, KSecret(), 0x9E3779B185EBCA8D, 0, 1, 0) == 0xF4DFFD7A1E09074B;
    Mix195At16();
    Added(0xF4DFFD7A1E09074B, 0xCD500F1D6C560ED6, 0x1, 0xC2300C978A5F1621);
    assert MixRounds(0x8441B239029B44D5, input, KSecret(), 0x9E3779B185EBCA8D, 0, 2, 0) == 0xC2300C978A5F1621;
    Mix195At32();
    Added(0xC2300C978A5F1621, 0xF1DA678F15F9CD4D, 0x1, 0xB40A7426A058E36E);
    assert MixRounds(0x8441B239029B44D5, input, KSecret(), 0x9E3779B185EBCA8D, 0, 3, 0) == 0xB40A7426A058E36E;
    Mix195At48();
    Added(0xB40A7426A058E36E, 0x356F0B7A66AE730A, 0x0, 0xE9797FA107075678);
    assert MixRounds(0x8441B239029B44D5, input, KSecret(), 0x9E3779B185EBCA8D, 0, 4, 0) == 0xE9797FA107075678;
  }

  lemma Mix195At64()
    ensures Mix16B(TestBuffer(195), 64, KSecret(), 64, 0x9E3779B185EBCA8D) == 0x6C1FFFD3D51698FA
  {
    hide Xor, Generator, ReadLE64, KSecret, TestBuffer, Pow2, LE, Mix16B, Avalanche, Mul128Fold64;
    var input := TestBuffer(195);
    Buffer1(195);
    Secret1();
    XorIs(0x65, 0xd0, 0xcb, 0x0c, 0x0c, 0x5e, 0x48, 0xdd, 0x69, 0x38, 0x3d, 0x43, 0x41, 0x3d, 0xf2, 0xc9);
    XorIs(0xe8, 0x6c, 0xb0, 0x11, 0x8f, 0xb2, 0xad, 0x3f, 0x04, 0xf6, 0xd9, 0x6a, 0x05, 0x7a, 0x05, 0xfb);
    XorIs(0x67, 0xf1, 0x73, 0x54, 0xda, 0x17, 0x97, 0x50, 0x0b, 0xee, 0x8c, 0x87, 0x0f, 0x01, 0x0f, 0xaa);
    MixIs(input, 64, 0x65D0CB0C0C5E48DD, 0xE86CB0118FB2AD3F, KSecret(), 64, 0xCB00C391BB52283C, 0xA32E531B8B65D088,
          0x9E3779B185EBCA8D,
          0x1, 0x69383D43413DF2C9, 0x0, 0x4F6D96A057A05FB, 0xCE8F64F4D63BA14, 0xEC9A697B8AC8A8C4, 0x67F17354DA179750,
                0xBEE8C870F010FAA);
  }

  lemma Mix195At80()
    ensures Mix16B(TestBuffer(195), 80, KSecret(), 80, 0x9E3779B185EBCA8D) == 0x80B1FD2D2D1AC31
  {
    hide Xor, Generator, ReadLE64, KSecret, TestBuffer, Pow2, LE, Mix16B, Avalanche, Mul128Fold64;
    var input := TestBuffer(195);
    Buffer1(195);
    Secret1();
    XorIs(0x56, 0x59, 0x61, 0x08, 0x86, 0xf1, 0xb0, 0x8d, 0xed, 0x30, 0x87, 0x54, 0x1d, 0x34, 0x2e, 0xfe);
    XorIs(0xab, 0xbd, 0x63, 0x13, 0x78, 0x4e, 0x8e, 0x6c, 0x3a, 0x75, 0x64, 0xf7, 0xc1, 0x03, 0x4e, 0xab);
    XorIs(0x62, 0xb2, 0x74, 0x2f, 0x11, 0x0b, 0x6b, 0x65, 0x6a, 0xb9, 0x6b, 0xfd, 0xc3, 0xda, 0xc7, 0x54);
    MixIs(input, 80, 0x5659610886F1B08D, 0xABBD6313784E8E6C, KSecret(), 80, 0x4EF90DA297486471, 0xD8ACDEA946EF1938,
          0x9E3779B185EBCA8D,
          0x0, 0xED3087541D342EFE, 0x0, 0x3A7564F7C1034EAB, 0xBB69E65C9BC59E73, 0x91C807E4B94DC0C7,
                0x62B2742F110B6B65, 0x6AB96BFDC3DAC754);
  }

  lemma Mix195At96()
    ensures Mix16B(TestBuffer(195), 96, KSecret(), 96, 0x9E3779B185EBCA8D) == 0x745171A7D892F152
  {
    hide Xor, Generator, ReadLE64, KSecret, TestBuffer, Pow2, LE, Mix16B, Avalanche, Mul128Fold64;
    var input := TestBuffer(195);
    Buffer1(195);
    Secret1();
    XorIs(0xd9, 0x2f, 0x71, 0xea, 0x09, 0x73, 0x32, 0x9d, 0xdd, 0x6c, 0x16, 0x94, 0xc5, 0x62, 0xc5, 0x35);
    XorIs(0xe9, 0xd0, 0x8a, 0xca, 0xf0, 0x55, 0x9d, 0x7a, 0x7f, 0x17, 0x92, 0x16, 0x41, 0xd0, 0x12, 0x6c);
    XorIs(0x76, 0xd3, 0xbe, 0xd4, 0x65, 0x2a, 0x20, 0x70, 0x02, 0x82, 0xcf, 0x73, 0xbd, 0xb8, 0xd1, 0x22);
    MixIs(input, 96, 0xD92F71EA0973329D, 0xE9D08ACAF0559D7A, KSecret(), 96, 0x3F349CE33F76FAA8, 0x1D4F0BC7C7BBDCF9,
          0x9E3779B185EBCA8D,
          0x0, 0xDD6C1694C562C535, 0x1, 0x7F17921641D0126C, 0x443677ECC11F7A8, 0x96C718DCB1858F16,
                0x76D3BED4652A2070, 0x282CF73BDB8D122);
  }

  lemma Mix195At112()
    ensures Mix16B(TestBuffer(195), 112, KSecret(), 112, 0x9E3779B185EBCA8D) == 0xB9FA9FFEA32AFE9F
  {
    hide Xor, Generator, ReadLE64, KSecret, TestBuffer, Pow2, LE, Mix16B, Avalanche, Mul128Fold64;
    var input := TestBuffer(195);
    Buffer2(195);
    Secret1();
    XorIs(0x51, 0xca, 0x0f, 0x6b, 0xb3, 0x36, 0x1a, 0x5e, 0xcf, 0x91, 0x2e, 0x7e, 0xd1, 0xcc, 0x1c, 0x17);
    XorIs(0x96, 0x00, 0xed, 0x62, 0xc4, 0xa2, 0x8b, 0xef, 0xc6, 0x3b, 0xff, 0x28, 0x43, 0x92, 0xd5, 0x3b);
    XorIs(0x88, 0x5b, 0x9b, 0x59, 0x72, 0x0c, 0x02, 0x74, 0x31, 0xa1, 0x04, 0xa7, 0xd1, 0x26, 0xfc, 0xeb);
    MixIs(input, 112, 0x51CA0F6BB3361A5E, 0x9600ED62C4A28BEF, KSecret(), 112, 0x3159B4CD4BE0518A, 0x647378D9C97E9FC8,
          0x9E3779B185EBCA8D,
          0x0, 0xCF912E7ED1CC1C17, 0x1, 0xC63BFF284392D53B, 0x9E5B211562FA0649, 0x503B124A87305ED4,
                0x885B9B59720C0274, 0x31A104A7D126FCEB);
  }

  lemma Rounds195To8()
    ensures MixRounds(0x8441B239029B44D5, TestBuffer(195), KSecret(), 0x9E3779B185EBCA8D, 0, 8, 0) == 0x8BF0B0EE2AAD8B94
  {
    hide Xor, Generator, ReadLE64, KSecret, TestBuffer, Pow2, LE, Mix16B, Avalanche, Mul128Fold64, Add64;
    var input := TestBuffer(195);
    Rounds195To4();
    Mix195At64();
    Added(0xE9797FA107075678, 0x6C1FFFD3D51698FA, 0x1, 0x55997F74DC1DEF72);
    assert MixRounds(0x8441B239029B44D5, input, KSecret(), 0x9E3779B185EBCA8D, 0, 5, 0) == 0x55997F74DC1DEF72;
    Mix195At80();
    Added(0x55997F74DC1DEF72, 0x80B1FD2D2D1AC31, 0x0, 0x5DA49F47AEEF9BA3);
    assert MixRounds(0x8441B239029B44D5, input, KSecret(), 0x9E3779B185EBCA8D, 0, 6, 0) == 0x5DA49F47AEEF9BA3;
    Mix195At96();
    Added(0x5DA49F47AEEF9BA3, 0x745171A7D892F152, 0x0, 0xD1F610EF87828CF5);
    assert MixRounds(0x8441B239029B44D5, input, KSecret(), 0x9E3779B185EBCA8D, 0, 7, 0) == 0xD1F610EF87828CF5;
    Mix195At112();
    Added(0xD1F610EF87828CF5, 0xB9FA9FFEA32AFE9F, 0x1, 0x8BF0B0EE2AAD8B94);
    assert MixRounds(0x8441B239029B44D5, input, KSecret(), 0x9E3779B185EBCA8D, 0, 8, 0) == 0x8BF0B0EE2AAD8B94;
  }

  lemma AvalancheAt3()
    ensures Avalanche(0x8BF0B0EE2AAD8B94) == 0x3C07C44FEE2C6F34
  {
    hide Xor, Avalanche;
    XorIs(0x8b, 0xf0, 0xb0, 0xee, 0x2a, 0xad, 0x8b, 0x94, 0x00, 0x00, 0x00, 0x00, 0x04, 0x5f, 0x85, 0x87);
    XorIs(0x3c, 0x07, 0xc4, 0x4f, 0xd2, 0x2b, 0xab, 0x7b, 0x00, 0x00, 0x00, 0x00, 0x3c, 0x07, 0xc4, 0x4f);
    AvalancheIs(0x8BF0B0EE2AAD8B94, 0x45F8587, 0xE2AAD8B94, 0x8BF0B0EE2EF20E13, 0xC35EAAD590D7EE8,
          0x3C07C44FD22BAB7B, 0x3C07C44F, 0xD22BAB7B);
  }

  lemma Middle195()
    ensures Avalanche(0x8BF0B0EE2AAD8B94) == 0x3C07C44FEE2C6F34
  {
    hide Xor, Avalanche;
    AvalancheAt3();
  }

  lemma Mix195At128()
    ensures Mix16B(TestBuffer(195), 128, KSecret(), 3, 0x9E3779B185EBCA8D) == 0x12168A78F30C02AA
  {
    hide Xor, Generator, ReadLE64, KSecret, TestBuffer, Pow2, LE, Mix16B, Avalanche, Mul128Fold64;
    var input := TestBuffer(195);
    Buffer2(195);
    SecretFrom3();
    XorIs(0x92, 0x3b, 0xd1, 0x0f, 0xeb, 0x49, 0x34, 0xf3, 0x1f, 0x38, 0xf6, 0x6f, 0xd1, 0x8f, 0xed, 0xc6);
    XorIs(0xcf, 0x3d, 0xed, 0xaa, 0xdb, 0x63, 0xa9, 0xa1, 0xcf, 0x9d, 0x64, 0x6b, 0x27, 0x36, 0x2c, 0x9f);
    XorIs(0x12, 0x4e, 0xe7, 0xa2, 0xd5, 0x9a, 0x23, 0xd6, 0x00, 0x58, 0x6d, 0xda, 0x26, 0x96, 0x21, 0x7c);
    MixIs(input, 128, 0x923BD10FEB4934F3, 0xCF3DEDAADB63A9A1, KSecret(), 3, 0x81017CBE4BA42339, 0x6DD4DE1CAD21F72C,
          0x9E3779B185EBCA8D,
          0x1, 0x1F38F66FD18FEDC6, 0x1, 0xCF9D646B27362C9F, 0x8D0327603AC6D935, 0xA089C1FC55853E, 0x124EE7A2D59A23D6,
                0x586DDA2696217C);
  }

  lemma Mix195At144()
    ensures Mix16B(TestBuffer(195), 144, KSecret(), 19, 0x9E3779B185EBCA8D) == 0x8C4DF5B8E54E87F8
  {
    hide Xor, Generator, ReadLE64, KSecret, TestBuffer, Pow2, LE, Mix16B, Avalanche, Mul128Fold64;
    var input := TestBuffer(195);
    Buffer2(195);
    SecretFrom3();
    XorIs(0xa2, 0x21, 0xb3, 0xf9, 0xcd, 0x42, 0x09, 0xf1, 0x42, 0x77, 0xec, 0x8d, 0x1d, 0x7c, 0x4e, 0x76);
    XorIs(0xd1, 0x48, 0x2f, 0xe4, 0xf4, 0xc8, 0xf2, 0xeb, 0x48, 0x42, 0x51, 0x6d, 0xe1, 0xc7, 0xed, 0x17);
    XorIs(0x0a, 0x51, 0x24, 0xf7, 0xcb, 0xe0, 0xc1, 0xe4, 0x86, 0x1c, 0xd1, 0x4f, 0x2e, 0xae, 0x46, 0x1c);
    MixIs(input, 144, 0xA221B3F9CD4209F1, 0xD1482FE4F4C8F2EB, KSecret(), 19, 0xA44072DB979083E9, 0xE679CB1F67B3B7A4,
          0x9E3779B185EBCA8D,
          0x1, 0x4277EC8D1D7C4E76, 0x0, 0x4842516DE1C7ED17, 0xE0565F74D03E4787, 0x990A7E89150F1FFC,
                0xA5124F7CBE0C1E4, 0x861CD14F2EAE461C);
  }

  lemma Mix195At160()
    ensures Mix16B(TestBuffer(195), 160, KSecret(), 35, 0x9E3779B185EBCA8D) == 0x1B41C2CFCE0D4744
  {
    hide Xor, Generator, ReadLE64, KSecret, TestBuffer, Pow2, LE, Mix16B, Avalanche, Mul128Fold64;
    var input := TestBuffer(195);
    Buffer2(195);
    Buffer3(195);
    SecretFrom3();
    XorIs(0x4a, 0xf8, 0xec, 0xef, 0xc2, 0xf4, 0x10, 0x4b, 0x6e, 0x91, 0xfc, 0x2a, 0x6b, 0xac, 0x96, 0xdb);
    XorIs(0x0e, 0x62, 0xa6, 0xa4, 0xc3, 0x74, 0x38, 0xb5, 0xa7, 0xd1, 0x3e, 0x6f, 0xed, 0x14, 0x01, 0xf0);
    XorIs(0x03, 0x63, 0x25, 0x8b, 0xb0, 0xd2, 0x54, 0xd0, 0x18, 0x22, 0xe7, 0x44, 0x7e, 0xdf, 0x13, 0x94);
    MixIs(input, 160, 0x4AF8ECEFC2F4104B, 0xE62A6A4C37438B5, KSecret(), 35, 0xD05A8278E5C0CC4E, 0x4608B82172FFCC7D,
          0x9E3779B185EBCA8D,
          0x1, 0x6E91FC2A6BAC96DB, 0x1, 0xA7D13E6FED1401F0, 0x246910C5A9588690, 0xA9B398CB2E603945,
                0x363258BB0D254D0, 0x1822E7447EDF1394);
  }

  lemma Mix195At176()
    ensures Mix16B(TestBuffer(195), 176, KSecret(), 51, 0x9E3779B185EBCA8D) == 0x8EE49561A8317B0C
  {
    hide Xor, Generator, ReadLE64, KSecret, TestBuffer, Pow2, LE, Mix16B, Avalanche, Mul128Fold64;
    var input := TestBuffer(195);
    Buffer3(195);
    SecretFrom3();
    XorIs(0x98, 0x86, 0xe3, 0x41, 0x37, 0x63, 0xfd, 0xbf, 0x2e, 0x6d, 0x5a, 0x3f, 0xaa, 0x2f, 0xc2, 0x01);
    XorIs(0x87, 0x66, 0x03, 0x56, 0xba, 0x4c, 0xeb, 0x1a, 0xb3, 0xf0, 0xc2, 0x9a, 0xa0, 0x4e, 0xb7, 0x59);
    XorIs(0xab, 0x77, 0x0f, 0x24, 0x5d, 0x58, 0xf6, 0xba, 0x25, 0x93, 0x9a, 0x45, 0xf5, 0x69, 0x8d, 0xb6);
    MixIs(input, 176, 0x9886E3413763FDBF, 0x87660356BA4CEB1A, KSecret(), 51, 0x9035E08E2443F774, 0x52283C4C263A81E6,
          0x9E3779B185EBCA8D,
          0x1, 0x2E6D5A3FAA2FC201, 0x1, 0xB3F0C29AA04EB759, 0xB6EBB97E9D4C3FBE, 0x3496C1CC1A025C43,
                0xAB770F245D58F6BA, 0x25939A45F5698DB6);
  }

  lemma Rounds195To12()
    ensures MixRounds(0x3C07C44FEE2C6F34, TestBuffer(195), KSecret(), 0x9E3779B185EBCA8D, 8, 12,
          125) == 0x84929CB33CC5BC26
  {
    hide Xor, Generator, ReadLE64, KSecret, TestBuffer, Pow2, LE, Mix16B, Avalanche, Mul128Fold64, Add64;
    var input := TestBuffer(195);
    assert MixRounds(0x3C07C44FEE2C6F34, input, KSecret(), 0x9E3779B185EBCA8D, 8, 8, 125) == 0x3C07C44FEE2C6F34;
    Mix195At128();
    Added(0x3C07C44FEE2C6F34, 0x12168A78F30C02AA, 0x0, 0x4E1E4EC8E13871DE);
    assert MixRounds(0x3C07C44FEE2C6F34, input, KSecret(), 0x9E3779B185EBCA8D, 8, 9, 125) == 0x4E1E4EC8E13871DE;
    Mix195At144();
    Added(0x4E1E4EC8E13871DE, 0x8C4DF5B8E54E87F8, 0x0, 0xDA6C4481C686F9D6);
    assert MixRounds(0x3C07C44FEE2C6F34, input, KSecret(), 0x9E3779B185EBCA8D, 8, 10, 125) == 0xDA6C4481C686F9D6;
    Mix195At160();
    Added(0xDA6C4481C686F9D6, 0x1B41C2CFCE0D4744, 0x0, 0xF5AE07519494411A);
    assert MixRounds(0x3C07C44FEE2C6F34, input, KSecret(), 0x9E3779B185EBCA8D, 8, 11, 125) == 0xF5AE07519494411A;
    Mix195At176();
    Added(0xF5AE07519494411A, 0x8EE49561A8317B0C, 0x1, 0x84929CB33CC5BC26);
    assert MixRounds(0x3C07C44FEE2C6F34, input, KSecret(), 0x9E3779B185EBCA8D, 8, 12, 125) == 0x84929CB33CC5BC26;
  }

  lemma Buffer195At179()
    ensures ReadLE64(TestBuffer(195), 179) == 0x4CEB1A9886E34137
  {
    hide Generator, ReadLE64, TestBuffer, Pow2;
    Buffer3(208);
    assert Pow2(24) == 0x1000000 && Pow2(40) == 0x10000000000 by {
      PowersOfTwo();
    }
    Across(TestBuffer(208), 176, 3, 0x1000000, 0x10000000000, 0x9886E34137, 0x63FDBF, 0x87660356BA, 0x4CEB1A);
    Shorter(195, 208, 179);
  }

  lemma Buffer195At187()
    ensures ReadLE64(TestBuffer(195), 187) == 0x4500ED87660356BA
  {
    hide Generator, ReadLE64, TestBuffer, Pow2;
    Buffer3(208);
    assert Pow2(24) == 0x1000000 && Pow2(40) == 0x10000000000 by {
      PowersOfTwo();
    }
    Across(TestBuffer(208), 184, 3, 0x1000000, 0x10000000000, 0x87660356BA, 0x4CEB1A, 0xB64485C159, 0x4500ED);
    Shorter(195, 208, 187);
  }

  lemma Mix195At179()
    ensures Mix16B(TestBuffer(195), 179, KSecret(), 119, 0x9E3779B185EBCA8D) == 0x902B61250FF007C4
  {
    hide Xor, Generator, ReadLE64, KSecret, TestBuffer, Pow2, LE, Mix16B, Avalanche, Mul128Fold64;
    var input := TestBuffer(195);
    Buffer195At179();
    Buffer195At187();
    SecretFrom103();
    XorIs(0x4c, 0xeb, 0x1a, 0x98, 0x86, 0xe3, 0x41, 0x37, 0x11, 0xb0, 0x53, 0x7b, 0x04, 0x8b, 0x92, 0xbe);
    XorIs(0x45, 0x00, 0xed, 0x87, 0x66, 0x03, 0x56, 0xba, 0x4d, 0x9b, 0xba, 0xd2, 0x26, 0xda, 0x1f, 0xd7);
    XorIs(0x93, 0x08, 0xe1, 0x48, 0xfa, 0x15, 0x22, 0x55, 0x03, 0x23, 0x80, 0x6d, 0xf5, 0xe5, 0x25, 0x91);
    MixIs(input, 179, 0x4CEB1A9886E34137, 0x4500ED87660356BA, KSecret(), 119, 0x7378D9C97E9FC831, 0xEBD33483ACC5EA64,
          0x9E3779B185EBCA8D,
          0x1, 0x11B0537B048B92BE, 0x0, 0x4D9BBAD226DA1FD7, 0x5D5B49E38268D389, 0x89B575540D9496D,
                0x9308E148FA152255, 0x323806DF5E52591);
  }

  lemma AvalancheAt4()
    ensures Avalanche(0x14BDFDD84CB5C3EA) == 0xBA68003D370CB3D9
  {
    hide Xor, Avalanche;
    XorIs(0x14, 0xbd, 0xfd, 0xd8, 0x4c, 0xb5, 0xc3, 0xea, 0x00, 0x00, 0x00, 0x00, 0x00, 0xa5, 0xef, 0xee);
    XorIs(0xba, 0x68, 0x00, 0x3d, 0x8d, 0x64, 0xb3, 0xe4, 0x00, 0x00, 0x00, 0x00, 0xba, 0x68, 0x00, 0x3d);
    AvalancheIs(0x14BDFDD84CB5C3EA, 0xA5EFEE, 0x184CB5C3EA, 0x14BDFDD84C102C04, 0x1CF54081AC380B3,
          0xBA68003D8D64B3E4, 0xBA68003D, 0x8D64B3E4);
  }

  lemma Short195()
    ensures Len129To240(TestBuffer(195), KSecret(), 0x9E3779B185EBCA8D) == 0xBA68003D370CB3D9
  {
    hide Xor, KSecret, TestBuffer, Generator, MixRounds, Mix16B, Avalanche, Mul64, Add64;
    Multiplied(195, PRIME64_1, 0x78, 0x8441B239029B44D5);
    Rounds195To8();
    Middle195();
    Rounds195To12();
    Mix195At179();
    Added(0x84929CB33CC5BC26, 0x902B61250FF007C4, 0x1, 0x14BDFDD84CB5C3EA);
    AvalancheAt4();
  }

  lemma Xxh64AvalancheAt3()
    ensures Xxh64Avalanche(0x682E908AAE008105) == 0x5444F7869C671AB0
  {
    hide Xor, Xxh64Avalanche;
    XorIs(0x68, 0x2e, 0x90, 0x8a, 0xae, 0x00, 0x81, 0x05, 0x00, 0x00, 0x00, 0x00, 0x34, 0x17, 0x48, 0x45);
    XorIs(0x06, 0x43, 0x85, 0xd4, 0xcc, 0x14, 0xda, 0xc0, 0x00, 0x00, 0x00, 0x00, 0x32, 0x1c, 0x2e, 0xa6);
    XorIs(0x54, 0x44, 0xf7, 0x86, 0xc8, 0x23, 0xed, 0x36, 0x00, 0x00, 0x00, 0x00, 0x54, 0x44, 0xf7, 0x86);
    Xxh64AvalancheIs(0x682E908AAE008105, 0x34174845, 0xAE008105, 0x682E908A9A17C940, 0x4F3C00D212B18F27,
          0x64385D4CC14DAC0, 0x321C2EA6, 0xC14DAC0, 0x64385D4FE08F466, 0x8BEAB8C6C95E93, 0x5444F786C823ED36,
          0x5444F786, 0xC823ED36);
  }

  lemma Xxh64AvalancheAt4()
    ensures Xxh64Avalanche(0x9655D30B4F9004F8) == 0x92220AE55E14AB50
  {
    hide Xor, Xxh64Avalanche;
    XorIs(0x96, 0x55, 0xd3, 0x0b, 0x4f, 0x90, 0x04, 0xf8, 0x00, 0x00, 0x00, 0x00, 0x4b, 0x2a, 0xe9, 0x85);
    XorIs(0xa8, 0xef, 0x2f, 0x81, 0xc4, 0x35, 0x08, 0x93, 0x00, 0x00, 0x00, 0x05, 0x47, 0x79, 0x7c, 0x0e);
    XorIs(0x92, 0x22, 0x0a, 0xe5, 0xcc, 0x36, 0xa1, 0xb5, 0x00, 0x00, 0x00, 0x00, 0x92, 0x22, 0x0a, 0xe5);
    Xxh64AvalancheIs(0x9655D30B4F9004F8, 0x4B2AE985, 0x14F9004F8, 0x9655D30B04BAED7D, 0x7255F7ED5687D531,
          0xA8EF2F81C4350893, 0x547797C0E, 0x4350893, 0xA8EF2F84834C749D, 0xEBD92DCCBB3145B, 0x92220AE5CC36A1B5,
          0x92220AE5, 0xCC36A1B5);
  }

  lemma Wide0()
    ensures Len0To16_128([], KSecret(), 0x9E3779B1) == U128(0x5444F7869C671AB0, 0x92220AE55E14AB50)
  {
    hide Xor, Generator, Rotl64, ReadLE64, ReadLE32, KSecret, TestBuffer, Pow2, LE, Swap32, Swap64, Combined, Rotl32,
          Avalanche, Xxh64Avalanche, Rrmxmx, Mul128Fold64, Mult64to128, Mix16B;
    Secret1();
    XorIs(0xcb, 0x00, 0xc3, 0x91, 0xbb, 0x52, 0x28, 0x3c, 0xa3, 0x2e, 0x53, 0x1b, 0x8b, 0x65, 0xd0, 0x88);
    XorIs(0x00, 0x00, 0x00, 0x00, 0x9e, 0x37, 0x79, 0xb1, 0x68, 0x2e, 0x90, 0x8a, 0x30, 0x37, 0xf8, 0xb4);
    Xxh64AvalancheAt3();
    XorIs(0x4e, 0xf9, 0x0d, 0xa2, 0x97, 0x48, 0x64, 0x71, 0xd8, 0xac, 0xde, 0xa9, 0x46, 0xef, 0x19, 0x38);
    XorIs(0x00, 0x00, 0x00, 0x00, 0x9e, 0x37, 0x79, 0xb1, 0x96, 0x55, 0xd3, 0x0b, 0xd1, 0xa7, 0x7d, 0x49);
    Xxh64AvalancheAt4();
  }

  lemma Turned1()
    ensures Rotl32(0x10000, 13) == 0x20000000
  {
    hide Rotl32, Pow2;
    assert Pow2(13) == 0x2000 && Pow2(19) == 0x80000 by {
      PowersOfTwo();
    }
    Rotl32Parts(0x10000, 13, 0x0, 0x10000);
  }

  lemma Xxh64AvalancheAt5()
    ensures Xxh64Avalanche(0x1255ED54C) == 0xB53D5557E7F76F8D
  {
    hide Xor, Xxh64Avalanche;
    XorIs(0x00, 0x00, 0x00, 0x01, 0x25, 0x5e, 0xd5, 0x4c, 0x00, 0x00, 0x00, 0x00, 0x00, 0x00, 0x00, 0x00);
    XorIs(0x71, 0x0f, 0xed, 0xcb, 0xcd, 0x00, 0x96, 0x74, 0x00, 0x00, 0x00, 0x03, 0x88, 0x7f, 0x6e, 0x5e);
    XorIs(0xb5, 0x3d, 0x55, 0x57, 0x52, 0xca, 0x3a, 0xda, 0x00, 0x00, 0x00, 0x00, 0xb5, 0x3d, 0x55, 0x57);
    Xxh64AvalancheIs(0x1255ED54C, 0x0, 0x1255ED54C, 0x1255ED54C, 0xDF1EA140, 0x710FEDCBCD009674, 0x3887F6E5E,
          0xD009674, 0x710FEDC8457FF82A, 0x9DD8794F1CFA8CB, 0xB53D555752CA3ADA, 0xB53D5557, 0x52CA3ADA);
  }

  lemma Xxh64AvalancheAt6()
    ensures Xxh64Avalanche(0xFFFFFFFFB1F4A6DA) == 0x89B99554BA22467C
  {
    hide Xor, Xxh64Avalanche;
    XorIs(0xff, 0xff, 0xff, 0xff, 0xb1, 0xf4, 0xa6, 0xda, 0x00, 0x00, 0x00, 0x00, 0x7f, 0xff, 0xff, 0xff);
    XorIs(0xcd, 0x3f, 0x91, 0xe0, 0x75, 0xf9, 0x79, 0x6b, 0x00, 0x00, 0x00, 0x06, 0x69, 0xfc, 0x8f, 0x03);
    XorIs(0x89, 0xb9, 0x95, 0x54, 0x33, 0x9b, 0xd3, 0x28, 0x00, 0x00, 0x00, 0x00, 0x89, 0xb9, 0x95, 0x54);
    Xxh64AvalancheIs(0xFFFFFFFFB1F4A6DA, 0x7FFFFFFF, 0x1B1F4A6DA, 0xFFFFFFFFCE0B5925, 0xC2B2AE3D01D6A6C0,
          0xCD3F91E075F9796B, 0x669FC8F03, 0x15F9796B, 0xCD3F91E61C05F668, 0x11E8BD07C537190C, 0x89B99554339BD328,
          0x89B99554, 0x339BD328);
  }

  lemma Wide1(input: seq<byte>)
    requires input == [0x0]
    ensures Len1To3_128(input, KSecret(), 0x9E3779B1) == U128(0xB53D5557E7F76F8D, 0x89B99554BA22467C)
  {
    hide Xor, Generator, Rotl64, ReadLE64, ReadLE32, KSecret, TestBuffer, Pow2, LE, Swap32, Swap64, Combined, Rotl32,
          Avalanche, Xxh64Avalanche, Rrmxmx, Mul128Fold64, Mult64to128, Mix16B, Len1To3_128;
    Secret0();
    HalfLoads(KSecret(), 0, 0xBE4BA423, 0x396CFEB8);
    HalfLoads(KSecret(), 8, 0x1CAD21F7, 0x2C81017C);
    CombinedValue(input, 0x0, 0x0, 0x0);
    Swap32Is(0x00, 0x01, 0x00, 0x00);
    Turned1();
    XorIs(0x00, 0x00, 0x00, 0x00, 0x39, 0x6c, 0xfe, 0xb8, 0x00, 0x00, 0x00, 0x00, 0xbe, 0x4b, 0xa4, 0x23);
    XorIs(0x00, 0x00, 0x00, 0x00, 0x2c, 0x81, 0x01, 0x7c, 0x00, 0x00, 0x00, 0x00, 0x1c, 0xad, 0x21, 0xf7);
    XorIs(0x00, 0x00, 0x00, 0x00, 0x00, 0x00, 0x01, 0x00, 0x00, 0x00, 0x00, 0x01, 0x25, 0x5e, 0xd4, 0x4c);
    XorIs(0x00, 0x00, 0x00, 0x00, 0x20, 0x00, 0x00, 0x00, 0xff, 0xff, 0xff, 0xff, 0x91, 0xf4, 0xa6, 0xda);
    Wide1To3Is(input, KSecret(), 0x9E3779B1, 0x100, 0x396CFEB8, 0xBE4BA423, 0x87275A9B, 0x0, 0x1255ED44C,
          0x1255ED54C, 0x10000, 0x20000000, 0x2C81017C, 0x1CAD21F7, 0x302C208B, 0x1, 0xFFFFFFFF91F4A6DA,
          0xFFFFFFFFB1F4A6DA);
    Xxh64AvalancheAt5();
    Xxh64AvalancheAt6();
  }

  lemma Spread2()
    ensures SpreadSeed(0x9E3779B1) == 0xB179379E9E3779B1
  {
    hide Xor, Swap32, SpreadSeed;
    Swap32Is(0xb1, 0x79, 0x37, 0x9e);
    XorIs(0x00, 0x00, 0x00, 0x00, 0x9e, 0x37, 0x79, 0xb1, 0xb1, 0x79, 0x37, 0x9e, 0x00, 0x00, 0x00, 0x00);
    SpreadIs(0x9E3779B1, 0x0, 0x9E3779B1, 0xB179379E, 0xB179379E00000000, 0xB179379E9E3779B1);
  }

  lemma AvalancheAt5()
    ensures Avalanche(0x2BE47BC5A59662AC) == 0x5A865B5389ABD2B1
  {
    hide Xor, Avalanche;
    XorIs(0x2b, 0xe4, 0x7b, 0xc5, 0xa5, 0x96, 0x62, 0xac, 0x00, 0x00, 0x00, 0x00, 0x01, 0x5f, 0x23, 0xde);
    XorIs(0x5a, 0x86, 0x5b, 0x53, 0xd3, 0x2d, 0x89, 0xe2, 0x00, 0x00, 0x00, 0x00, 0x5a, 0x86, 0x5b, 0x53);
    AvalancheIs(0x2BE47BC5A59662AC, 0x15F23DE, 0x5A59662AC, 0x2BE47BC5A4C94172, 0x3D4732675E5CEDF,
          0x5A865B53D32D89E2, 0x5A865B53, 0xD32D89E2);
  }

  lemma Wide6(input: seq<byte>)
    requires |input| == 6 && ReadLE32(input, 0) == 0x9B925200 && ReadLE32(input, 2) == 0x32B79B92
    ensures Len4To8_128(input, KSecret(), 0x9E3779B1) == U128(0x269D8F70BE98856E, 0x5A865B5389ABD2B1)
  {
    hide Xor, Generator, Rotl64, ReadLE64, ReadLE32, KSecret, TestBuffer, Pow2, LE, Swap32, Swap64, Combined, Rotl32,
          Avalanche, Xxh64Avalanche, Rrmxmx, Mul128Fold64, Mult64to128, Mix16B, Len4To8_128, SpreadSeed, FromProduct;
    Secret0();
    Spread2();
    XorIs(0xdb, 0x97, 0x90, 0x83, 0xe9, 0x6d, 0xd4, 0xde, 0x1f, 0x67, 0xb3, 0xb7, 0xa4, 0xa4, 0x40, 0x72);
    XorIs(0x32, 0xb7, 0x9b, 0x92, 0x9b, 0x92, 0x52, 0x00, 0x76, 0x69, 0x5a, 0xd2, 0xec, 0x01, 0x0e, 0x5d);
    XorIs(0x00, 0xaa, 0x09, 0xf3, 0xa5, 0xc6, 0xbf, 0xc3, 0x05, 0x7c, 0x8f, 0x78, 0xb4, 0xb2, 0xcc, 0x55);
    XorIs(0x05, 0xd6, 0x86, 0x8b, 0x11, 0x74, 0x73, 0x96, 0x00, 0x00, 0x00, 0x00, 0x00, 0xba, 0xd0, 0xd1);
    XorIs(0x26, 0x9d, 0x8f, 0x72, 0xd7, 0x40, 0x72, 0x43, 0x00, 0x00, 0x00, 0x02, 0x69, 0xd8, 0xf7, 0x2d);
    Wide4To8Is(input, KSecret(), 0x9E3779B1, 0x9B925200, 0x32B79B92, 0xDB979083E96DD4DE, 0x1F67B3B7A4A44072,
          0xB179379E9E3779B1, 0xC4F023344DC994AC, 0x1, 0x76695AD2EC010E5D, 0x32B79B929B925200, 0x44DEC14077935C5D,
          0x9E3779B185EBCA9F, 0xAA09F3A5C6BFC3, 0x2A9067DE5A08E326);
    FromProductIs(0xAA09F3A5C6BFC3, 0x2A9067DE5A08E326, 0x0, 0x15413E74B8D7F86, 0x0, 0x2BE47BC5A59662AC,
          0x57C8F78B4B2CC55, 0x4, 0x5D6868B11747396, 0xBAD0D1, 0x311747396, 0x5D6868B11CEA347, 0x3A44D5FB1CEA422,
          0x269D8F72D7407243, 0x269D8F72D, 0x7407243, 0x269D8F70BE98856E);
    AvalancheAt5();
  }

  lemma AvalancheAt6()
    ensures Avalanche(0x3054F601FC377135) == 0x9BE9F9A67F3C7DFB
  {
    hide Xor, Avalanche;
    XorIs(0x30, 0x54, 0xf6, 0x01, 0xfc, 0x37, 0x71, 0x35, 0x00, 0x00, 0x00, 0x00, 0x01, 0x82, 0xa7, 0xb0);
    XorIs(0x9b, 0xe9, 0xf9, 0xa6, 0xe4, 0xd5, 0x84, 0x5d, 0x00, 0x00, 0x00, 0x00, 0x9b, 0xe9, 0xf9, 0xa6);
    AvalancheIs(0x3054F601FC377135, 0x182A7B0, 0x1FC377135, 0x3054F601FDB5D685, 0x4379D3C7D71E8D7,
          0x9BE9F9A6E4D5845D, 0x9BE9F9A6, 0xE4D5845D);
  }

  lemma AvalancheAt7()
    ensures Avalanche(0xC75DA7AD588D802F) == 0xD7E09D518A3405D3
  {
    hide Xor, Avalanche;
    XorIs(0xc7, 0x5d, 0xa7, 0xad, 0x58, 0x8d, 0x80, 0x2f, 0x00, 0x00, 0x00, 0x00, 0x06, 0x3a, 0xed, 0x3d);
    XorIs(0xd7, 0xe0, 0x9d, 0x51, 0x5d, 0xd4, 0x98, 0x82, 0x00, 0x00, 0x00, 0x00, 0xd7, 0xe0, 0x9d, 0x51);
    AvalancheIs(0xC75DA7AD588D802F, 0x63AED3D, 0xD588D802F, 0xC75DA7AD5EB76D12, 0x11655687501B50E5,
          0xD7E09D515DD49882, 0xD7E09D51, 0x5DD49882);
  }

  lemma WideOf12()
    ensures WideOf(12, 0xE89B0C652BCFC92F, 0x57AD795A15AE85BE) == U128(0x9BE9F9A67F3C7DFB, 0xD7E09D518A3405D3)
  {
    hide Xor, Generator, Rotl64, ReadLE64, ReadLE32, KSecret, TestBuffer, Pow2, LE, Swap32, Swap64, Combined, Rotl32,
          Avalanche, Xxh64Avalanche, Rrmxmx, Mul128Fold64, Mult64to128, Mix16B, WideOf;
    Swap64Is(0x93, 0xee, 0x96, 0xf5, 0xb8, 0x36, 0xc7, 0xf2);
    XorIs(0xb0, 0xc7, 0xd9, 0xae, 0x28, 0x77, 0x2d, 0xc9, 0x93, 0xee, 0x96, 0xf5, 0xb8, 0x36, 0xc7, 0xf2);
    WideOfIs(12, 0xE89B0C652BCFC92F, 0xAE07D9AE28772DC9, 0x8FC21988B084D741, 0x0, 0x2C0000000000000, 0x0,
          0xB0C7D9AE28772DC9, 0x57AD795A15AE85BE, 0x57AD795A, 0x15AE85BE, 0xB57A3D62F639194, 0x0, 0x63051D3045121752,
          0x0, 0xF2C736B8F596EE93, 0x93EE96F5B836C7F2, 0x23294F5B9041EA3B, 0x3054F601FC377135, 0x1ABDD8CB0B3CEFD2,
          0xB8A46B399D272A33, 0xAC9FCEE24D50905D, 0x0, 0xC75DA7AD588D802F);
    AvalancheAt6();
    AvalancheAt7();
  }

  lemma Wide12(input: seq<byte>)
    requires |input| == 12 && ReadLE64(input, 0) == 0x24A332B79B925200 && ReadLE64(input, 4) == 0x95AF002D24A332B7
    ensures Len9To16_128(input, KSecret(), 0x9E3779B1) == U128(0x9BE9F9A67F3C7DFB, 0xD7E09D518A3405D3)
  {
    hide Xor, Generator, Rotl64, ReadLE64, ReadLE32, KSecret, TestBuffer, Pow2, LE, Swap32, Swap64, Combined, Rotl32,
          Avalanche, Xxh64Avalanche, Rrmxmx, Mul128Fold64, Mult64to128, Mix16B, Len9To16_128, WideOf;
    Secret0();
    XorIs(0x78, 0xe5, 0xc0, 0xcc, 0x4e, 0xe6, 0x79, 0xcb, 0x21, 0x72, 0xff, 0xcc, 0x7d, 0xd0, 0x5a, 0x82);
    XorIs(0x8e, 0x24, 0x43, 0xf7, 0x74, 0x46, 0x08, 0xb8, 0x4c, 0x26, 0x3a, 0x81, 0xe6, 0x90, 0x35, 0xe0);
    XorIs(0x24, 0xa3, 0x32, 0xb7, 0x9b, 0x92, 0x52, 0x00, 0x95, 0xaf, 0x00, 0x2d, 0x24, 0xa3, 0x32, 0xb7);
    XorIs(0xb1, 0x0c, 0x32, 0x9a, 0xbf, 0x31, 0x60, 0xb7, 0x59, 0x97, 0x3e, 0xff, 0x94, 0xfe, 0xa9, 0x98);
    XorIs(0x95, 0xaf, 0x00, 0x2d, 0x24, 0xa3, 0x32, 0xb7, 0xc2, 0x02, 0x79, 0x77, 0x31, 0x0d, 0xb7, 0x09);
    Wide9To16Is(input, KSecret(), 0x9E3779B1, 0x24A332B79B925200, 0x95AF002D24A332B7, 0x78E5C0CC4EE679CB,
          0x2172FFCC7DD05A82, 0x59973F0033362349, 0x0, 0x59973EFF94FEA998, 0x8E2443F7744608B8, 0x4C263A81E69035E0,
          0xC202797692D63D58, 0x0, 0xC2027977310DB709, 0xB10C329ABF3160B7, 0xE89B0C652BCFC92F, 0x57AD795A15AE85BE);
    WideOf12();
  }

  lemma Buffer81At33()
    ensures ReadLE64(TestBuffer(81), 33) == 0x1D33B9858FFCFFC0
  {
    hide Generator, ReadLE64, TestBuffer, Pow2;
    Buffer0(96);
    assert Pow2(8) == 0x100 && Pow2(56) == 0x100000000000000 by {
      PowersOfTwo();
    }
    Across(TestBuffer(96), 32, 1, 0x100, 0x100000000000000, 0x33B9858FFCFFC0, 0x59, 0x279305B6F774AB, 0x1D);
    Shorter(81, 96, 33);
  }

  lemma Buffer81At41()
    ensures ReadLE64(TestBuffer(81), 41) == 0xB0279305B6F774AB
  {
    hide Generator, ReadLE64, TestBuffer, Pow2;
    Buffer0(96);
    assert Pow2(8) == 0x100 && Pow2(56) == 0x100000000000000 by {
      PowersOfTwo();
    }
    Across(TestBuffer(96), 40, 1, 0x100, 0x100000000000000, 0x279305B6F774AB, 0x1D, 0x769F7C67B38470, 0xB0);
    Shorter(81, 96, 41);
  }

  lemma Mix81At32()
    ensures Mix16B(TestBuffer(81), 32, KSecret(), 64, 0x9E3779B1) == 0x67019340AFE78114
  {
    hide Xor, Generator, ReadLE64, KSecret, TestBuffer, Pow2, LE, Mix16B, Avalanche, Mul128Fold64;
    var input := TestBuffer(81);
    Buffer0(81);
    Secret1();
    XorIs(0x33, 0xb9, 0x85, 0x8f, 0xfc, 0xff, 0xc0, 0x59, 0xcb, 0x00, 0xc3, 0x92, 0x59, 0x89, 0xa1, 0xed);
    XorIs(0x27, 0x93, 0x05, 0xb6, 0xf7, 0x74, 0xab, 0x1d, 0xa3, 0x2e, 0x53, 0x1a, 0xed, 0x2e, 0x56, 0xd7);
    XorIs(0xe7, 0xf6, 0xee, 0x65, 0x2f, 0x3f, 0xfc, 0x08, 0x80, 0xf7, 0x7d, 0x25, 0x80, 0xd8, 0x7d, 0x1c);
    MixIs(input, 32, 0x33B9858FFCFFC059, 0x279305B6F774AB1D, KSecret(), 64, 0xCB00C391BB52283C, 0xA32E531B8B65D088,
          0x9E3779B1,
          0x0, 0xCB00C3925989A1ED, 0x0, 0xA32E531AED2E56D7, 0xF8B9461DA57661B4, 0x84BD56AC1A5AFDCA,
                0xE7F6EE652F3FFC08, 0x80F77D2580D87D1C);
  }

  lemma Mix81At33()
    ensures Mix16B(TestBuffer(81), 33, KSecret(), 80, 0x9E3779B1) == 0x9D7293F54DFAA727
  {
    hide Xor, Generator, ReadLE64, KSecret, TestBuffer, Pow2, LE, Mix16B, Avalanche, Mul128Fold64;
    var input := TestBuffer(81);
    Buffer81At33();
    Buffer81At41();
    Secret1();
    XorIs(0x1d, 0x33, 0xb9, 0x85, 0x8f, 0xfc, 0xff, 0xc0, 0x4e, 0xf9, 0x0d, 0xa3, 0x35, 0x7f, 0xde, 0x22);
    XorIs(0xb0, 0x27, 0x93, 0x05, 0xb6, 0xf7, 0x74, 0xab, 0xd8, 0xac, 0xde, 0xa8, 0xa8, 0xb7, 0x9f, 0x87);
    XorIs(0xbf, 0x45, 0x62, 0x59, 0x63, 0x24, 0x48, 0xd8, 0x22, 0x37, 0xf1, 0xac, 0x2e, 0xde, 0xef, 0xff);
    MixIs(input, 33, 0x1D33B9858FFCFFC0, 0xB0279305B6F774AB, KSecret(), 80, 0x4EF90DA297486471, 0xD8ACDEA946EF1938,
          0x9E3779B1,
          0x0, 0x4EF90DA3357FDE22, 0x0, 0xD8ACDEA8A8B79F87, 0x53CAB426BA8321E2, 0x688B4DAD1E40EB2C,
                0xBF456259632448D8, 0x2237F1AC2EDEEFFF);
  }

  lemma Wide81At2()
    ensures Mix32B(U128(0xF8D812B5F9B14B7, 0x0), TestBuffer(81), 32, 33, KSecret(), 64,
          0x9E3779B1) == U128(0xBBD458E74976E1A0, 0xC63E18B3B98ECC51)
  {
    hide Xor, Generator, ReadLE64, KSecret, TestBuffer, Pow2, LE, Mix16B, Avalanche, Mul128Fold64, Mix32B;
    var input := TestBuffer(81);
    Buffer0(81);
    Buffer81At33();
    Buffer81At41();
    Mix81At32();
    Mix81At33();
    XorIs(0x76, 0x8f, 0x14, 0x6c, 0x0f, 0x82, 0x95, 0xcb, 0xcd, 0x5b, 0x4c, 0x8b, 0x46, 0xf4, 0x74, 0x6b);
    XorIs(0x9d, 0x72, 0x93, 0xf5, 0x4d, 0xfa, 0xa7, 0x27, 0x5b, 0x4c, 0x8b, 0x46, 0xf4, 0x74, 0x6b, 0x76);
    Mix32Is(U128(0xF8D812B5F9B14B7, 0x0), input, 32, 0x33B9858FFCFFC059, 0x279305B6F774AB1D, 33, 0x1D33B9858FFCFFC0,
          0xB0279305B6F774AB, KSecret(), 64, 0x9E3779B1,
            0x67019340AFE78114, 0x9D7293F54DFAA727, 0x0, 0x768F146C0F8295CB, 0x0, 0xCD5B4C8B46F4746B, 0x0,
                  0x9D7293F54DFAA727, 0x0, 0x5B4C8B46F4746B76, 0xBBD458E74976E1A0, 0xC63E18B3B98ECC51);
  }

  lemma Buffer81At49()
    ensures ReadLE64(TestBuffer(81), 49) == 0x48769F7C67B38470
  {
    hide Generator, ReadLE64, TestBuffer, Pow2;
    Buffer0(96);
    Buffer1(96);
    assert Pow2(8) == 0x100 && Pow2(56) == 0x100000000000000 by {
      PowersOfTwo();
    }
    Across(TestBuffer(96), 48, 1, 0x100, 0x100000000000000, 0x769F7C67B38470, 0xB0, 0xE817987BED7200, 0x48);
    Shorter(81, 96, 49);
  }

  lemma Buffer81At57()
    ensures ReadLE64(TestBuffer(81), 57) == 0xDDE817987BED7200
  {
    hide Generator, ReadLE64, TestBuffer, Pow2;
    Buffer1(96);
    assert Pow2(8) == 0x100 && Pow2(56) == 0x100000000000000 by {
      PowersOfTwo();
    }
    Across(TestBuffer(96), 56, 1, 0x100, 0x100000000000000, 0xE817987BED7200, 0x48, 0x65D0CB0C0C5E48, 0xDD);
    Shorter(81, 96, 57);
  }

  lemma Mix81At16()
    ensures Mix16B(TestBuffer(81), 16, KSecret(), 32, 0x9E3779B1) == 0x9623385A994E5782
  {
    hide Xor, Generator, ReadLE64, KSecret, TestBuffer, Pow2, LE, Mix16B, Avalanche, Mul128Fold64;
    var input := TestBuffer(81);
    Buffer0(81);
    Secret0();
    XorIs(0x2a, 0xcd, 0xd6, 0xaa, 0x93, 0xef, 0xdf, 0xe3, 0x78, 0xe5, 0xc0, 0xcc, 0xed, 0x1d, 0xf3, 0x7c);
    XorIs(0xd5, 0x6f, 0x5a, 0x54, 0x3f, 0x5c, 0x8b, 0x53, 0x21, 0x72, 0xff, 0xcb, 0xdf, 0x98, 0xe0, 0xd1);
    XorIs(0xd8, 0x74, 0x81, 0x51, 0xf9, 0x5d, 0x1d, 0xbe, 0x4e, 0x57, 0xb9, 0x0b, 0x60, 0x13, 0x4a, 0x3c);
    MixIs(input, 16, 0x2ACDD6AA93EFDFE3, 0xD56F5A543F5C8B53, KSecret(), 32, 0x78E5C0CC4EE679CB, 0x2172FFCC7DD05A82,
          0x9E3779B1,
          0x0, 0x78E5C0CCED1DF37C, 0x0, 0x2172FFCBDF98E0D1, 0x522816667EF22C9F, 0xF41DA59FE0C46B82,
                0xD8748151F95D1DBE, 0x4E57B90B60134A3C);
  }

  lemma Mix81At49()
    ensures Mix16B(TestBuffer(81), 49, KSecret(), 48, 0x9E3779B1) == 0x5DE3CEEB245295B6
  {
    hide Xor, Generator, ReadLE64, KSecret, TestBuffer, Pow2, LE, Mix16B, Avalanche, Mul128Fold64;
    var input := TestBuffer(81);
    Buffer81At49();
    Buffer81At57();
    Secret0();
    XorIs(0x48, 0x76, 0x9f, 0x7c, 0x67, 0xb3, 0x84, 0x70, 0x8e, 0x24, 0x43, 0xf8, 0x12, 0x7d, 0x82, 0x69);
    XorIs(0xdd, 0xe8, 0x17, 0x98, 0x7b, 0xed, 0x72, 0x00, 0x4c, 0x26, 0x3a, 0x81, 0x48, 0x58, 0xbc, 0x2f);
    XorIs(0x2d, 0x17, 0x66, 0x6f, 0xb4, 0x68, 0x3c, 0x97, 0x70, 0xf4, 0xa8, 0x84, 0x90, 0x3a, 0xa9, 0x21);
    MixIs(input, 49, 0x48769F7C67B38470, 0xDDE817987BED7200, KSecret(), 48, 0x8E2443F7744608B8, 0x4C263A81E69035E0,
          0x9E3779B1,
          0x0, 0x8E2443F8127D8269, 0x0, 0x4C263A814858BC2F, 0xC652DC8475CE0619, 0x91CE2D1933B5CE2F,
                0x2D17666FB4683C97, 0x70F4A884903AA921);
  }

  lemma Wide81At1()
    ensures Mix32B(U128(0xBBD458E74976E1A0, 0xC63E18B3B98ECC51), TestBuffer(81), 16, 49, KSecret(), 32,
          0x9E3779B1) == U128(0x77A926550165CF52, 0x241CD7600EAD0931)
  {
    hide Xor, Generator, ReadLE64, KSecret, TestBuffer, Pow2, LE, Mix16B, Avalanche, Mul128Fold64, Mix32B;
    var input := TestBuffer(81);
    Buffer0(81);
    Buffer81At49();
    Buffer81At57();
    Mix81At16();
    Mix81At49();
    XorIs(0x51, 0xf7, 0x91, 0x41, 0xe2, 0xc5, 0x39, 0x22, 0x26, 0x5e, 0xb7, 0x14, 0xe3, 0xa0, 0xf6, 0x70);
    XorIs(0x24, 0x21, 0xe7, 0x9e, 0xdd, 0xe1, 0x62, 0x07, 0x00, 0x3d, 0x30, 0xfe, 0xd3, 0x4c, 0x6b, 0x36);
    Mix32Is(U128(0xBBD458E74976E1A0, 0xC63E18B3B98ECC51), input, 16, 0x2ACDD6AA93EFDFE3, 0xD56F5A543F5C8B53, 49,
          0x48769F7C67B38470, 0xDDE817987BED7200, KSecret(), 32, 0x9E3779B1,
            0x9623385A994E5782, 0x5DE3CEEB245295B6, 0x1, 0x51F79141E2C53922, 0x1, 0x265EB714E3A0F670, 0x1,
                  0x2421E79EDDE16207, 0x1, 0x3D30FED34C6B36, 0x77A926550165CF52, 0x241CD7600EAD0931);
  }

  lemma Buffer81At65()
    ensures ReadLE64(TestBuffer(81), 65) == 0x3F65D0CB0C0C5E48
  {
    hide Generator, ReadLE64, TestBuffer, Pow2;
    Buffer1(96);
    assert Pow2(8) == 0x100 && Pow2(56) == 0x100000000000000 by {
      PowersOfTwo();
    }
    Across(TestBuffer(96), 64, 1, 0x100, 0x100000000000000, 0x65D0CB0C0C5E48, 0xDD, 0xE86CB0118FB2AD, 0x3F);
    Shorter(81, 96, 65);
  }

  lemma Buffer81At73()
    ensures ReadLE64(TestBuffer(81), 73) == 0x8DE86CB0118FB2AD
  {
    hide Generator, ReadLE64, TestBuffer, Pow2;
    Buffer1(96);
    assert Pow2(8) == 0x100 && Pow2(56) == 0x100000000000000 by {
      PowersOfTwo();
    }
    Across(TestBuffer(96), 72, 1, 0x100, 0x100000000000000, 0xE86CB0118FB2AD, 0x3F, 0x5659610886F1B0, 0x8D);
    Shorter(81, 96, 73);
  }

  lemma Mix81At0()
    ensures Mix16B(TestBuffer(81), 0, KSecret(), 0, 0x9E3779B1) == 0x4124CA9BA5D850BE
  {
    hide Xor, Generator, ReadLE64, KSecret, TestBuffer, Pow2, LE, Mix16B, Avalanche, Mul128Fold64;
    var input := TestBuffer(81);
    Buffer0(81);
    Secret0();
    XorIs(0x24, 0xa3, 0x32, 0xb7, 0x9b, 0x92, 0x52, 0x00, 0xbe, 0x4b, 0xa4, 0x23, 0xd7, 0xa4, 0x78, 0x69);
    XorIs(0x93, 0xb8, 0xec, 0x0e, 0x95, 0xaf, 0x00, 0x2d, 0x1c, 0xad, 0x21, 0xf6, 0x8e, 0x49, 0x87, 0xcb);
    XorIs(0x17, 0xb1, 0xd7, 0x48, 0x36, 0x5d, 0x79, 0x56, 0x56, 0x95, 0x1d, 0xd3, 0x93, 0x85, 0x29, 0xe8);
    MixIs(input, 0, 0x24A332B79B925200, 0x93B8EC0E95AF002D, KSecret(), 0, 0xBE4BA423396CFEB8, 0x1CAD21F72C81017C,
          0x9E3779B1,
          0x0, 0xBE4BA423D7A47869, 0x0, 0x1CAD21F68E4987CB, 0x9AE896944C362A69, 0x8F15CDF81BE687E6,
                0x17B1D748365D7956, 0x56951DD3938529E8);
  }

  lemma Mix81At65()
    ensures Mix16B(TestBuffer(81), 65, KSecret(), 16, 0x9E3779B1) == 0xF8C0D1C0E075957F
  {
    hide Xor, Generator, ReadLE64, KSecret, TestBuffer, Pow2, LE, Mix16B, Avalanche, Mul128Fold64;
    var input := TestBuffer(81);
    Buffer81At65();
    Buffer81At73();
    Secret0();
    XorIs(0x3f, 0x65, 0xd0, 0xcb, 0x0c, 0x0c, 0x5e, 0x48, 0xdb, 0x97, 0x90, 0x84, 0x87, 0xa5, 0x4e, 0x8f);
    XorIs(0x8d, 0xe8, 0x6c, 0xb0, 0x11, 0x8f, 0xb2, 0xad, 0x1f, 0x67, 0xb3, 0xb7, 0x06, 0x6c, 0xc6, 0xc1);
    XorIs(0x7b, 0xd2, 0x02, 0xb4, 0x48, 0x62, 0x3f, 0xf4, 0x83, 0x12, 0xd3, 0x74, 0xa8, 0x17, 0xaa, 0x8b);
    MixIs(input, 65, 0x3F65D0CB0C0C5E48, 0x8DE86CB0118FB2AD, KSecret(), 16, 0xDB979083E96DD4DE, 0x1F67B3B7A4A44072,
          0x9E3779B1,
          0x0, 0xDB97908487A54E8F, 0x0, 0x1F67B3B7066CC6C1, 0xE4F2404F8BA910C7, 0x928FDF0717E3746C,
                0x7BD202B448623FF4, 0x8312D374A817AA8B);
  }

  lemma Wide81At0()
    ensures Mix32B(U128(0x77A926550165CF52, 0x241CD7600EAD0931), TestBuffer(81), 0, 65, KSecret(), 0,
          0x9E3779B1) == U128(0x7583CD8BBAA230E5, 0xA481B7E6DE63CC9D)
  {
    hide Xor, Generator, ReadLE64, KSecret, TestBuffer, Pow2, LE, Mix16B, Avalanche, Mul128Fold64, Mix32B;
    var input := TestBuffer(81);
    Buffer0(81);
    Buffer81At65();
    Buffer81At73();
    Mix81At0();
    Mix81At65();
    XorIs(0xb8, 0xcd, 0xf0, 0xf0, 0xa7, 0x3e, 0x20, 0x10, 0xcd, 0x4e, 0x3d, 0x7b, 0x1d, 0x9c, 0x10, 0xf5);
    XorIs(0x1c, 0xdd, 0xa9, 0x20, 0xef, 0x22, 0x9e, 0xb0, 0xb8, 0x5c, 0x1e, 0xc6, 0x31, 0x41, 0x52, 0x2d);
    Mix32Is(U128(0x77A926550165CF52, 0x241CD7600EAD0931), input, 0, 0x24A332B79B925200, 0x93B8EC0E95AF002D, 65,
          0x3F65D0CB0C0C5E48, 0x8DE86CB0118FB2AD, KSecret(), 0, 0x9E3779B1,
            0x4124CA9BA5D850BE, 0xF8C0D1C0E075957F, 0x0, 0xB8CDF0F0A73E2010, 0x0, 0xCD4E3D7B1D9C10F5, 0x1,
                  0x1CDDA920EF229EB0, 0x0, 0xB85C1EC63141522D, 0x7583CD8BBAA230E5, 0xA481B7E6DE63CC9D);
  }

  lemma AvalancheAt8()
    ensures Avalanche(0x1A0585729905FD82) == 0x703FBB3D7A5F755C
  {
    hide Xor, Avalanche;
    XorIs(0x1a, 0x05, 0x85, 0x72, 0x99, 0x05, 0xfd, 0x82, 0x00, 0x00, 0x00, 0x00, 0x00, 0xd0, 0x2c, 0x2b);
    XorIs(0x70, 0x3f, 0xbb, 0x3d, 0x0a, 0x60, 0xce, 0x61, 0x00, 0x00, 0x00, 0x00, 0x70, 0x3f, 0xbb, 0x3d);
    AvalancheIs(0x1A0585729905FD82, 0xD02C2B, 0x129905FD82, 0x1A05857299D5D1A9, 0x24541D9B39ECB99,
          0x703FBB3D0A60CE61, 0x703FBB3D, 0xA60CE61);
  }

  lemma AvalancheAt9()
    ensures Avalanche(0x46785BB4731EBCDA) == 0xD8DB1385238AF04A
  {
    hide Xor, Avalanche;
    XorIs(0x46, 0x78, 0x5b, 0xb4, 0x73, 0x1e, 0xbc, 0xda, 0x00, 0x00, 0x00, 0x00, 0x02, 0x33, 0xc2, 0xdd);
    XorIs(0xd8, 0xdb, 0x13, 0x85, 0xfb, 0x51, 0xe3, 0xcf, 0x00, 0x00, 0x00, 0x00, 0xd8, 0xdb, 0x13, 0x85);
    AvalancheIs(0x46785BB4731EBCDA, 0x233C2DD, 0x14731EBCDA, 0x46785BB4712D7E07, 0x62620D2D2F706E2,
          0xD8DB1385FB51E3CF, 0xD8DB1385, 0xFB51E3CF);
  }

  lemma Wide81()
    ensures Len17To128_128(TestBuffer(81), KSecret(), 0x9E3779B1) == U128(0x703FBB3D7A5F755C, 0x2724EC7ADC750FB6)
  {
    hide Xor, KSecret, TestBuffer, Generator, Mix32B, Avalanche, Finish128, Mul64;
    Multiplied(81, PRIME64_1, 0x32, 0xF8D812B5F9B14B7);
    Wide81At2();
    Wide81At1();
    Wide81At0();
    AvalancheAt8();
    AvalancheAt9();
    FinishIs(U128(0x7583CD8BBAA230E5, 0xA481B7E6DE63CC9D), 81, 0x9E3779B1, 0x48A0D00A2FF71297, 0xCA5F479241537AC3,
          0x560EE9BA12FDC655, 0x212E4ADE14D4D6B7, 0x1, 0xFFFFFFFF61C886A0, 0xC2B2AE3CAF807312, 0x5AEAC9441CF66B60,
          0x1, 0x46785BB4731EBCDA, 0x1, 0x1A0585729905FD82, 0x703FBB3D7A5F755C, 0xD8DB1385238AF04A, 0x2724EC7ADC750FB6);
  }

  lemma Mix222At0()
    ensures Mix16B(TestBuffer(222), 0, KSecret(), 0, 0x9E3779B1) == 0x4124CA9BA5D850BE
  {
    hide Xor, Generator, ReadLE64, KSecret, TestBuffer, Pow2, LE, Mix16B, Avalanche, Mul128Fold64;
    var input := TestBuffer(222);
    Buffer0(222);
    Secret0();
    XorIs(0x24, 0xa3, 0x32, 0xb7, 0x9b, 0x92, 0x52, 0x00, 0xbe, 0x4b, 0xa4, 0x23, 0xd7, 0xa4, 0x78, 0x69);
    XorIs(0x93, 0xb8, 0xec, 0x0e, 0x95, 0xaf, 0x00, 0x2d, 0x1c, 0xad, 0x21, 0xf6, 0x8e, 0x49, 0x87, 0xcb);
    XorIs(0x17, 0xb1, 0xd7, 0x48, 0x36, 0x5d, 0x79, 0x56, 0x56, 0x95, 0x1d, 0xd3, 0x93, 0x85, 0x29, 0xe8);
    MixIs(input, 0, 0x24A332B79B925200, 0x93B8EC0E95AF002D, KSecret(), 0, 0xBE4BA423396CFEB8, 0x1CAD21F72C81017C,
          0x9E3779B1,
          0x0, 0xBE4BA423D7A47869, 0x0, 0x1CAD21F68E4987CB, 0x9AE896944C362A69, 0x8F15CDF81BE687E6,
                0x17B1D748365D7956, 0x56951DD3938529E8);
  }

  lemma Mix222At16()
    ensures Mix16B(TestBuffer(222), 16, KSecret(), 16, 0x9E3779B1) == 0x69E32B31A0CE238E
  {
    hide Xor, Generator, ReadLE64, KSecret, TestBuffer, Pow2, LE, Mix16B, Avalanche, Mul128Fold64;
    var input := TestBuffer(222);
    Buffer0(222);
    Secret0();
    XorIs(0x2a, 0xcd, 0xd6, 0xaa, 0x93, 0xef, 0xdf, 0xe3, 0xdb, 0x97, 0x90, 0x84, 0x87, 0xa5, 0x4e, 0x8f);
    XorIs(0xd5, 0x6f, 0x5a, 0x54, 0x3f, 0x5c, 0x8b, 0x53, 0x1f, 0x67, 0xb3, 0xb7, 0x06, 0x6c, 0xc6, 0xc1);
    XorIs(0xd7, 0x9a, 0x89, 0x82, 0x50, 0x84, 0x6b, 0x98, 0xbe, 0x79, 0xa2, 0xb3, 0xf0, 0x4a, 0x48, 0x16);
    MixIs(input, 16, 0x2ACDD6AA93EFDFE3, 0xD56F5A543F5C8B53, KSecret(), 16, 0xDB979083E96DD4DE, 0x1F67B3B7A4A44072,
          0x9E3779B1,
          0x0, 0xDB97908487A54E8F, 0x0, 0x1F67B3B7066CC6C1, 0xF15A462E144A916C, 0xCA08E9E339304D92,
                0xD79A898250846B98, 0xBE79A2B3F04A4816);
  }

  lemma Wide222Round0()
    ensures Mix32B(U128(0x341B87F22279A112, 0x0), TestBuffer(222), 0, 16, KSecret(), 0,
          0x9E3779B1) == U128(0x757D62731B1D9AE6, 0xD1BF35F7918F71A3)
  {
    hide Xor, Generator, ReadLE64, KSecret, TestBuffer, Pow2, LE, Mix16B, Avalanche, Mul128Fold64, Mix32B;
    var input := TestBuffer(222);
    Buffer0(222);
    Mix222At0();
    Mix222At16();
    XorIs(0x75, 0x40, 0x52, 0x8d, 0xc8, 0x51, 0xf1, 0xd0, 0x00, 0x3d, 0x30, 0xfe, 0xd3, 0x4c, 0x6b, 0x36);
    XorIs(0x69, 0xe3, 0x2b, 0x31, 0xa0, 0xce, 0x23, 0x8e, 0xb8, 0x5c, 0x1e, 0xc6, 0x31, 0x41, 0x52, 0x2d);
    Mix32Is(U128(0x341B87F22279A112, 0x0), input, 0, 0x24A332B79B925200, 0x93B8EC0E95AF002D, 16, 0x2ACDD6AA93EFDFE3,
          0xD56F5A543F5C8B53, KSecret(), 0, 0x9E3779B1,
            0x4124CA9BA5D850BE, 0x69E32B31A0CE238E, 0x0, 0x7540528DC851F1D0, 0x1, 0x3D30FED34C6B36, 0x0,
                  0x69E32B31A0CE238E, 0x0, 0xB85C1EC63141522D, 0x757D62731B1D9AE6, 0xD1BF35F7918F71A3);
  }

  lemma Mix222At32()
    ensures Mix16B(TestBuffer(222), 32, KSecret(), 32, 0x9E3779B1) == 0xDF5D68301543C816
  {
    hide Xor, Generator, ReadLE64, KSecret, TestBuffer, Pow2, LE, Mix16B, Avalanche, Mul128Fold64;
    var input := TestBuffer(222);
    Buffer0(222);
    Secret0();
    XorIs(0x33, 0xb9, 0x85, 0x8f, 0xfc, 0xff, 0xc0, 0x59, 0x78, 0xe5, 0xc0, 0xcc, 0xed, 0x1d, 0xf3, 0x7c);
    XorIs(0x27, 0x93, 0x05, 0xb6, 0xf7, 0x74, 0xab, 0x1d, 0x21, 0x72, 0xff, 0xcb, 0xdf, 0x98, 0xe0, 0xd1);
    XorIs(0xdd, 0x5b, 0xc7, 0x45, 0x73, 0x58, 0x98, 0x7c, 0x02, 0x06, 0xaf, 0x75, 0x66, 0x1b, 0x50, 0x6a);
    MixIs(input, 32, 0x33B9858FFCFFC059, 0x279305B6F774AB1D, KSecret(), 32, 0x78E5C0CC4EE679CB, 0x2172FFCC7DD05A82,
          0x9E3779B1,
          0x0, 0x78E5C0CCED1DF37C, 0x0, 0x2172FFCBDF98E0D1, 0x4B5C454311E23325, 0x6E1FA7D28EC4BCC,
                0xDD5BC7457358987C, 0x206AF75661B506A);
  }

  lemma Mix222At48()
    ensures Mix16B(TestBuffer(222), 48, KSecret(), 48, 0x9E3779B1) == 0x5D7BD46C18696DD9
  {
    hide Xor, Generator, ReadLE64, KSecret, TestBuffer, Pow2, LE, Mix16B, Avalanche, Mul128Fold64;
    var input := TestBuffer(222);
    Buffer0(222);
    Buffer1(222);
    Secret0();
    XorIs(0x76, 0x9f, 0x7c, 0x67, 0xb3, 0x84, 0x70, 0xb0, 0x8e, 0x24, 0x43, 0xf8, 0x12, 0x7d, 0x82, 0x69);
    XorIs(0xe8, 0x17, 0x98, 0x7b, 0xed, 0x72, 0x00, 0x48, 0x4c, 0x26, 0x3a, 0x81, 0x48, 0x58, 0xbc, 0x2f);
    XorIs(0xc2, 0xf3, 0xfa, 0x9f, 0x6e, 0x82, 0x11, 0x4f, 0x9f, 0x88, 0x2e, 0xf3, 0x76, 0xeb, 0x7c, 0x96);
    MixIs(input, 48, 0x769F7C67B38470B0, 0xE817987BED720048, KSecret(), 48, 0x8E2443F7744608B8, 0x4C263A81E69035E0,
          0x9E3779B1,
          0x0, 0x8E2443F8127D8269, 0x0, 0x4C263A814858BC2F, 0xF8BB3F9FA1F9F2D9, 0xA431A2FAA52ABC67,
                0xC2F3FA9F6E82114F, 0x9F882EF376EB7C96);
  }

  lemma Wide222Round1()
    ensures Mix32B(U128(0x757D62731B1D9AE6, 0xD1BF35F7918F71A3), TestBuffer(222), 32, 48, KSecret(), 32,
          0x9E3779B1) == U128(0xA6DDE4090971204, 0x747781255D8CB40A)
  {
    hide Xor, Generator, ReadLE64, KSecret, TestBuffer, Pow2, LE, Mix16B, Avalanche, Mul128Fold64, Mix32B;
    var input := TestBuffer(222);
    Buffer0(222);
    Buffer1(222);
    Mix222At32();
    Mix222At48();
    XorIs(0x54, 0xda, 0xca, 0xa3, 0x30, 0x61, 0x62, 0xfc, 0x5e, 0xb7, 0x14, 0xe3, 0xa0, 0xf6, 0x70, 0xf8);
    XorIs(0x2f, 0x3b, 0x0a, 0x63, 0xa9, 0xf8, 0xdf, 0x7c, 0x5b, 0x4c, 0x8b, 0x46, 0xf4, 0x74, 0x6b, 0x76);
    Mix32Is(U128(0x757D62731B1D9AE6, 0xD1BF35F7918F71A3), input, 32, 0x33B9858FFCFFC059, 0x279305B6F774AB1D, 48,
          0x769F7C67B38470B0, 0xE817987BED720048, KSecret(), 32, 0x9E3779B1,
            0xDF5D68301543C816, 0x5D7BD46C18696DD9, 0x1, 0x54DACAA3306162FC, 0x1, 0x5EB714E3A0F670F8, 0x1,
                  0x2F3B0A63A9F8DF7C, 0x0, 0x5B4C8B46F4746B76, 0xA6DDE4090971204, 0x747781255D8CB40A);
  }

  lemma Mix222At64()
    ensures Mix16B(TestBuffer(222), 64, KSecret(), 64, 0x9E3779B1) == 0xA7A406BC2F6E9E7D
  {
    hide Xor, Generator, ReadLE64, KSecret, TestBuffer, Pow2, LE, Mix16B, Avalanche, Mul128Fold64;
    var input := TestBuffer(222);
    Buffer1(222);
    Secret1();
    XorIs(0x65, 0xd0, 0xcb, 0x0c, 0x0c, 0x5e, 0x48, 0xdd, 0xcb, 0x00, 0xc3, 0x92, 0x59, 0x89, 0xa1, 0xed);
    XorIs(0xe8, 0x6c, 0xb0, 0x11, 0x8f, 0xb2, 0xad, 0x3f, 0xa3, 0x2e, 0x53, 0x1a, 0xed, 0x2e, 0x56, 0xd7);
    XorIs(0x94, 0xc0, 0x99, 0x8e, 0xf6, 0x8d, 0x63, 0x80, 0x33, 0x64, 0x9f, 0x32, 0xd9, 0xe3, 0xfd, 0xfd);
    MixIs(input, 64, 0x65D0CB0C0C5E48DD, 0xE86CB0118FB2AD3F, KSecret(), 64, 0xCB00C391BB52283C, 0xA32E531B8B65D088,
          0x9E3779B1,
          0x0, 0xCB00C3925989A1ED, 0x0, 0xA32E531AED2E56D7, 0xAED0089E55D7E930, 0x4B42E30B629CFBE8,
                0x94C0998EF68D6380, 0x33649F32D9E3FDFD);
  }

  lemma Mix222At80()
    ensures Mix16B(TestBuffer(222), 80, KSecret(), 80, 0x9E3779B1) == 0xB5D0516FFBC4629D
  {
    hide Xor, Generator, ReadLE64, KSecret, TestBuffer, Pow2, LE, Mix16B, Avalanche, Mul128Fold64;
    var input := TestBuffer(222);
    Buffer1(222);
    Secret1();
    XorIs(0x56, 0x59, 0x61, 0x08, 0x86, 0xf1, 0xb0, 0x8d, 0x4e, 0xf9, 0x0d, 0xa3, 0x35, 0x7f, 0xde, 0x22);
    XorIs(0xab, 0xbd, 0x63, 0x13, 0x78, 0x4e, 0x8e, 0x6c, 0xd8, 0xac, 0xde, 0xa8, 0xa8, 0xb7, 0x9f, 0x87);
    XorIs(0xbe, 0xc1, 0x94, 0xd7, 0x21, 0x50, 0x39, 0xa5, 0x0b, 0x11, 0xc5, 0xb8, 0xda, 0x94, 0x5b, 0x38);
    MixIs(input, 80, 0x5659610886F1B08D, 0xABBD6313784E8E6C, KSecret(), 80, 0x4EF90DA297486471, 0xD8ACDEA946EF1938,
          0x9E3779B1,
          0x0, 0x4EF90DA3357FDE22, 0x0, 0xD8ACDEA8A8B79F87, 0x18A06CABB38E6EAF, 0x7311BDBBD0F911EB,
                0xBEC194D7215039A5, 0xB11C5B8DA945B38);
  }

  lemma Wide222Round2()
    ensures Mix32B(U128(0xA6DDE4090971204, 0x747781255D8CB40A), TestBuffer(222), 64, 80, KSecret(), 64,
          0x9E3779B1) == U128(0xB00720E73F458E78, 0x647AA988C541E0BB)
  {
    hide Xor, Generator, ReadLE64, KSecret, TestBuffer, Pow2, LE, Mix16B, Avalanche, Mul128Fold64, Mix32B;
    var input := TestBuffer(222);
    Buffer1(222);
    Mix222At64();
    Mix222At80();
    XorIs(0xb2, 0x11, 0xe4, 0xfc, 0xc0, 0x05, 0xb0, 0x81, 0x02, 0x16, 0xc4, 0x1b, 0xff, 0x40, 0x3e, 0xf9);
    XorIs(0x2a, 0x47, 0xd2, 0x95, 0x59, 0x51, 0x16, 0xa7, 0x4e, 0x3d, 0x7b, 0x1d, 0x9c, 0x10, 0xf6, 0x1c);
    Mix32Is(U128(0xA6DDE4090971204, 0x747781255D8CB40A), input, 64, 0x65D0CB0C0C5E48DD, 0xE86CB0118FB2AD3F, 80,
          0x5659610886F1B08D, 0xABBD6313784E8E6C, KSecret(), 64, 0x9E3779B1,
            0xA7A406BC2F6E9E7D, 0xB5D0516FFBC4629D, 0x0, 0xB211E4FCC005B081, 0x1, 0x216C41BFF403EF9, 0x1,
                  0x2A47D295595116A7, 0x1, 0x4E3D7B1D9C10F61C, 0xB00720E73F458E78, 0x647AA988C541E0BB);
  }

  lemma Mix222At96()
    ensures Mix16B(TestBuffer(222), 96, KSecret(), 96, 0x9E3779B1) == 0x4F5A3FF014D7CD93
  {
    hide Xor, Generator, ReadLE64, KSecret, TestBuffer, Pow2, LE, Mix16B, Avalanche, Mul128Fold64;
    var input := TestBuffer(222);
    Buffer1(222);
    Secret1();
    XorIs(0xd9, 0x2f, 0x71, 0xea, 0x09, 0x73, 0x32, 0x9d, 0x3f, 0x34, 0x9c, 0xe3, 0xdd, 0xae, 0x74, 0x59);
    XorIs(0xe9, 0xd0, 0x8a, 0xca, 0xf0, 0x55, 0x9d, 0x7a, 0x1d, 0x4f, 0x0b, 0xc7, 0x29, 0x84, 0x63, 0x48);
    XorIs(0x94, 0xbb, 0xc2, 0xb6, 0x09, 0x72, 0x4a, 0x48, 0xdb, 0xe1, 0xfd, 0x46, 0x1d, 0xa5, 0x87, 0xdb);
    MixIs(input, 96, 0xD92F71EA0973329D, 0xE9D08ACAF0559D7A, KSecret(), 96, 0x3F349CE33F76FAA8, 0x1D4F0BC7C7BBDCF9,
          0x9E3779B1,
          0x0, 0x3F349CE3DDAE7459, 0x0, 0x1D4F0BC729846348, 0xE61BED09D4DD46C4, 0xF49F810DD9D1FE32,
                0x94BBC2B609724A48, 0xDBE1FD461DA587DB);
  }

  lemma Mix222At112()
    ensures Mix16B(TestBuffer(222), 112, KSecret(), 112, 0x9E3779B1) == 0xB9937CDBA30362A6
  {
    hide Xor, Generator, ReadLE64, KSecret, TestBuffer, Pow2, LE, Mix16B, Avalanche, Mul128Fold64;
    var input := TestBuffer(222);
    Buffer2(222);
    Secret1();
    XorIs(0x51, 0xca, 0x0f, 0x6b, 0xb3, 0x36, 0x1a, 0x5e, 0x31, 0x59, 0xb4, 0xcd, 0xea, 0x17, 0xcb, 0x3b);
    XorIs(0x96, 0x00, 0xed, 0x62, 0xc4, 0xa2, 0x8b, 0xef, 0x64, 0x73, 0x78, 0xd9, 0x2b, 0x47, 0x26, 0x17);
    XorIs(0xe2, 0xe4, 0x3e, 0xe6, 0xcd, 0x9d, 0x1a, 0xd8, 0x5b, 0x77, 0x42, 0x3d, 0x6e, 0x9e, 0x78, 0x7e);
    MixIs(input, 112, 0x51CA0F6BB3361A5E, 0x9600ED62C4A28BEF, KSecret(), 112, 0x3159B4CD4BE0518A, 0x647378D9C97E9FC8,
          0x9E3779B1,
          0x0, 0x3159B4CDEA17CB3B, 0x0, 0x647378D92B472617, 0x6093BBA65921D165, 0xF27395BBEFE5ADF8,
                0xE2E43EE6CD9D1AD8, 0x5B77423D6E9E787E);
  }

  lemma Wide222Round3()
    ensures Mix32B(U128(0xB00720E73F458E78, 0x647AA988C541E0BB), TestBuffer(222), 96, 112, KSecret(), 96,
          0x9E3779B1) == U128(0x18AB9C1923C5FA46, 0xDCF1DAD0918D9376)
  {
    hide Xor, Generator, ReadLE64, KSecret, TestBuffer, Pow2, LE, Mix16B, Avalanche, Mul128Fold64, Mix32B;
    var input := TestBuffer(222);
    Buffer1(222);
    Buffer2(222);
    Mix222At96();
    Mix222At112();
    XorIs(0xff, 0x61, 0x60, 0xd7, 0x54, 0x1d, 0x5c, 0x0b, 0xe7, 0xca, 0xfc, 0xce, 0x77, 0xd8, 0xa6, 0x4d);
    XorIs(0x1e, 0x0e, 0x26, 0x64, 0x68, 0x45, 0x43, 0x61, 0xc2, 0xff, 0xfc, 0xb4, 0xf9, 0xc8, 0xd0, 0x17);
    Mix32Is(U128(0xB00720E73F458E78, 0x647AA988C541E0BB), input, 96, 0xD92F71EA0973329D, 0xE9D08ACAF0559D7A, 112,
          0x51CA0F6BB3361A5E, 0x9600ED62C4A28BEF, KSecret(), 96, 0x9E3779B1,
            0x4F5A3FF014D7CD93, 0xB9937CDBA30362A6, 0x0, 0xFF6160D7541D5C0B, 0x0, 0xE7CAFCCE77D8A64D, 0x1,
                  0x1E0E266468454361, 0x1, 0xC2FFFCB4F9C8D017, 0x18AB9C1923C5FA46, 0xDCF1DAD0918D9376);
  }

  lemma Wide222To4()
    ensures Mix32Rounds(U128(0x341B87F22279A112, 0x0), TestBuffer(222), KSecret(), 0x9E3779B1, 0, 4,
          0) == U128(0x18AB9C1923C5FA46, 0xDCF1DAD0918D9376)
  {
    hide Xor, Generator, TestBuffer, KSecret, Mix32B;
    var input := TestBuffer(222);
    Wide222Round0();
    assert Mix32Rounds(U128(0x341B87F22279A112, 0x0), input, KSecret(), 0x9E3779B1, 0, 1,
          0) == U128(0x757D62731B1D9AE6, 0xD1BF35F7918F71A3);
    Wide222Round1();
    assert Mix32Rounds(U128(0x341B87F22279A112, 0x0), input, KSecret(), 0x9E3779B1, 0, 2,
          0) == U128(0xA6DDE4090971204, 0x747781255D8CB40A);
    Wide222Round2();
    assert Mix32Rounds(U128(0x341B87F22279A112, 0x0), input, KSecret(), 0x9E3779B1, 0, 3,
          0) == U128(0xB00720E73F458E78, 0x647AA988C541E0BB);
    Wide222Round3();
    assert Mix32Rounds(U128(0x341B87F22279A112, 0x0), input, KSecret(), 0x9E3779B1, 0, 4,
          0) == U128(0x18AB9C1923C5FA46, 0xDCF1DAD0918D9376);
  }

  lemma AvalancheAt10()
    ensures Avalanche(0x18AB9C1923C5FA46) == 0x7EE2D002E2F25D74
  {
    hide Xor, Avalanche;
    XorIs(0x18, 0xab, 0x9c, 0x19, 0x23, 0xc5, 0xfa, 0x46, 0x00, 0x00, 0x00, 0x00, 0x00, 0xc5, 0x5c, 0xe0);
    XorIs(0x7e, 0xe2, 0xd0, 0x02, 0x9c, 0x10, 0x8d, 0x76, 0x00, 0x00, 0x00, 0x00, 0x7e, 0xe2, 0xd0, 0x02);
    AvalancheIs(0x18AB9C1923C5FA46, 0xC55CE0, 0x1923C5FA46, 0x18AB9C192300A6A6, 0x227130BADB49AD3,
          0x7EE2D0029C108D76, 0x7EE2D002, 0x9C108D76);
  }

  lemma AvalancheAt11()
    ensures Avalanche(0xDCF1DAD0918D9376) == 0x20B49A29AB23EA89
  {
    hide Xor, Avalanche;
    XorIs(0xdc, 0xf1, 0xda, 0xd0, 0x91, 0x8d, 0x93, 0x76, 0x00, 0x00, 0x00, 0x00, 0x06, 0xe7, 0x8e, 0xd6);
    XorIs(0x20, 0xb4, 0x9a, 0x29, 0x8b, 0x97, 0x70, 0xa0, 0x00, 0x00, 0x00, 0x00, 0x20, 0xb4, 0x9a, 0x29);
    AvalancheIs(0xDCF1DAD0918D9376, 0x6E78ED6, 0x10918D9376, 0xDCF1DAD0976A1DA0, 0x13475B706BA9FF8B,
          0x20B49A298B9770A0, 0x20B49A29, 0x8B9770A0);
  }

  lemma Wide222Middle()
    ensures Avalanche128(U128(0x18AB9C1923C5FA46, 0xDCF1DAD0918D9376)) == U128(0x7EE2D002E2F25D74, 0x20B49A29AB23EA89)
  {
    hide Xor, Avalanche;
    AvalancheAt10();
    AvalancheAt11();
  }

  lemma Mix222At128()
    ensures Mix16B(TestBuffer(222), 128, KSecret(), 3, 0x9E3779B1) == 0x312C7C8E060CB54
  {
    hide Xor, Generator, ReadLE64, KSecret, TestBuffer, Pow2, LE, Mix16B, Avalanche, Mul128Fold64;
    var input := TestBuffer(222);
    Buffer2(222);
    SecretFrom3();
    XorIs(0x92, 0x3b, 0xd1, 0x0f, 0xeb, 0x49, 0x34, 0xf3, 0x81, 0x01, 0x7c, 0xbe, 0xe9, 0xdb, 0x9c, 0xea);
    XorIs(0xcf, 0x3d, 0xed, 0xaa, 0xdb, 0x63, 0xa9, 0xa1, 0x6d, 0xd4, 0xde, 0x1c, 0x0e, 0xea, 0x7d, 0x7b);
    XorIs(0x0f, 0x2e, 0x61, 0xfc, 0x66, 0x78, 0xd9, 0x4a, 0x0c, 0x3c, 0xa6, 0x34, 0x86, 0x18, 0x12, 0x1e);
    MixIs(input, 128, 0x923BD10FEB4934F3, 0xCF3DEDAADB63A9A1, KSecret(), 3, 0x81017CBE4BA42339, 0x6DD4DE1CAD21F72C,
          0x9E3779B1,
          0x0, 0x81017CBEE9DB9CEA, 0x0, 0x6DD4DE1C0EEA7D7B, 0x133AADB10292A819, 0xA2E933B6D589D4DA,
                0xF2E61FC6678D94A, 0xC3CA6348618121E);
  }

  lemma Mix222At144()
    ensures Mix16B(TestBuffer(222), 144, KSecret(), 19, 0x9E3779B1) == 0x445D4B849AC2F976
  {
    hide Xor, Generator, ReadLE64, KSecret, TestBuffer, Pow2, LE, Mix16B, Avalanche, Mul128Fold64;
    var input := TestBuffer(222);
    Buffer2(222);
    SecretFrom3();
    XorIs(0xa2, 0x21, 0xb3, 0xf9, 0xcd, 0x42, 0x09, 0xf1, 0xa4, 0x40, 0x72, 0xdc, 0x35, 0xc7, 0xfd, 0x9a);
    XorIs(0xd1, 0x48, 0x2f, 0xe4, 0xf4, 0xc8, 0xf2, 0xeb, 0xe6, 0x79, 0xcb, 0x1e, 0xc9, 0x7c, 0x3d, 0xf3);
    XorIs(0x45, 0x3d, 0x75, 0x6e, 0xf7, 0x6d, 0x6f, 0x08, 0x01, 0x60, 0x3e, 0xea, 0x6d, 0xaf, 0x96, 0x7e);
    MixIs(input, 144, 0xA221B3F9CD4209F1, 0xD1482FE4F4C8F2EB, KSecret(), 19, 0xA44072DB979083E9, 0xE679CB1F67B3B7A4,
          0x9E3779B1,
          0x0, 0xA44072DC35C7FD9A, 0x0, 0xE679CB1EC97C3DF3, 0x661C125F885F46B, 0x3731E4FA3DB4CF18,
                0x453D756EF76D6F08, 0x1603EEA6DAF967E);
  }

  lemma Wide222Round4()
    ensures Mix32B(U128(0x7EE2D002E2F25D74, 0x20B49A29AB23EA89), TestBuffer(222), 128, 144, KSecret(), 3,
          0x9E3779B1) == U128(0xF29C74150159D414, 0x4685B14834A3D6B)
  {
    hide Xor, Generator, ReadLE64, KSecret, TestBuffer, Pow2, LE, Mix16B, Avalanche, Mul128Fold64, Mix32B;
    var input := TestBuffer(222);
    Buffer2(222);
    Mix222At128();
    Mix222At144();
    XorIs(0x81, 0xf5, 0x97, 0xcb, 0xc3, 0x53, 0x28, 0xc8, 0x73, 0x69, 0xe3, 0xde, 0xc2, 0x0a, 0xfc, 0xdc);
    XorIs(0x65, 0x11, 0xe5, 0xae, 0x45, 0xe6, 0xe3, 0xff, 0x61, 0x79, 0xbe, 0xba, 0xc6, 0xac, 0xde, 0x94);
    Mix32Is(U128(0x7EE2D002E2F25D74, 0x20B49A29AB23EA89), input, 128, 0x923BD10FEB4934F3, 0xCF3DEDAADB63A9A1, 144,
          0xA221B3F9CD4209F1, 0xD1482FE4F4C8F2EB, KSecret(), 3, 0x9E3779B1,
            0x312C7C8E060CB54, 0x445D4B849AC2F976, 0x0, 0x81F597CBC35328C8, 0x1, 0x7369E3DEC20AFCDC, 0x0,
                  0x6511E5AE45E6E3FF, 0x1, 0x6179BEBAC6ACDE94, 0xF29C74150159D414, 0x4685B14834A3D6B);
  }

  lemma Mix222At160()
    ensures Mix16B(TestBuffer(222), 160, KSecret(), 35, 0x9E3779B1) == 0xC126D4F290E65CC
  {
    hide Xor, Generator, ReadLE64, KSecret, TestBuffer, Pow2, LE, Mix16B, Avalanche, Mul128Fold64;
    var input := TestBuffer(222);
    Buffer2(222);
    Buffer3(222);
    SecretFrom3();
    XorIs(0x4a, 0xf8, 0xec, 0xef, 0xc2, 0xf4, 0x10, 0x4b, 0xd0, 0x5a, 0x82, 0x79, 0x83, 0xf8, 0x45, 0xff);
    XorIs(0x0e, 0x62, 0xa6, 0xa4, 0xc3, 0x74, 0x38, 0xb5, 0x46, 0x08, 0xb8, 0x20, 0xd4, 0xc8, 0x52, 0xcc);
    XorIs(0x27, 0xaf, 0xa5, 0x85, 0xf6, 0x81, 0x0a, 0x14, 0x2b, 0xbd, 0xc8, 0xca, 0xdf, 0x8f, 0x6f, 0xd8);
    MixIs(input, 160, 0x4AF8ECEFC2F4104B, 0xE62A6A4C37438B5, KSecret(), 35, 0xD05A8278E5C0CC4E, 0x4608B82172FFCC7D,
          0x9E3779B1,
          0x0, 0xD05A827983F845FF, 0x0, 0x4608B820D4C852CC, 0x9AA26E96410C55B4, 0x486A1E8417BC6A79,
                0x27AFA585F6810A14, 0x2BBDC8CADF8F6FD8);
  }

  lemma Mix222At176()
    ensures Mix16B(TestBuffer(222), 176, KSecret(), 51, 0x9E3779B1) == 0xE0A7C02207833A4D
  {
    hide Xor, Generator, ReadLE64, KSecret, TestBuffer, Pow2, LE, Mix16B, Avalanche, Mul128Fold64;
    var input := TestBuffer(222);
    Buffer3(222);
    SecretFrom3();
    XorIs(0x98, 0x86, 0xe3, 0x41, 0x37, 0x63, 0xfd, 0xbf, 0x90, 0x35, 0xe0, 0x8e, 0xc2, 0x7b, 0x71, 0x25);
    XorIs(0x87, 0x66, 0x03, 0x56, 0xba, 0x4c, 0xeb, 0x1a, 0x52, 0x28, 0x3c, 0x4b, 0x88, 0x03, 0x08, 0x35);
    XorIs(0xe7, 0x98, 0x5a, 0xfe, 0x3b, 0xb4, 0x5e, 0x46, 0x07, 0x3f, 0x9a, 0xdc, 0x3c, 0x37, 0x64, 0x0b);
    MixIs(input, 176, 0x9886E3413763FDBF, 0x87660356BA4CEB1A, KSecret(), 51, 0x9035E08E2443F774, 0x52283C4C263A81E6,
          0x9E3779B1,
          0x0, 0x9035E08EC27B7125, 0x0, 0x52283C4B88030835, 0x8B303CFF5188C9A, 0xD54E3F1D324FE32F,
                0xE7985AFE3BB45E46, 0x73F9ADC3C37640B);
  }

  lemma Wide222Round5()
    ensures Mix32B(U128(0xF29C74150159D414, 0x4685B14834A3D6B), TestBuffer(222), 160, 176, KSecret(), 35,
          0x9E3779B1) == U128(0xE14207F3DBD8D139, 0xBC4B88A20CA53EB8)
  {
    hide Xor, Generator, ReadLE64, KSecret, TestBuffer, Pow2, LE, Mix16B, Avalanche, Mul128Fold64, Mix32B;
    var input := TestBuffer(222);
    Buffer2(222);
    Buffer3(222);
    Mix222At160();
    Mix222At176();
    XorIs(0xfe, 0xae, 0xe1, 0x64, 0x2a, 0x68, 0x39, 0xe0, 0x1f, 0xec, 0xe6, 0x97, 0xf1, 0xb0, 0xe8, 0xd9);
    XorIs(0xe5, 0x10, 0x1b, 0x36, 0x8a, 0xcd, 0x77, 0xb8, 0x59, 0x5b, 0x93, 0x94, 0x86, 0x68, 0x49, 0x00);
    Mix32Is(U128(0xF29C74150159D414, 0x4685B14834A3D6B), input, 160, 0x4AF8ECEFC2F4104B, 0xE62A6A4C37438B5, 176,
          0x9886E3413763FDBF, 0x87660356BA4CEB1A, KSecret(), 35, 0x9E3779B1,
            0xC126D4F290E65CC, 0xE0A7C02207833A4D, 0x0, 0xFEAEE1642A6839E0, 0x1, 0x1FECE697F1B0E8D9, 0x0,
                  0xE5101B368ACD77B8, 0x0, 0x595B939486684900, 0xE14207F3DBD8D139, 0xBC4B88A20CA53EB8);
  }

  lemma Wide222To6()
    ensures Mix32Rounds(U128(0x7EE2D002E2F25D74, 0x20B49A29AB23EA89), TestBuffer(222), KSecret(), 0x9E3779B1, 4, 6,
          125) == U128(0xE14207F3DBD8D139, 0xBC4B88A20CA53EB8)
  {
    hide Xor, Generator, TestBuffer, KSecret, Mix32B;
    var input := TestBuffer(222);
    Wide222Round4();
    assert Mix32Rounds(U128(0x7EE2D002E2F25D74, 0x20B49A29AB23EA89), input, KSecret(), 0x9E3779B1, 4, 5,
          125) == U128(0xF29C74150159D414, 0x4685B14834A3D6B);
    Wide222Round5();
    assert Mix32Rounds(U128(0x7EE2D002E2F25D74, 0x20B49A29AB23EA89), input, KSecret(), 0x9E3779B1, 4, 6,
          125) == U128(0xE14207F3DBD8D139, 0xBC4B88A20CA53EB8);
  }

  lemma Buffer222At190()
    ensures ReadLE64(TestBuffer(222), 190) == 0x85C1594500ED8766
  {
    hide Generator, ReadLE64, TestBuffer, Pow2;
    Buffer3(232);
    assert Pow2(48) == 0x1000000000000 && Pow2(16) == 0x10000 by {
      PowersOfTwo();
    }
    Across(TestBuffer(232), 184, 6, 0x1000000000000, 0x10000, 0x8766, 0x356BA4CEB1A, 0xB644, 0x85C1594500ED);
    Shorter(222, 232, 190);
  }

  lemma Buffer222At198()
    ensures ReadLE64(TestBuffer(222), 198) == 0xEAA941F968C3B644
  {
    hide Generator, ReadLE64, TestBuffer, Pow2;
    Buffer3(232);
    assert Pow2(48) == 0x1000000000000 && Pow2(16) == 0x10000 by {
      PowersOfTwo();
    }
    Across(TestBuffer(232), 192, 6, 0x1000000000000, 0x10000, 0xB644, 0x85C1594500ED, 0x87F9, 0xEAA941F968C3);
    Shorter(222, 232, 198);
  }

  lemma Buffer222At206()
    ensures ReadLE64(TestBuffer(222), 206) == 0x14D5D0129FE087F9
  {
    hide Generator, ReadLE64, TestBuffer, Pow2;
    Buffer3(232);
    assert Pow2(48) == 0x1000000000000 && Pow2(16) == 0x10000 by {
      PowersOfTwo();
    }
    Across(TestBuffer(232), 200, 6, 0x1000000000000, 0x10000, 0x87F9, 0xEAA941F968C3, 0x4854, 0x14D5D0129FE0);
    Shorter(222, 232, 206);
  }

  lemma Buffer222At214()
    ensures ReadLE64(TestBuffer(222), 214) == 0x38E35140445D4854
  {
    hide Generator, ReadLE64, TestBuffer, Pow2;
    Buffer3(232);
    assert Pow2(48) == 0x1000000000000 && Pow2(16) == 0x10000 by {
      PowersOfTwo();
    }
    Across(TestBuffer(232), 208, 6, 0x1000000000000, 0x10000, 0x4854, 0x14D5D0129FE0, 0x9A06, 0x38E35140445D);
    Shorter(222, 232, 214);
  }

  lemma Mix222At206()
    ensures Mix16B(TestBuffer(222), 206, KSecret(), 103, 0xFFFFFFFF61C8864F) == 0x95E45EEA2F99D652
  {
    hide Xor, Generator, ReadLE64, KSecret, TestBuffer, Pow2, LE, Mix16B, Avalanche, Mul128Fold64;
    var input := TestBuffer(222);
    Buffer222At206();
    Buffer222At214();
    SecretFrom103();
    XorIs(0x14, 0xd5, 0xd0, 0x12, 0x9f, 0xe0, 0x87, 0xf9, 0x4f, 0x0b, 0xc7, 0xc7, 0x1d, 0xa5, 0x7f, 0x8e);
    XorIs(0x38, 0xe3, 0x51, 0x40, 0x44, 0x5d, 0x48, 0x54, 0x59, 0xb4, 0xcd, 0x4c, 0x7e, 0x89, 0x03, 0xce);
    XorIs(0xb7, 0x0a, 0xc9, 0x6b, 0x96, 0x6e, 0x54, 0x96, 0x22, 0xee, 0x97, 0x81, 0xb9, 0xf7, 0x82, 0xc4);
    MixIs(input, 206, 0x14D5D0129FE087F9, 0x38E35140445D4854, KSecret(), 103, 0x4F0BC7C7BBDCF93F, 0x59B4CD4BE0518A1D,
          0xFFFFFFFF61C8864F,
          0x1, 0x4F0BC7C71DA57F8E, 0x1, 0x59B4CD4C7E8903CE, 0x5BDE17D58245F877, 0x61579C0C3AD44B9A,
                0xB70AC96B966E5496, 0x22EE9781B9F782C4);
  }

  lemma Mix222At190()
    ensures Mix16B(TestBuffer(222), 190, KSecret(), 119, 0xFFFFFFFF61C8864F) == 0x1BE558B40974DCE4
  {
    hide Xor, Generator, ReadLE64, KSecret, TestBuffer, Pow2, LE, Mix16B, Avalanche, Mul128Fold64;
    var input := TestBuffer(222);
    Buffer222At190();
    Buffer222At198();
    SecretFrom103();
    XorIs(0x85, 0xc1, 0x59, 0x45, 0x00, 0xed, 0x87, 0x66, 0x73, 0x78, 0xd9, 0xc8, 0xe0, 0x68, 0x4e, 0x80);
    XorIs(0xea, 0xa9, 0x41, 0xf9, 0x68, 0xc3, 0xb6, 0x44, 0xeb, 0xd3, 0x34, 0x84, 0x4a, 0xfd, 0x64, 0x15);
    XorIs(0x1a, 0x89, 0xe7, 0x97, 0x3b, 0xa7, 0x8d, 0xc6, 0x01, 0x6c, 0xbf, 0x23, 0x32, 0xd3, 0x51, 0x22);
    MixIs(input, 190, 0x85C1594500ED8766, 0xEAA941F968C3B644, KSecret(), 119, 0x7378D9C97E9FC831, 0xEBD33483ACC5EA64,
          0xFFFFFFFF61C8864F,
          0x1, 0x7378D9C8E0684E80, 0x1, 0xEBD334844AFD6415, 0xF6B9808DE085C9E6, 0x17A757D223ED251,
                0x1A89E7973BA78DC6, 0x16CBF2332D35122);
  }

  lemma Wide222Last()
    ensures Mix32B(U128(0xE14207F3DBD8D139, 0xBC4B88A20CA53EB8), TestBuffer(222), 206, 190, KSecret(), 103,
          0xFFFFFFFF61C8864F) == U128(0x74CFDE062C39A21, 0x9589C004F227CBD1)
  {
    hide Xor, Generator, ReadLE64, KSecret, TestBuffer, Pow2, LE, Mix16B, Avalanche, Mul128Fold64, Mix32B;
    var input := TestBuffer(222);
    Buffer222At190();
    Buffer222At198();
    Buffer222At206();
    Buffer222At214();
    Mix222At206();
    Mix222At190();
    XorIs(0x77, 0x26, 0x66, 0xde, 0x0b, 0x72, 0xa7, 0x8b, 0x70, 0x6a, 0x9b, 0x3e, 0x69, 0xb1, 0x3d, 0xaa);
    XorIs(0xd8, 0x30, 0xe1, 0x56, 0x16, 0x1a, 0x1b, 0x9c, 0x4d, 0xb9, 0x21, 0x52, 0xe4, 0x3d, 0xd0, 0x4d);
    Mix32Is(U128(0xE14207F3DBD8D139, 0xBC4B88A20CA53EB8), input, 206, 0x14D5D0129FE087F9, 0x38E35140445D4854, 190,
          0x85C1594500ED8766, 0xEAA941F968C3B644, KSecret(), 103, 0xFFFFFFFF61C8864F,
            0x95E45EEA2F99D652, 0x1BE558B40974DCE4, 0x1, 0x772666DE0B72A78B, 0x1, 0x706A9B3E69B13DAA, 0x0,
                  0xD830E156161A1B9C, 0x0, 0x4DB92152E43DD04D, 0x74CFDE062C39A21, 0x9589C004F227CBD1);
  }

  lemma AvalancheAt12()
    ensures Avalanche(0x9CD6BDE554EB65F2) == 0xAE995BB8AF917A8D
  {
    hide Xor, Avalanche;
    XorIs(0x9c, 0xd6, 0xbd, 0xe5, 0x54, 0xeb, 0x65, 0xf2, 0x00, 0x00, 0x00, 0x00, 0x04, 0xe6, 0xb5, 0xef);
    XorIs(0xae, 0x99, 0x5b, 0xb8, 0x01, 0x08, 0x21, 0x35, 0x00, 0x00, 0x00, 0x00, 0xae, 0x99, 0x5b, 0xb8);
    AvalancheIs(0x9CD6BDE554EB65F2, 0x4E6B5EF, 0x554EB65F2, 0x9CD6BDE5500DD01D, 0xDAF63E91CE16CAE,
          0xAE995BB801082135, 0xAE995BB8, 0x1082135);
  }

  lemma AvalancheAt13()
    ensures Avalanche(0x66A2F16FE689371D) == 0x6E7DFFE99DE1680F
  {
    hide Xor, Avalanche;
    XorIs(0x66, 0xa2, 0xf1, 0x6f, 0xe6, 0x89, 0x37, 0x1d, 0x00, 0x00, 0x00, 0x00, 0x03, 0x35, 0x17, 0x8b);
    XorIs(0x6e, 0x7d, 0xff, 0xe9, 0xf3, 0x9c, 0x97, 0xe6, 0x00, 0x00, 0x00, 0x00, 0x6e, 0x7d, 0xff, 0xe9);
    AvalancheIs(0x66A2F16FE689371D, 0x335178B, 0xFE689371D, 0x66A2F16FE5BC2096, 0x8F4A502AA32ECBB,
          0x6E7DFFE9F39C97E6, 0x6E7DFFE9, 0xF39C97E6);
  }

  lemma Wide222()
    ensures Len129To240_128(TestBuffer(222), KSecret(), 0x9E3779B1) == U128(0xAE995BB8AF917A8D, 0x91820016621E97F1)
  {
    hide Xor, KSecret, TestBuffer, Generator, Mix32B, Mix32Rounds, Avalanche128, Avalanche, Finish128, Mul64, Sub64;
    Multiplied(222, PRIME64_1, 0x89, 0x341B87F22279A112);
    Subtracted(0, 0x9E3779B1, 1, 0xFFFFFFFF61C8864F);
    Wide222To4();
    Wide222Middle();
    Wide222To6();
    Wide222Last();
    AvalancheAt12();
    AvalancheAt13();
    FinishIs(U128(0x74CFDE062C39A21, 0x9589C004F227CBD1), 222, 0x9E3779B1, 0x48319B37C364152, 0x726561B50E0F5167,
          0x4E3A4C7A7C9FE3F4, 0x5CE8CEC7CB3DDFD3, 0x1, 0xFFFFFFFF61C8872D, 0xC2B2AE3CAF80737D, 0x9754C0F30D3C05E3,
          0x1, 0x66A2F16FE689371D, 0x0, 0x9CD6BDE554EB65F2, 0xAE995BB8AF917A8D, 0x6E7DFFE99DE1680F, 0x91820016621E97F1);
  }

  /** The self-test's own secret: 147 bytes of its buffer. */
  function CallersSecret(): (s: Secret)
    ensures |s| == 147
  {
    TestBuffer(154)[7..]
  }

  lemma CallersWord(pos: nat)
    requires pos + 8 <= 147
    ensures ReadLE64(CallersSecret(), pos) == ReadLE64(TestBuffer(154), pos + 7)
  {
    hide LE, Generator;
    assert CallersSecret()[pos..pos + 8] == TestBuffer(154)[pos + 7..pos + 15];
  }

  lemma CallersWords()
    ensures ReadLE64(CallersSecret(), 24) == 0xB9858FFCFFC059D5
    ensures ReadLE64(CallersSecret(), 32) == 0x9305B6F774AB1D33
    ensures ReadLE64(CallersSecret(), 40) == 0x9F7C67B38470B027
    ensures ReadLE64(CallersSecret(), 48) == 0x17987BED72004876
  {
    hide Generator, ReadLE64, TestBuffer, CallersSecret, Pow2;
    assert Pow2(56) == 0x100000000000000 && Pow2(8) == 0x100 by {
      PowersOfTwo();
    }
    Buffer0(154);
    Buffer1(154);
    Across(TestBuffer(154), 24, 7, 0x100000000000000, 0x100, 0xD5, 0x6F5A543F5C8B53, 0x33, 0xB9858FFCFFC059);
    CallersWord(24);
    Across(TestBuffer(154), 32, 7, 0x100000000000000, 0x100, 0x33, 0xB9858FFCFFC059, 0x27, 0x9305B6F774AB1D);
    CallersWord(32);
    Across(TestBuffer(154), 40, 7, 0x100000000000000, 0x100, 0x27, 0x9305B6F774AB1D, 0x76, 0x9F7C67B38470B0);
    CallersWord(40);
    Across(TestBuffer(154), 48, 7, 0x100000000000000, 0x100, 0x76, 0x9F7C67B38470B0, 0xE8, 0x17987BED720048);
    CallersWord(48);
  }

  lemma AvalancheAt14()
    ensures Avalanche(0xF34DC3733EBD653B) == 0x14631E773B78EC57
  {
    hide Xor, Avalanche;
    XorIs(0xf3, 0x4d, 0xc3, 0x73, 0x3e, 0xbd, 0x65, 0x3b, 0x00, 0x00, 0x00, 0x00, 0x07, 0x9a, 0x6e, 0x1b);
    XorIs(0x14, 0x63, 0x1e, 0x77, 0x2f, 0x1b, 0xf2, 0x20, 0x00, 0x00, 0x00, 0x00, 0x14, 0x63, 0x1e, 0x77);
    AvalancheIs(0xF34DC3733EBD653B, 0x79A6E1B, 0x133EBD653B, 0xF34DC37339270B20, 0x153ACD5A3EAC5697,
          0x14631E772F1BF220, 0x14631E77, 0x2F1BF220);
  }

  lemma Short12Callers(input: seq<byte>)
    requires |input| == 12 && ReadLE64(input, 0) == 0x24A332B79B925200 && ReadLE64(input, 4) == 0x95AF002D24A332B7
    ensures Len9To16(input, CallersSecret(), 0) == 0x14631E773B78EC57
  {
    hide Xor, Generator, Rotl64, ReadLE64, ReadLE32, KSecret, TestBuffer, Pow2, LE, Swap32, Swap64, Combined, Rotl32,
          Avalanche, Xxh64Avalanche, Rrmxmx, Mul128Fold64, Mult64to128, Mix16B, CallersSecret, Len9To16;
    CallersWords();
    XorIs(0xb9, 0x85, 0x8f, 0xfc, 0xff, 0xc0, 0x59, 0xd5, 0x93, 0x05, 0xb6, 0xf7, 0x74, 0xab, 0x1d, 0x33);
    XorIs(0x9f, 0x7c, 0x67, 0xb3, 0x84, 0x70, 0xb0, 0x27, 0x17, 0x98, 0x7b, 0xed, 0x72, 0x00, 0x48, 0x76);
    XorIs(0x24, 0xa3, 0x32, 0xb7, 0x9b, 0x92, 0x52, 0x00, 0x2a, 0x80, 0x39, 0x0b, 0x8b, 0x6b, 0x44, 0xe6);
    XorIs(0x95, 0xaf, 0x00, 0x2d, 0x24, 0xa3, 0x32, 0xb7, 0x88, 0xe4, 0x1c, 0x5e, 0xf6, 0x70, 0xf8, 0x51);
    Swap64Is(0xe6, 0x16, 0xf9, 0x10, 0xbc, 0x0b, 0x23, 0x0e);
    XorIs(0xee, 0x75, 0xb3, 0xc4, 0x57, 0x6e, 0x0e, 0xa4, 0x01, 0x9e, 0x1e, 0x2a, 0xf8, 0xb0, 0x79, 0x9f);
    FoldIs(0xE230BBC10F916E6, 0x1D4B1C73D2D3CAE6, 0xEE75B3C4576E0EA4, 0x19E1E2AF8B0799F);
    Len9To16Is(input, CallersSecret(), 0x0, 0x24A332B79B925200, 0x95AF002D24A332B7, 0xB9858FFCFFC059D5,
          0x9305B6F774AB1D33, 0x2A80390B8B6B44E6, 0x0, 0x2A80390B8B6B44E6, 0xE230BBC10F916E6, 0x9F7C67B38470B027,
          0x17987BED72004876, 0x88E41C5EF670F851, 0x0, 0x88E41C5EF670F851, 0x1D4B1C73D2D3CAE6, 0xE616F910BC0B230E,
          0xEFEBADEEAFDE773B, 0x1, 0x36215848EDEEE00, 0x0, 0xF34DC3733EBD653B);
    AvalancheAt14();
  }

  // ----- the values stated -----

  lemma FewBytes()
    ensures TestBuffer(0) == [] && TestBuffer(1) == [0]
    ensures ReadLE32(TestBuffer(6), 0) == 0x9B925200 && ReadLE32(TestBuffer(6), 2) == 0x32B79B92
    ensures ReadLE64(TestBuffer(12), 0) == 0x24A332B79B925200 && ReadLE64(TestBuffer(12), 4) == 0x95AF002D24A332B7
  {
    hide ReadLE64, ReadLE32, Pow2, TestBuffer, Generator;
    OneMade();
    Buffer0(16);
    assert Pow2(16) == 0x1_0000 && Pow2(48) == 0x1_0000_0000_0000 && Pow2(32) == W32 by {
      PowersOfTwo();
    }
    Across(TestBuffer(16), 0, 2, 0x10000, 0x1000000000000, 0x24A332B79B92, 0x5200, 0x93B8EC0E95AF, 0x2D);
    Across(TestBuffer(16), 0, 4, 0x100000000, 0x100000000, 0x24A332B7, 0x9B925200, 0x93B8EC0E, 0x95AF002D);
    HalfLoads(TestBuffer(16), 0, 0x24A332B7, 0x9B925200);
    HalfLoads(TestBuffer(16), 2, 0x2D24A3, 0x32B79B92);
    Shorter(6, 16, 0);
    Shorter(6, 16, 2);
    Shorter(12, 16, 0);
    Shorter(12, 16, 4);
  }

  lemma OneMade()
    ensures TestBuffer(0) == [] && TestBuffer(1) == [0]
  {
  }

  const SEED64 := 0x9E3779B185EBCA8D
  const SEED32 := 0x9E3779B1

  /** xxhsum.c lines 1247 to 1261: texts of up to 240 bytes, without a seed and under PRIME64. */
  lemma Known64()
    ensures Hash64(Seeded(SEED64), TestBuffer(0)) == 0xA8A6B918B2F0364A
    ensures Hash64(Seeded(0), TestBuffer(1)) == 0xC44BDFF4074EECDB && Hash64(Seeded(SEED64),
          TestBuffer(1)) == 0x032BE332DD766EF8
    ensures Hash64(Seeded(0), TestBuffer(6)) == 0x27B56A84CD2D7325 && Hash64(Seeded(SEED64),
          TestBuffer(6)) == 0x84589C116AB59AB9
    ensures Hash64(Seeded(0), TestBuffer(12)) == 0xA713DAF0DFBB77E7 && Hash64(Seeded(SEED64),
          TestBuffer(12)) == 0xE7303E1B2336DE0E
    ensures Hash64(Seeded(SEED64), TestBuffer(80)) == 0xC6DD0CB699532E73
    ensures Hash64(Seeded(SEED64), TestBuffer(195)) == 0xBA68003D370CB3D9
  {
    hide Len1To3, Len4To8, Len9To16, Len17To128, Len129To240, KSecret, TestBuffer, ReadLE64, ReadLE32,
          Xxh64Avalanche, Xor, Generator;
    FewBytes();
    Short0();
    Short1(TestBuffer(1));
    Short1Seeded(TestBuffer(1));
    Short6(TestBuffer(6));
    Short6Seeded(TestBuffer(6));
    Short12(TestBuffer(12));
    Short12Seeded(TestBuffer(12));
    Short80();
    Short195();
  }

  /** xxhsum.c line 1281: under a caller's secret. */
  lemma Known64WithSecret()
    ensures Hash64(WithSecret(CallersSecret()), TestBuffer(12)) == 0x14631E773B78EC57
  {
    hide Len1To3, Len4To8, Len9To16, CallersSecret, TestBuffer, ReadLE64, ReadLE32, Xor, Generator;
    FewBytes();
    Short12Callers(TestBuffer(12));
  }

  /** xxhsum.c lines 1299 to 1343: texts of up to 240 bytes under PRIME32. */
  lemma Known128()
    ensures Hash128(Seeded(SEED32), TestBuffer(0)) == U128(0x5444F7869C671AB0, 0x92220AE55E14AB50)
    ensures Hash128(Seeded(SEED32), TestBuffer(1)) == U128(0xB53D5557E7F76F8D, 0x89B99554BA22467C)
    ensures Hash128(Seeded(SEED32), TestBuffer(6)) == U128(0x269D8F70BE98856E, 0x5A865B5389ABD2B1)
    ensures Hash128(Seeded(SEED32), TestBuffer(12)) == U128(0x9BE9F9A67F3C7DFB, 0xD7E09D518A3405D3)
    ensures Hash128(Seeded(SEED32), TestBuffer(81)) == U128(0x703FBB3D7A5F755C, 0x2724EC7ADC750FB6)
    ensures Hash128(Seeded(SEED32), TestBuffer(222)) == U128(0xAE995BB8AF917A8D, 0x91820016621E97F1)
  {
    hide Len1To3_128, Len4To8_128, Len9To16_128, Len17To128_128, Len129To240_128, KSecret, TestBuffer, ReadLE64,
          ReadLE32, Xxh64Avalanche, Xor, Generator;
    FewBytes();
    Wide0();
    Wide1(TestBuffer(1));
    Wide6(TestBuffer(6));
    Wide12(TestBuffer(12));
    Wide81();
    Wide222();
  }
}
