/** Which texts of up to 16 bytes XXH3 tells apart, under every key. */
module Xxh3Distinct {
  import opened Words
  import opened Bits
  import opened LongMultiply
  import opened Xxh3Kernel
  import opened Xxh3Short
  import opened Xxh3Hash

  // ----- the last mixing steps lose nothing -----

  lemma AvalancheInjective(x: u64, y: u64)
    requires Avalanche(x) == Avalanche(y)
    ensures x == y
  {
    hide Xor64, Shr64, Mul64;
    var x1, y1 := XorShift64(x, 37), XorShift64(y, 37);
    XorShift64Injective(Mul64(x1, 0x165667919E3779F9), Mul64(y1, 0x165667919E3779F9), 32);
    MulInjective64(x1, y1, 0x165667919E3779F9, 637979407623780425, 55667485921959089);
    XorShift64Injective(x, y, 37);
  }

  lemma Xxh64AvalancheInjective(x: u64, y: u64)
    requires Xxh64Avalanche(x) == Xxh64Avalanche(y)
    ensures x == y
  {
    hide Xor64, Shr64, Mul64;
    var x0, y0 := Xor64(x, Shr64(x, 33)), Xor64(y, Shr64(y, 33));
    var x1, y1 := Mul64(x0, PRIME64_2), Mul64(y0, PRIME64_2);
    var x2, y2 := Xor64(x1, Shr64(x1, 29)), Xor64(y1, Shr64(y1, 29));
    XorShift64Injective(Mul64(x2, PRIME64_3), Mul64(y2, PRIME64_3), 32);
    MulInjective64(x2, y2, PRIME64_3, 16855272203555305545, 1470722560960728959);
    XorShift64Injective(x1, y1, 29);
    MulInjective64(x0, y0, PRIME64_2, 839798700976720815, 638699622168397319);
    XorShift64Injective(x, y, 33);
  }

  /** The length is added to the shifted word: the bits from the 30th on are the word's own. */
  lemma LengthMixed(x: u64, y: u64, len: nat)
    requires len <= 8 && Xor64(x, Add64(Shr64(x, 35), len)) == Xor64(y, Add64(Shr64(y, 35), len))
    ensures x == y
  {
    hide Xor, Bit, Halve, Pow2;
    HighBits(x, len);
    HighBits(y, len);
    forall j | 0 <= j < 29 ensures Bit(Halve(x, 35), j) == Bit(Halve(y, 35), j) {
      BitHalve(x, 35, j);
      BitHalve(y, 35, j);
      assert Bit(x, j + 35) == Bit(y, j + 35);
    }
    ShiftIsHalve(x, 35);
    ShiftIsHalve(y, 35);
    BitsEqual(Halve(x, 35), Halve(y, 35), 29);
    XorInjective(x, y, Add64(Shr64(x, 35), len));
  }

  lemma HighBits(x: u64, len: nat)
    requires len <= 8
    ensures Halve(x, 35) < Pow2(29)
    ensures forall j :: 30 <= j < 64 ==> Bit(Xor64(x, Add64(Shr64(x, 35), len)), j) == Bit(x, j)
  {
    hide Xor, Bit, Halve;
    var c := Add64(Shr64(x, 35), len);
    ShiftIsHalve(x, 35);
    Powers();
    assert x / 0x8_0000_0000 < 0x2000_0000;
    assert c < 0x4000_0000;
    forall j | 30 <= j < 64 ensures Bit(Xor64(x, c), j) == Bit(x, j) {
      BitXor(x, c, j);
      NoHighBit(c, 30, j);
    }
  }

  lemma Powers()
    ensures Pow2(29) == 0x2000_0000 && Pow2(30) == 0x4000_0000 && Pow2(35) == 0x8_0000_0000
  {
    assert Pow2(10) == 0x400;
    assert Pow2(20) == 0x10_0000;
    assert Pow2(29) == 0x2000_0000;
    assert Pow2(35) == 0x8_0000_0000;
  }

  lemma RrmxmxInjective(x: u64, y: u64, len: nat)
    requires len <= 8 && Rrmxmx(x, len) == Rrmxmx(y, len)
    ensures x == y
  {
    hide Xor64, Shr64, Mul64, Add64, Rotl64;
    var x0, y0 := Xor64(x, Xor64(Rotl64(x, 49), Rotl64(x, 24))), Xor64(y, Xor64(Rotl64(y, 49), Rotl64(y, 24)));
    var x1, y1 := Mul64(x0, RRMXMX_PRIME), Mul64(y0, RRMXMX_PRIME);
    var x2, y2 := Xor64(x1, Add64(Shr64(x1, 35), len)), Xor64(y1, Add64(Shr64(y1, 35), len));
    XorShift64Injective(Mul64(x2, RRMXMX_PRIME), Mul64(y2, RRMXMX_PRIME), 28);
    MulInjective64(x2, y2, RRMXMX_PRIME, 192419422752744621, 120033450069394172);
    LengthMixed(x1, y1, len);
    MulInjective64(x0, y0, RRMXMX_PRIME, 192419422752744621, 120033450069394172);
    RotationsInjective(x, y);
  }

  // ----- one to three bytes -----

  lemma CombinedValue(input: seq<byte>, first: nat, middle: nat, last: nat)
    requires 1 <= |input| <= 3 && first == input[0] && middle == input[|input| / 2] && last == input[|input| - 1]
    ensures Combined(input) == last + 0x100 * |input| + 0x1_0000 * first + 0x100_0000 * middle
  {
    hide Or, Pow2;
    assert Pow2(0) == 1 && Pow2(8) == 0x100 && Pow2(16) == 0x1_0000 && Pow2(24) == 0x100_0000 by { SmallPowers(); }
    OrSwap(first * 0x1_0000, middle * 0x100_0000);
    OrIsSum(24, middle, first * 0x1_0000);
    OrSwap(last, |input| * 0x100);
    OrIsSum(8, |input|, last);
    OrIsSum(16, first + 0x100 * middle, last + 0x100 * |input|);
  }

  lemma SmallPowers()
    ensures Pow2(0) == 1 && Pow2(8) == 0x100 && Pow2(16) == 0x1_0000 && Pow2(24) == 0x100_0000
  {
    assert Pow2(8) == 0x100;
    assert Pow2(16) == 0x1_0000;
  }

  lemma {:induction false} OrSwap(x: nat, y: nat)
    ensures Or(x, y) == Or(y, x)
    decreases x + y
  {
    if x > 0 || y > 0 {
      OrSwap(x / 2, y / 2);
    }
  }

  lemma DigitsEqual(a0: byte, a1: byte, a2: byte, a3: byte, b0: byte, b1: byte, b2: byte, b3: byte)
    requires a0 + 0x100 * a1 + 0x1_0000 * a2 + 0x100_0000 * a3 == b0 + 0x100 * b1 + 0x1_0000 * b2 + 0x100_0000 * b3
    ensures a0 == b0 && a1 == b1 && a2 == b2 && a3 == b3
  {
    LowByte(a0, a1 + 0x100 * a2 + 0x1_0000 * a3);
    LowByte(b0, b1 + 0x100 * b2 + 0x1_0000 * b3);
    LowByte(a1, a2 + 0x100 * a3);
    LowByte(b1, b2 + 0x100 * b3);
    LowByte(a2, a3);
    LowByte(b2, b3);
  }

  /** Also texts of different lengths. */
  lemma CombinedInjective(a: seq<byte>, b: seq<byte>)
    requires 1 <= |a| <= 3 && 1 <= |b| <= 3 && Combined(a) == Combined(b)
    ensures a == b
  {
    hide Combined;
    CombinedValue(a, a[0], a[|a| / 2], a[|a| - 1]);
    CombinedValue(b, b[0], b[|b| / 2], b[|b| - 1]);
    DigitsEqual(a[|a| - 1], |a|, a[0], a[|a| / 2], b[|b| - 1], |b|, b[0], b[|b| / 2]);
    forall i | 0 <= i < |a| ensures a[i] == b[i] {
      assert i == 0 || i == |a| - 1 || i == |a| / 2;
    }
  }

  lemma Distinct1To3(a: seq<byte>, b: seq<byte>, secret: Secret, seed: u64)
    requires 1 <= |a| <= 3 && 1 <= |b| <= 3 && Len1To3(a, secret, seed) == Len1To3(b, secret, seed)
    ensures a == b
  {
    hide Combined, Xor, Xor32, Add64, Xxh64Avalanche;
    var bitflip := Add64(Xor32(ReadLE32(secret, 0), ReadLE32(secret, 4)), seed);
    Xxh64AvalancheInjective(Xor64(Combined(a), bitflip), Xor64(Combined(b), bitflip));
    XorInjective(Combined(a), Combined(b), bitflip);
    CombinedInjective(a, b);
  }

  // ----- four to eight bytes -----

  lemma Ends(a: seq<byte>, b: seq<byte>)
    requires |a| == |b| && 4 <= |a| <= 8
    requires ReadLE32(a, 0) == ReadLE32(b, 0) && ReadLE32(a, |a| - 4) == ReadLE32(b, |b| - 4)
    ensures a == b
  {
    hide LE;
    LEInjective(a[0..4], b[0..4]);
    LEInjective(a[|a| - 4..|a|], b[|b| - 4..|b|]);
    forall i | 0 <= i < |a| ensures a[i] == b[i] {
      if i < 4 {
        assert a[0..4][i] == b[0..4][i];
      } else {
        assert a[|a| - 4..|a|][i - (|a| - 4)] == b[|b| - 4..|b|][i - (|b| - 4)];
      }
    }
  }

  /** Two 32-bit words in one of 64 bits. */
  lemma Joined(low: u32, high: u32)
    ensures Add64(low, Shl64(high, 32)) == low + W32 * high
  {
    Pow2Values();
    assert high * W32 < W64;
  }

  lemma Distinct4To8(a: seq<byte>, b: seq<byte>, secret: Secret, seed: u64)
    requires |a| == |b| && 4 <= |a| <= 8 && Len4To8(a, secret, seed) == Len4To8(b, secret, seed)
    ensures a == b
  {
    hide Xor, Xor64, Add64, Sub64, Rrmxmx, SpreadSeed, ReadLE32, ReadLE64, Shl64;
    var bitflip := Sub64(Xor64(ReadLE64(secret, 8), ReadLE64(secret, 16)), SpreadSeed(seed));
    var n := |a|;
    var x := Add64(ReadLE32(a, n - 4), Shl64(ReadLE32(a, 0), 32));
    var y := Add64(ReadLE32(b, n - 4), Shl64(ReadLE32(b, 0), 32));
    RrmxmxInjective(Xor64(x, bitflip), Xor64(y, bitflip), n);
    Xor64Injective(x, y, bitflip);
    Joined(ReadLE32(a, n - 4), ReadLE32(a, 0));
    Joined(ReadLE32(b, n - 4), ReadLE32(b, 0));
    Ends(a, b);
  }

  lemma Xor64Injective(x: u64, y: u64, m: u64)
    requires Xor64(x, m) == Xor64(y, m)
    ensures x == y
  {
    XorInjective(x, y, m);
  }

  // ----- nine to sixteen bytes -----

  /** What the last mixing step of these is given: two keyed words, added and multiplied. */
  function Mixed(n: nat, lo: u64, hi: u64): u64
  {
    Add64(Add64(n + Swap64(lo), hi), Mul128Fold64(lo, hi))
  }

  function LowKey(secret: Secret, seed: u64): u64
  {
    Add64(Xor64(ReadLE64(secret, 24), ReadLE64(secret, 32)), seed)
  }

  function HighKey(secret: Secret, seed: u64): u64
  {
    Sub64(Xor64(ReadLE64(secret, 40), ReadLE64(secret, 48)), seed)
  }

  lemma MixedParts(input: seq<byte>, secret: Secret, seed: u64)
    requires 9 <= |input| <= 16
    ensures Len9To16(input, secret, seed) ==
            Avalanche(Mixed(|input|, Xor64(ReadLE64(input, 0), LowKey(secret, seed)),
                            Xor64(ReadLE64(input, |input| - 8), HighKey(secret, seed))))
  {
    hide Xor64, Mul128Fold64, Swap64, Avalanche, ReadLE64, Sub64;
  }

  lemma SwapInjective(x: u64, y: u64)
    requires Swap64(x) == Swap64(y)
    ensures x == y
  {
    hide LE, LEBytes, Reverse;
    var a, b := LEBytes(x, 8), LEBytes(y, 8);
    LEInjective(Reverse(a), Reverse(b));
    forall k | 0 <= k < 8 ensures a[k] == b[k] {
      assert Reverse(a)[7 - k] == Reverse(b)[7 - k];
    }
    assert a == b;
    Pow2Values();
    LoadStore(x, 8);
    LoadStore(y, 8);
  }

  lemma FoldZero(x: u64)
    ensures Mul128Fold64(0, x) == 0 && Mul128Fold64(x, 0) == 0
  {
    hide Mult64to128, Xor;
    Mult64to128Exact(0, x);
    Mult64to128Exact(x, 0);
    Nothing(Mult64to128(0, x));
    Nothing(Mult64to128(x, 0));
    XorZero(0);
  }

  lemma Nothing(m: U128)
    requires m.high64 * W64 + m.low64 == 0
    ensures m == U128(0, 0)
  {
  }

  lemma SwapZero()
    ensures Swap64(0) == 0
  {
    hide Reverse;
    ZeroBytes(8);
    var z := LEBytes(0, 8);
    assert Reverse(z) == z;
    Pow2Values();
    LoadStore(0, 8);
  }

  lemma {:induction false} ZeroBytes(n: nat)
    ensures forall k :: 0 <= k < n ==> LEBytes(0, n)[k] == 0
  {
    if n > 0 {
      ZeroBytes(n - 1);
    }
  }

  /** Multiplied by a power of two and folded, a word is rotated. */
  lemma BitFold(x: u64, p: nat, j: nat)
    requires p < 64 && j < 64 && Pow2(p) < W64
    ensures Bit(Mul128Fold64(Pow2(p), x), j) == Bit(x, From(p, 64, j))
  {
    hide Xor, Bit, Pow2, Halve, Mult64to128;
    Pow2Values();
    var m := Mult64to128(Pow2(p), x);
    Mult64to128Exact(Pow2(p), x);
    ModUnique(x * Pow2(p), W64, m.high64, m.low64);
    BitXor(m.low64, m.high64, j);
    BitShl(x, p, 64, j);
    ShiftIsHalve(x * Pow2(p), 64);
    BitHalve(x * Pow2(p), 64, j);
    DoubleIsShift(x, p);
    BitDouble(x, p, j + 64);
    if p <= j {
      NoHighBit(x, 64, j + 64 - p);
    }
  }

  lemma FoldInjective(x: u64, y: u64, p: nat)
    requires p < 64 && Pow2(p) < W64 && Mul128Fold64(Pow2(p), x) == Mul128Fold64(Pow2(p), y)
    ensures x == y
  {
    hide Bit, Pow2, Mul128Fold64;
    forall j | 0 <= j < 64 ensures Bit(x, j) == Bit(y, j) {
      var i := if p == 0 then j else Into(p, 64, j);
      BitFold(x, p, i);
      BitFold(y, p, i);
    }
    Pow2Values();
    BitsEqual(x, y, 64);
  }

  /** With the low word's key taken away, the high word comes through. */
  lemma MixedHigh(n: nat, hi: u64)
    ensures Mixed(n, 0, hi) == Add64(hi, n)
  {
    hide Mul128Fold64, Swap64;
    SwapZero();
    FoldZero(hi);
    AddModular(n, hi);
  }

  lemma MixedLow(n: nat, lo: u64)
    ensures Mixed(n, lo, 0) == Add64(Swap64(lo), n)
  {
    hide Mul128Fold64, Swap64;
    FoldZero(lo);
  }

  lemma WordAt(a: seq<byte>, pos: nat, w: u64)
    requires pos + 8 <= |a| && a[pos..pos + 8] == LEBytes(w, 8)
    ensures ReadLE64(a, pos) == w
  {
    Pow2Values();
    LoadStore(w, 8);
  }

  /** A byte of the last word only: the first word is chosen so that nothing of it is left. */
  lemma MattersLast(n: nat, i: nat, secret: Secret, seed: u64) returns (a: seq<byte>, b: seq<byte>)
    requires 9 <= n <= 16 && 8 <= i < n
    ensures |a| == n && OneByte(a, b, i) && Len9To16(a, secret, seed) != Len9To16(b, secret, seed)
  {
    hide Len9To16, LEBytes, LowKey, HighKey, Mixed, ReadLE64, Avalanche, Xor;
    var lowKey, highKey := LowKey(secret, seed), HighKey(secret, seed);
    a := LEBytes(lowKey, 8) + seq(n - 8, _ => 0);
    b := a[i := 1];
    WordAt(a, 0, lowKey);
    WordAt(b, 0, lowKey);
    XorSelf(lowKey);
    MixedParts(a, secret, seed);
    MixedParts(b, secret, seed);
    var x, y := Xor64(ReadLE64(a, n - 8), highKey), Xor64(ReadLE64(b, n - 8), highKey);
    if Len9To16(a, secret, seed) == Len9To16(b, secret, seed) {
      AvalancheInjective(Mixed(n, 0, x), Mixed(n, 0, y));
      MixedHigh(n, x);
      MixedHigh(n, y);
      AddInjective64(x, y, n);
      Xor64Injective(ReadLE64(a, n - 8), ReadLE64(b, n - 8), highKey);
      WordsDiffer(a, b, i, n - 8);
    }
  }

  /** A byte of the first word only: the last word is chosen so that nothing of it is left. */
  lemma MattersFirst(n: nat, i: nat, secret: Secret, seed: u64) returns (a: seq<byte>, b: seq<byte>)
    requires 9 <= n <= 16 && i < n - 8
    ensures |a| == n && OneByte(a, b, i) && Len9To16(a, secret, seed) != Len9To16(b, secret, seed)
  {
    hide Len9To16, LEBytes, LowKey, HighKey, Mixed, ReadLE64, Avalanche, Xor;
    var lowKey, highKey := LowKey(secret, seed), HighKey(secret, seed);
    a := seq(n - 8, _ => 0) + LEBytes(highKey, 8);
    b := a[i := 1];
    WordAt(a, n - 8, highKey);
    WordAt(b, n - 8, highKey);
    XorSelf(highKey);
    MixedParts(a, secret, seed);
    MixedParts(b, secret, seed);
    var x, y := Xor64(ReadLE64(a, 0), lowKey), Xor64(ReadLE64(b, 0), lowKey);
    if Len9To16(a, secret, seed) == Len9To16(b, secret, seed) {
      AvalancheInjective(Mixed(n, x, 0), Mixed(n, y, 0));
      MixedLow(n, x);
      MixedLow(n, y);
      AddInjective64(Swap64(x), Swap64(y), n);
      SwapInjective(x, y);
      Xor64Injective(ReadLE64(a, 0), ReadLE64(b, 0), lowKey);
      WordsDiffer(a, b, i, 0);
    }
  }

  lemma XorSelf(x: u64)
    ensures Xor64(x, x) == 0
  {
    hide Xor;
    XorSwap(0, x);
    XorZero(x);
    XorTwice(0, x);
  }

  // A byte of both words: one bit of it is changed. That rotates the high word into the sum, which
  // can keep the sum as it was for one high word at most.

  /** What changing the lowest bit of byte `i` does to a keyed word that starts at `pos`. */
  lemma KeyedFlip(a: seq<byte>, i: nat, pos: nat, key: u64)
    requires pos <= i < pos + 8 <= |a| && Pow2(8 * (i - pos)) < W64
    ensures var b := a[i := Flipped(a[i])];
            Xor64(ReadLE64(b, pos), key) == Xor64(Xor64(ReadLE64(a, pos), key), Pow2(8 * (i - pos)))
  {
    hide Xor, LE, Pow2;
    var b, p := a[i := Flipped(a[i])], Pow2(8 * (i - pos));
    var s := a[pos..pos + 8];
    assert b[pos..pos + 8] == s[i - pos := Flipped(s[i - pos])];
    LEFlipped(s, i - pos);
    var x := LE(s);
    XorAssoc(x, p, key);
    XorSwap(p, key);
    XorAssoc(x, key, p);
  }

  lemma BytePowers(k: nat)
    requires k < 8
    ensures Pow2(8 * k) < W64
  {
    Pow2Values();
    Pow2Grows(8 * k, 63);
  }

  lemma {:induction false} Pow2Grows(j: nat, k: nat)
    requires j <= k
    ensures Pow2(j) <= Pow2(k)
    decreases k
  {
    if j < k {
      Pow2Grows(j, k - 1);
    }
  }

  /** The sum is kept only by this rotated word. */
  lemma KeptBy(n: nat, low: u64, high: u64, changed: u64, d: int)
    requires Mixed(n, 0, high) == Mixed(n, low, changed) && changed == high + d
    ensures (Swap64(low) + d + Mul128Fold64(low, changed)) % W64 == 0
  {
    hide Swap64, Mul128Fold64;
    MixedHigh(n, high);
    var s, f := Swap64(low), Mul128Fold64(low, changed);
    AddModular(n + s, changed);
    AddModular(n + s + changed, f);
    Congruent(high + n, n + s + changed + f);
    assert n + s + changed + f - (high + n) == s + d + f;
  }

  lemma Congruent(x: nat, y: nat)
    requires x % W64 == y % W64
    ensures (y - x) % W64 == 0
  {
    ModUnique(y - x, W64, y / W64 - x / W64, 0);
  }

  lemma KeptByOne(c: int, f: u64, g: u64)
    requires (c + f) % W64 == 0 && (c + g) % W64 == 0
    ensures f == g
  {
  }

  lemma KeptOnce(n: nat, p: nat, q: nat, high0: u64, high1: u64)
    requires p < 64 && q < 56 && Pow2(p) < W64 && Pow2(q) < W64 && Pow2(56) < W64
    requires high1 == Xor64(high0, Pow2(56))
    ensures Mixed(n, 0, high0) != Mixed(n, Pow2(p), Xor64(high0, Pow2(q)))
            || Mixed(n, 0, high1) != Mixed(n, Pow2(p), Xor64(high1, Pow2(q)))
  {
    hide Mixed, Xor, Pow2, Bit, Mul128Fold64, Swap64;
    var k0, k1 := Xor64(high0, Pow2(q)), Xor64(high1, Pow2(q));
    BitXor(high0, Pow2(56), q);
    BitPow2(56, q);
    XorPow2(high0, q);
    XorPow2(high1, q);
    XorPow2(high0, 56);
    if Mixed(n, 0, high0) == Mixed(n, Pow2(p), k0) && Mixed(n, 0, high1) == Mixed(n, Pow2(p), k1) {
      KeptBy(n, Pow2(p), high0, k0, k0 - high0);
      KeptBy(n, Pow2(p), high1, k1, k1 - high1);
      KeptByOne(Swap64(Pow2(p)) + k0 - high0, Mul128Fold64(Pow2(p), k0), Mul128Fold64(Pow2(p), k1));
      FoldInjective(k0, k1, p);
    }
  }

  lemma MattersBoth(n: nat, i: nat, secret: Secret, seed: u64) returns (a: seq<byte>, b: seq<byte>)
    requires 9 <= n <= 16 && n - 8 <= i < 8
    ensures |a| == n && OneByte(a, b, i) && Len9To16(a, secret, seed) != Len9To16(b, secret, seed)
  {
    hide Len9To16, LEBytes, LowKey, HighKey, Mixed, ReadLE64, Avalanche, Xor, Pow2;
    var lowKey, highKey := LowKey(secret, seed), HighKey(secret, seed);
    var a0 := LEBytes(lowKey, 8) + seq(n - 8, _ => 0);
    var a1 := a0[n - 1 := Flipped(a0[n - 1])];
    var b0, b1 := a0[i := Flipped(a0[i])], a1[i := Flipped(a1[i])];
    var p, q := 8 * i, 8 * (i - (n - 8));
    BytePowers(i);
    BytePowers(i - (n - 8));
    BytePowers(7);
    LowZero(a0, i, lowKey);
    LowZero(a1, i, lowKey);
    var high0, high1 := Xor64(ReadLE64(a0, n - 8), highKey), Xor64(ReadLE64(a1, n - 8), highKey);
    KeyedFlip(a0, n - 1, n - 8, highKey);
    KeyedFlip(a0, i, n - 8, highKey);
    KeyedFlip(a1, i, n - 8, highKey);
    KeptOnce(n, p, q, high0, high1);
    MixedParts(a0, secret, seed);
    MixedParts(b0, secret, seed);
    MixedParts(a1, secret, seed);
    MixedParts(b1, secret, seed);
    if Mixed(n, 0, high0) != Mixed(n, Pow2(p), Xor64(high0, Pow2(q))) {
      a, b := a0, b0;
      if Len9To16(a, secret, seed) == Len9To16(b, secret, seed) {
        AvalancheInjective(Mixed(n, 0, high0), Mixed(n, Pow2(p), Xor64(high0, Pow2(q))));
      }
    } else {
      a, b := a1, b1;
      if Len9To16(a, secret, seed) == Len9To16(b, secret, seed) {
        AvalancheInjective(Mixed(n, 0, high1), Mixed(n, Pow2(p), Xor64(high1, Pow2(q))));
      }
    }
  }

  /** The first word is the key itself; one bit of it is changed. */
  lemma LowZero(a: seq<byte>, i: nat, key: u64)
    requires |a| >= 8 && a[0..8] == LEBytes(key, 8) && i < 8 && Pow2(8 * i) < W64
    ensures Xor64(ReadLE64(a, 0), key) == 0 && Xor64(ReadLE64(a[i := Flipped(a[i])], 0), key) == Pow2(8 * i)
  {
    hide LEBytes, Xor, ReadLE64;
    WordAt(a, 0, key);
    XorSelf(key);
    KeyedFlip(a, i, 0, key);
    XorSwap(0, Pow2(8 * i));
    XorZero(Pow2(8 * i));
  }

  /** Two texts of one length of up to eight bytes never have the same 64-bit hash. */
  lemma Distinct64(key: Key, a: seq<byte>, b: seq<byte>)
    requires |a| == |b| <= 8 && Hash64(key, a) == Hash64(key, b)
    ensures a == b
  {
    hide Len1To3, Len4To8, Len9To16, Xxh64Avalanche, KSecret;
    if |a| >= 4 {
      Distinct4To8(a, b, ShortSecret(key), ShortSeed(key));
    } else if |a| > 0 {
      Distinct1To3(a, b, ShortSecret(key), ShortSeed(key));
    }
  }

  /** No byte of a text of up to 16 bytes is passed over by the 64-bit hash, whatever the key. */
  lemma EveryByteMatters64(key: Key, n: nat, i: nat) returns (a: seq<byte>, b: seq<byte>)
    requires i < n <= 16
    ensures |a| == n && OneByte(a, b, i) && Hash64(key, a) != Hash64(key, b)
  {
    hide Len1To3, Len4To8, Len9To16, Xxh64Avalanche, KSecret;
    var secret, seed := ShortSecret(key), ShortSeed(key);
    if n <= 8 {
      a := seq(n, _ => 0);
      b := a[i := 1];
      assert a[i] != b[i];
      if Hash64(key, a) == Hash64(key, b) {
        Distinct64(key, a, b);
      }
    } else if i >= 8 {
      a, b := MattersLast(n, i, secret, seed);
    } else if i < n - 8 {
      a, b := MattersFirst(n, i, secret, seed);
    } else {
      a, b := MattersBoth(n, i, secret, seed);
    }
  }

  // ----- the 128-bit hash -----

  /** Both halves of a product with an odd number give the other factor back. */
  lemma ProductInjective(x: u64, y: u64, factor: u64, inverse: nat, q: nat)
    requires factor * inverse == q * W64 + 1 && Mult64to128(x, factor).low64 == Mult64to128(y, factor).low64
    ensures x == y
  {
    hide Mult64to128;
    var m, k := Mult64to128(x, factor), Mult64to128(y, factor);
    Mult64to128Exact(x, factor);
    Mult64to128Exact(y, factor);
    ModUnique(x * factor, W64, m.high64, m.low64);
    ModUnique(y * factor, W64, k.high64, k.low64);
    MulInjective64(x, y, factor, inverse, q);
  }

  /** The multipliers of the four-to-eight-byte form and their inverses. */
  lemma LengthFactor(len: nat) returns (inverse: nat, q: nat)
    requires 4 <= len <= 8
    ensures Add64(PRIME64_1, 4 * len) * inverse == q * W64 + 1
  {
    match len {
      case 4 => inverse, q := 14235818232743220519, 8798219499070336352;
      case 5 => inverse, q := 17538525664608652179, 10839404940728194148;
      case 6 => inverse, q := 5347250228291227999, 3304782377506827924;
      case 7 => inverse, q := 8261976180446476555, 5106182078418647134;
      case 8 => inverse, q := 7089167629660798231, 4381346533914044807;
    }
  }

  lemma Wide4To8(a: seq<byte>, b: seq<byte>, secret: Secret, seed: u64)
    requires |a| == |b| && 4 <= |a| <= 8 && Len4To8_128(a, secret, seed) == Len4To8_128(b, secret, seed)
    ensures a == b
  {
    hide Xor, Xor64, Add64, SpreadSeed, ReadLE32, ReadLE64, Shl64, Shr64, Mult64to128, Mul64, Avalanche;
    var n, factor := |a|, Add64(PRIME64_1, 4 * |a|);
    var bitflip := Add64(Xor64(ReadLE64(secret, 16), ReadLE64(secret, 24)), SpreadSeed(seed));
    var x := Add64(ReadLE32(a, 0), Shl64(ReadLE32(a, n - 4), 32));
    var y := Add64(ReadLE32(b, 0), Shl64(ReadLE32(b, n - 4), 32));
    var m, k := Mult64to128(Xor64(x, bitflip), factor), Mult64to128(Xor64(y, bitflip), factor);
    var high, high' := Add64(m.high64, Shl64(m.low64, 1)), Add64(k.high64, Shl64(k.low64, 1));
    var low, low' := Xor64(m.low64, Shr64(high, 3)), Xor64(k.low64, Shr64(high', 3));
    AvalancheInjective(high, high');
    XorShift64Injective(Mul64(XorShift64(low, 35), RRMXMX_PRIME), Mul64(XorShift64(low', 35), RRMXMX_PRIME), 28);
    MulInjective64(XorShift64(low, 35), XorShift64(low', 35), RRMXMX_PRIME, 192419422752744621, 120033450069394172);
    XorShift64Injective(low, low', 35);
    Xor64Injective(m.low64, k.low64, Shr64(high, 3));
    var inverse, q := LengthFactor(n);
    ProductInjective(Xor64(x, bitflip), Xor64(y, bitflip), factor, inverse, q);
    Xor64Injective(x, y, bitflip);
    Joined(ReadLE32(a, 0), ReadLE32(a, n - 4));
    Joined(ReadLE32(b, 0), ReadLE32(b, n - 4));
    Ends(a, b);
  }

  /** What the nine-to-sixteen-byte form makes of the high word before it adds it. */
  function HighMixed(hi: u64): u64
  {
    Add64(hi, Mult32to64(hi, PRIME32_2 - 1))
  }

  lemma HighMixedInjective(x: u64, y: u64)
    requires HighMixed(x) == HighMixed(y)
    ensures x == y
  {
    hide Mult32to64;
    ShortProduct(x, PRIME32_2 - 1);
    ShortProduct(y, PRIME32_2 - 1);
    HalvesMixed(x, x / W32, x % W32);
    HalvesMixed(y, y / W32, y % W32);
    var p, q := x % W32 * PRIME32_2, y % W32 * PRIME32_2;
    SameLow(x / W32, p, y / W32, q);
    MulInjective32(x % W32, y % W32, PRIME32_2, 3066638151, 1604247758);
  }

  lemma HalvesMixed(x: u64, high: nat, low: nat)
    requires high == x / W32 && low == x % W32
    ensures (x + low * (PRIME32_2 - 1)) % W64 == (high * W32 + low * PRIME32_2) % W64
  {
  }

  lemma SameLow(h: nat, p: nat, k: nat, q: nat)
    requires h < W32 && k < W32 && (h * W32 + p) % W64 == (k * W32 + q) % W64
    ensures p % W32 == q % W32 && (p == q ==> h == k)
  {
    var d := (h * W32 + p) / W64 - (k * W32 + q) / W64;
    assert h * W32 + p - (k * W32 + q) == d * W64;
    assert p == q + (d * W32 - h + k) * W32;
    ModUnique(p, W32, q / W32 + (d * W32 - h + k), q % W32);
  }

  lemma Ends16(a: seq<byte>, b: seq<byte>)
    requires |a| == |b| && 9 <= |a| <= 16
    requires ReadLE64(a, 0) == ReadLE64(b, 0) && ReadLE64(a, |a| - 8) == ReadLE64(b, |b| - 8)
    ensures a == b
  {
    hide LE;
    LEInjective(a[0..8], b[0..8]);
    LEInjective(a[|a| - 8..|a|], b[|b| - 8..|b|]);
    forall i | 0 <= i < |a| ensures a[i] == b[i] {
      if i < 8 {
        assert a[0..8][i] == b[0..8][i];
      } else {
        assert a[|a| - 8..|a|][i - (|a| - 8)] == b[|b| - 8..|b|][i - (|b| - 8)];
      }
    }
  }

  /** The two outer products and sums of that form. */
  function WideOf(n: nat, x: u64, hi: u64): U128
    requires 0 < n <= 16
  {
    var m := Mult64to128(x, PRIME64_1);
    var high := Add64(m.high64, HighMixed(hi));
    var h := Mult64to128(Xor64(Add64(m.low64, Shl64(n - 1, 54)), Swap64(high)), PRIME64_2);
    U128(Avalanche(h.low64), Avalanche(Add64(h.high64, Mul64(high, PRIME64_2))))
  }

  lemma WideParts(input: seq<byte>, secret: Secret, seed: u64)
    requires 9 <= |input| <= 16
    ensures var bitflipl := Sub64(Xor64(ReadLE64(secret, 32), ReadLE64(secret, 40)), seed);
            var bitfliph := Add64(Xor64(ReadLE64(secret, 48), ReadLE64(secret, 56)), seed);
            Len9To16_128(input, secret, seed) ==
            WideOf(|input|, Xor64(Xor64(ReadLE64(input, 0), ReadLE64(input, |input| - 8)), bitflipl),
                   Xor64(ReadLE64(input, |input| - 8), bitfliph))
  {
    hide Xor64, Add64, Sub64, Shl64, Mult64to128, Mult32to64, Mul64, Avalanche, ReadLE64, Swap64;
  }

  lemma WideOfInjective(n: nat, x: u64, hi: u64, y: u64, hi': u64)
    requires 0 < n <= 16 && WideOf(n, x, hi) == WideOf(n, y, hi')
    ensures x == y && hi == hi'
  {
    hide Xor64, Add64, Shl64, Mult64to128, Mul64, Avalanche, Swap64, HighMixed;
    var len := Shl64(n - 1, 54);
    var m, k := Mult64to128(x, PRIME64_1), Mult64to128(y, PRIME64_1);
    var high, high' := Add64(m.high64, HighMixed(hi)), Add64(k.high64, HighMixed(hi'));
    var u, v := Xor64(Add64(m.low64, len), Swap64(high)), Xor64(Add64(k.low64, len), Swap64(high'));
    var h, h' := Mult64to128(u, PRIME64_2), Mult64to128(v, PRIME64_2);
    AvalancheInjective(h.low64, h'.low64);
    ProductInjective(u, v, PRIME64_2, 839798700976720815, 638699622168397319);
    var p, p' := Mul64(high, PRIME64_2), Mul64(high', PRIME64_2);
    AvalancheInjective(Add64(h.high64, p), Add64(h.high64, p'));
    AddLeft(h.high64, p, p');
    MulInjective64(high, high', PRIME64_2, 839798700976720815, 638699622168397319);
    Xor64Injective(Add64(m.low64, len), Add64(k.low64, len), Swap64(high));
    AddInjective64(m.low64, k.low64, len);
    ProductInjective(x, y, PRIME64_1, 614540362697595703, 379806830464837242);
    AddLeft(m.high64, HighMixed(hi), HighMixed(hi'));
    HighMixedInjective(hi, hi');
  }

  lemma AddLeft(c: u64, x: u64, y: u64)
    requires Add64(c, x) == Add64(c, y)
    ensures x == y
  {
    AddInjective64(x, y, c);
  }

  lemma Wide9To16(a: seq<byte>, b: seq<byte>, secret: Secret, seed: u64)
    requires |a| == |b| && 9 <= |a| <= 16 && Len9To16_128(a, secret, seed) == Len9To16_128(b, secret, seed)
    ensures a == b
  {
    hide Len9To16_128, WideOf, Xor, Sub64, Add64, ReadLE64;
    var n := |a|;
    var bitflipl := Sub64(Xor64(ReadLE64(secret, 32), ReadLE64(secret, 40)), seed);
    var bitfliph := Add64(Xor64(ReadLE64(secret, 48), ReadLE64(secret, 56)), seed);
    WideParts(a, secret, seed);
    WideParts(b, secret, seed);
    var lo, hi, lo', hi' := ReadLE64(a, 0), ReadLE64(a, n - 8), ReadLE64(b, 0), ReadLE64(b, n - 8);
    WideOfInjective(n, Xor64(Xor64(lo, hi), bitflipl), Xor64(hi, bitfliph),
                    Xor64(Xor64(lo', hi'), bitflipl), Xor64(hi', bitfliph));
    Xor64Injective(hi, hi', bitfliph);
    Xor64Injective(Xor64(lo, hi), Xor64(lo', hi'), bitflipl);
    Xor64Injective(lo, lo', hi);
    Ends16(a, b);
  }

  /** Two texts of one length of up to 16 bytes never have the same 128-bit hash. */
  lemma Distinct128(key: Key, a: seq<byte>, b: seq<byte>)
    requires |a| == |b| <= 16 && Hash128(key, a) == Hash128(key, b)
    ensures a == b
  {
    hide Len4To8_128, Len9To16_128, Xxh64Avalanche, KSecret, Combined, Rotl32, Swap32, Xor;
    if |a| > 8 {
      Wide9To16(a, b, ShortSecret(key), ShortSeed(key));
    } else if |a| >= 4 {
      Wide4To8(a, b, ShortSecret(key), ShortSeed(key));
    } else if |a| > 0 {
      Distinct1To3(a, b, ShortSecret(key), ShortSeed(key));
    }
  }
}
