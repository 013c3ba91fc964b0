/** What the steps of the hashes keep of a word: none of exclusive or, rotation, shifting into itself
    and multiplication by an odd number ever makes two words one. */
module Bits {
  import opened Words

  // ----- words as their bits -----

  lemma {:induction false} BitXor(x: nat, y: nat, j: nat)
    ensures Bit(Xor(x, y), j) == (Bit(x, j) != Bit(y, j))
    decreases j
  {
    hide Xor;
    XorHalves(x, y);
    if j > 0 {
      BitXor(x / 2, y / 2, j - 1);
    }
  }

  lemma OrHalves(x: nat, y: nat)
    ensures Or(x, y) % 2 == (if x % 2 == 1 || y % 2 == 1 then 1 else 0) && Or(x, y) / 2 == Or(x / 2, y / 2)
  {
  }

  lemma {:induction false} BitOr(x: nat, y: nat, j: nat)
    ensures Bit(Or(x, y), j) == (Bit(x, j) || Bit(y, j))
    decreases j
  {
    hide Or;
    OrHalves(x, y);
    if j > 0 {
      BitOr(x / 2, y / 2, j - 1);
    }
  }

  lemma {:induction false} BitHalve(x: nat, k: nat, j: nat)
    ensures Bit(Halve(x, k), j) == Bit(x, j + k)
    decreases k
  {
    if k > 0 {
      BitHalve(x / 2, k - 1, j);
    }
  }

  lemma {:induction false} BitDouble(x: nat, k: nat, j: nat)
    ensures Bit(Double(x, k), j) == (j >= k && Bit(x, j - k))
    decreases k
  {
    if k > 0 {
      Even(Double(x, k - 1));
      if j > 0 {
        BitDouble(x, k - 1, j - 1);
      }
    }
  }

  lemma {:induction false} BitMod(x: nat, n: nat, j: nat)
    ensures Bit(x % Pow2(n), j) == (j < n && Bit(x, j))
    decreases n
  {
    if n == 0 {
      assert x % 1 == 0;
      NoBit(j);
    } else {
      var p := Pow2(n - 1);
      ModTwice(x, p);
      LowBit(x / 2 % p, x % 2);
      if j > 0 {
        BitMod(x / 2, n - 1, j - 1);
      }
    }
  }

  lemma LowBit(q: nat, r: nat)
    requires r < 2
    ensures (2 * q + r) / 2 == q && (2 * q + r) % 2 == r
  {
  }

  lemma {:induction false} NoBit(j: nat)
    ensures !Bit(0, j)
  {
    if j > 0 {
      NoBit(j - 1);
    }
  }

  /** Words with the same bits are the same. */
  lemma {:induction false} BitsEqual(x: nat, y: nat, n: nat)
    requires x < Pow2(n) && y < Pow2(n) && forall j :: 0 <= j < n ==> Bit(x, j) == Bit(y, j)
    ensures x == y
    decreases n
  {
    if n > 0 {
      assert Bit(x, 0) == Bit(y, 0);
      forall j | 0 <= j < n - 1 ensures Bit(x / 2, j) == Bit(y / 2, j) {
        assert Bit(x, j + 1) == Bit(y, j + 1);
      }
      BitsEqual(x / 2, y / 2, n - 1);
    }
  }

  lemma {:induction false} NoHighBit(x: nat, n: nat, j: nat)
    requires x < Pow2(n) && n <= j
    ensures !Bit(x, j)
    decreases n
  {
    if n == 0 {
      NoBit(j);
    } else {
      NoHighBit(x / 2, n - 1, j - 1);
    }
  }

  // ----- shifts and rotations -----

  lemma BitShl(x: nat, k: nat, n: nat, j: nat)
    ensures Bit(x * Pow2(k) % Pow2(n), j) == (k <= j < n && Bit(x, j - k))
  {
    hide Bit, Pow2;
    DoubleIsShift(x, k);
    BitMod(x * Pow2(k), n, j);
    BitDouble(x, k, j);
  }

  /** The bit that a rotation to the left by `n` takes to place `j`. */
  function From(n: nat, width: nat, j: nat): nat
    requires j < width && n <= width
  {
    if n <= j then j - n else j + width - n
  }

  lemma BitRotl64(x: u64, n: nat, j: nat)
    requires 0 < n < 64 && j < 64
    ensures Bit(Rotl64(x, n), j) == Bit(x, From(n, 64, j))
  {
    hide Or, Bit, Pow2, Halve;
    Pow2Values();
    BitOr(Shl64(x, n), Shr64(x, 64 - n), j);
    BitShl(x, n, 64, j);
    ShiftIsHalve(x, 64 - n);
    BitHalve(x, 64 - n, j);
    if n <= j {
      NoHighBit(x, 64, j + 64 - n);
    }
  }

  lemma BitRotl32(x: u32, n: nat, j: nat)
    requires 0 < n < 32 && j < 32
    ensures Bit(Rotl32(x, n), j) == Bit(x, From(n, 32, j))
  {
    hide Or, Bit, Pow2, Halve;
    Pow2Values();
    BitOr(Shl32(x, n), Shr32(x, 32 - n), j);
    BitShl(x, n, 32, j);
    ShiftIsHalve(x, 32 - n);
    BitHalve(x, 32 - n, j);
    if n <= j {
      NoHighBit(x, 32, j + 32 - n);
    }
  }

  /** The place to which a rotation takes bit `j`. */
  function Into(n: nat, width: nat, j: nat): (i: nat)
    requires j < width && n <= width
    ensures n > 0 ==> i < width && From(n, width, i) == j
  {
    if j + n < width then j + n else j + n - width
  }

  lemma Rotl64Injective(x: u64, y: u64, n: nat)
    requires 0 < n < 64 && Rotl64(x, n) == Rotl64(y, n)
    ensures x == y
  {
    hide Rotl64, Bit, Pow2;
    forall j | 0 <= j < 64 ensures Bit(x, j) == Bit(y, j) {
      BitRotl64(x, n, Into(n, 64, j));
      BitRotl64(y, n, Into(n, 64, j));
    }
    Pow2Values();
    BitsEqual(x, y, 64);
  }

  lemma Rotl32Injective(x: u32, y: u32, n: nat)
    requires 0 < n < 32 && Rotl32(x, n) == Rotl32(y, n)
    ensures x == y
  {
    hide Rotl32, Bit, Pow2;
    forall j | 0 <= j < 32 ensures Bit(x, j) == Bit(y, j) {
      BitRotl32(x, n, Into(n, 32, j));
      BitRotl32(y, n, Into(n, 32, j));
    }
    Pow2Values();
    BitsEqual(x, y, 32);
  }

  // ----- exclusive or -----

  lemma XorInjective(x: nat, y: nat, m: nat)
    requires Xor(x, m) == Xor(y, m)
    ensures x == y
  {
    XorTwice(x, m);
    XorTwice(y, m);
  }

  lemma {:induction false} XorSwap(x: nat, y: nat)
    ensures Xor(x, y) == Xor(y, x)
    decreases x + y
  {
    if x > 0 || y > 0 {
      XorSwap(x / 2, y / 2);
    }
  }

  /** A word and itself shifted to the right: the bits are known from the top down. */
  lemma {:induction false} XorShiftBits(x: nat, y: nat, k: nat, n: nat, j: nat)
    requires k > 0 && x < Pow2(n) && y < Pow2(n) && Xor(x, Halve(x, k)) == Xor(y, Halve(y, k))
    ensures Bit(x, j) == Bit(y, j)
    decreases n - j
  {
    hide Xor, Bit, Pow2, Halve;
    if j >= n {
      NoHighBit(x, n, j);
      NoHighBit(y, n, j);
    } else {
      XorShiftBits(x, y, k, n, j + k);
      BitXor(x, Halve(x, k), j);
      BitXor(y, Halve(y, k), j);
      BitHalve(x, k, j);
      BitHalve(y, k, j);
    }
  }

  lemma XorShiftInjective(x: nat, y: nat, k: nat, n: nat)
    requires k > 0 && x < Pow2(n) && y < Pow2(n) && Xor(x, Halve(x, k)) == Xor(y, Halve(y, k))
    ensures x == y
  {
    hide Xor, Bit, Pow2, Halve;
    forall j | 0 <= j < n ensures Bit(x, j) == Bit(y, j) {
      XorShiftBits(x, y, k, n, j);
    }
    BitsEqual(x, y, n);
  }

  lemma XorShift64Injective(x: u64, y: u64, k: nat)
    requires 0 < k && Xor64(x, Shr64(x, k)) == Xor64(y, Shr64(y, k))
    ensures x == y
  {
    hide Xor, Halve, Pow2;
    Pow2Values();
    ShiftIsHalve(x, k);
    ShiftIsHalve(y, k);
    XorShiftInjective(x, y, k, 64);
  }

  lemma XorShift32Injective(x: u32, y: u32, k: nat)
    requires 0 < k && Xor32(x, Shr32(x, k)) == Xor32(y, Shr32(y, k))
    ensures x == y
  {
    hide Xor, Halve, Pow2;
    Pow2Values();
    ShiftIsHalve(x, k);
    ShiftIsHalve(y, k);
    XorShiftInjective(x, y, k, 32);
  }

  // ----- three rotations of one word -----

  /** Bit `j` of a word, exclusive-or-ed with those `s` and `t` places above it, counted round. */
  ghost predicate Tri(x: nat, s: nat, t: nat, j: nat)
  {
    (Bit(x, j) != Bit(x, (j + s) % 64)) != Bit(x, (j + t) % 64)
  }

  ghost predicate TriSame(x: nat, y: nat, s: nat, t: nat)
  {
    forall j :: 0 <= j < 64 ==> Tri(x, s, t, j) == Tri(y, s, t, j)
  }

  /** Twice the same step is the step with both distances doubled. */
  lemma TriTwice(x: nat, s: nat, t: nat, j: nat)
    requires s < 64 && t < 64 && j < 64
    ensures Tri(x, 2 * s % 64, 2 * t % 64, j) ==
            ((Tri(x, s, t, j) != Tri(x, s, t, (j + s) % 64)) != Tri(x, s, t, (j + t) % 64))
  {
    hide Bit;
    CountedOn(j, s, s);
    CountedOn(j, s, t);
    CountedOn(j, t, s);
    CountedOn(j, t, t);
  }

  lemma CountedOn(j: nat, s: nat, t: nat)
    requires j < 64 && s < 64 && t < 64
    ensures ((j + s) % 64 + t) % 64 == (j + (s + t) % 64) % 64
  {
  }

  lemma TriDoubled(x: nat, y: nat, s: nat, t: nat)
    requires s < 64 && t < 64 && TriSame(x, y, s, t)
    ensures TriSame(x, y, 2 * s % 64, 2 * t % 64)
  {
    hide Tri;
    forall j | 0 <= j < 64 ensures Tri(x, 2 * s % 64, 2 * t % 64, j) == Tri(y, 2 * s % 64, 2 * t % 64, j) {
      TriTwice(x, s, t, j);
      TriTwice(y, s, t, j);
    }
  }

  lemma BitTri(x: u64, j: nat)
    requires j < 64
    ensures Bit(Xor64(x, Xor64(Rotl64(x, 49), Rotl64(x, 24))), j) == Tri(x, 15, 40, j)
  {
    hide Xor, Rotl64, Bit;
    BitXor(x, Xor64(Rotl64(x, 49), Rotl64(x, 24)), j);
    BitXor(Rotl64(x, 49), Rotl64(x, 24), j);
    BitRotl64(x, 49, j);
    BitRotl64(x, 24, j);
  }

  /** After six doublings both distances have come round to nothing. */
  lemma RotationsInjective(x: u64, y: u64)
    requires Xor64(x, Xor64(Rotl64(x, 49), Rotl64(x, 24))) == Xor64(y, Xor64(Rotl64(y, 49), Rotl64(y, 24)))
    ensures x == y
  {
    hide Xor64, Rotl64, Bit, Pow2, Tri;
    forall j | 0 <= j < 64 ensures Tri(x, 15, 40, j) == Tri(y, 15, 40, j) {
      BitTri(x, j);
      BitTri(y, j);
    }
    TriDoubled(x, y, 15, 40);
    TriDoubled(x, y, 30, 16);
    TriDoubled(x, y, 60, 32);
    TriDoubled(x, y, 56, 0);
    TriDoubled(x, y, 48, 0);
    TriDoubled(x, y, 32, 0);
    forall j | 0 <= j < 64 ensures Bit(x, j) == Bit(y, j) {
      TriNone(x, j);
      TriNone(y, j);
    }
    Pow2Values();
    BitsEqual(x, y, 64);
  }

  lemma TriNone(x: nat, j: nat)
    requires j < 64
    ensures Tri(x, 0, 0, j) == Bit(x, j)
  {
  }

  // ----- sums and products -----

  lemma AddInjective64(x: u64, y: u64, c: nat)
    requires Add64(x, c) == Add64(y, c)
    ensures x == y
  {
    var q, r := (x + c) / W64, (y + c) / W64;
    assert x - y == (q - r) * W64;
  }

  lemma AddInjective32(x: u32, y: u32, c: nat)
    requires Add32(x, c) == Add32(y, c)
    ensures x == y
  {
    var q, r := (x + c) / W32, (y + c) / W32;
    assert x - y == (q - r) * W32;
  }

  /** Multiplication by a number that has an inverse modulo `m`. */
  lemma MulInverse(x: nat, factor: nat, inverse: nat, q: nat, m: nat)
    requires m > 0 && x < m && factor * inverse == q * m + 1
    ensures x * factor % m * inverse % m == x
  {
    var d, r := x * factor / m, x * factor % m;
    assert x * factor == d * m + r;
    assert r * inverse == (x * q - d * inverse) * m + x by {
      assert r * inverse == x * factor * inverse - d * m * inverse;
      assert x * factor * inverse == x * (factor * inverse) == x * (q * m + 1) == x * q * m + x;
      assert d * m * inverse == d * inverse * m;
    }
    ModUnique(r * inverse, m, x * q - d * inverse, x);
  }

  lemma MulInjective64(x: u64, y: u64, factor: nat, inverse: nat, q: nat)
    requires factor * inverse == q * W64 + 1 && Mul64(x, factor) == Mul64(y, factor)
    ensures x == y
  {
    MulInverse(x, factor, inverse, q, W64);
    MulInverse(y, factor, inverse, q, W64);
  }

  lemma MulInjective32(x: u32, y: u32, factor: nat, inverse: nat, q: nat)
    requires factor * inverse == q * W32 + 1 && Mul32(x, factor) == Mul32(y, factor)
    ensures x == y
  {
    MulInverse(x, factor, inverse, q, W32);
    MulInverse(y, factor, inverse, q, W32);
  }

  // ----- words in memory -----

  lemma LEInjective(a: seq<byte>, b: seq<byte>)
    requires |a| == |b| && LE(a) == LE(b)
    ensures a == b
  {
    StoreLoad(a);
    StoreLoad(b);
  }

  // ----- one bit changed -----

  /** Two texts that differ in byte `i` and nowhere else. */
  ghost predicate OneByte(a: seq<byte>, b: seq<byte>, i: nat)
  {
    |a| == |b| && i < |a| && a[i] != b[i] && forall k :: 0 <= k < |a| && k != i ==> a[k] == b[k]
  }

  lemma SameLength(a: seq<byte>, b: seq<byte>, i: nat)
    requires OneByte(a, b, i)
    ensures |a| == |b|
  {
  }

  lemma WordsDiffer(a: seq<byte>, b: seq<byte>, i: nat, pos: nat)
    requires OneByte(a, b, i) && pos <= i < pos + 8 <= |a|
    ensures ReadLE64(a, pos) != ReadLE64(b, pos)
  {
    hide LE;
    var s, t := a[pos..pos + 8], b[pos..pos + 8];
    assert s[i - pos] != t[i - pos];
    if LE(s) == LE(t) {
      LEInjective(s, t);
    }
  }

  lemma WordsSame(a: seq<byte>, b: seq<byte>, i: nat, pos: nat)
    requires OneByte(a, b, i) && pos + 8 <= |a| && !(pos <= i < pos + 8)
    ensures ReadLE64(a, pos) == ReadLE64(b, pos)
  {
    assert a[pos..pos + 8] == b[pos..pos + 8];
  }

  lemma HalfWordsDiffer(a: seq<byte>, b: seq<byte>, i: nat, pos: nat)
    requires OneByte(a, b, i) && pos <= i < pos + 4 <= |a|
    ensures ReadLE32(a, pos) != ReadLE32(b, pos)
  {
    hide LE;
    var s, t := a[pos..pos + 4], b[pos..pos + 4];
    assert s[i - pos] != t[i - pos];
    if LE(s) == LE(t) {
      LEInjective(s, t);
    }
  }

  lemma HalfWordsSame(a: seq<byte>, b: seq<byte>, i: nat, pos: nat)
    requires OneByte(a, b, i) && pos + 4 <= |a| && !(pos <= i < pos + 4)
    ensures ReadLE32(a, pos) == ReadLE32(b, pos)
  {
    assert a[pos..pos + 4] == b[pos..pos + 4];
  }

  lemma {:induction false} XorAssoc(x: nat, y: nat, z: nat)
    ensures Xor(Xor(x, y), z) == Xor(x, Xor(y, z))
    decreases x + y + z
  {
    hide Xor;
    if x > 0 || y > 0 || z > 0 {
      XorAssoc(x / 2, y / 2, z / 2);
      XorHalves(x, y);
      XorHalves(Xor(x, y), z);
      XorHalves(y, z);
      XorHalves(x, Xor(y, z));
    } else {
      XorZero(0);
    }
  }

  /** Changing bit `p` adds or takes away its weight. */
  lemma {:induction false} XorPow2(x: nat, p: nat)
    ensures Xor(x, Pow2(p)) == if Bit(x, p) then x - Pow2(p) else x + Pow2(p)
    decreases p
  {
    hide Xor;
    XorHalves(x, Pow2(p));
    if p > 0 {
      XorPow2(x / 2, p - 1);
    } else {
      XorZero(x / 2);
    }
  }

  lemma {:induction false} BitPow2(p: nat, j: nat)
    ensures Bit(Pow2(p), j) == (j == p)
    decreases p
  {
    if p > 0 {
      Even(Pow2(p - 1));
      if j > 0 {
        BitPow2(p - 1, j - 1);
      }
    } else if j > 0 {
      NoBit(j - 1);
    }
  }

  /** A byte with its lowest bit changed. */
  function Flipped(b: byte): byte
  {
    if b % 2 == 0 then b + 1 else b - 1
  }

  /** Changing the lowest bit of one byte of a word in memory. */
  lemma {:induction false} LEFlipped(s: seq<byte>, j: nat)
    requires j < |s|
    ensures LE(s[j := Flipped(s[j])]) == Xor(LE(s), Pow2(8 * j))
    decreases j
  {
    hide Xor, Flipped;
    var t := s[j := Flipped(s[j])];
    if j == 0 {
      assert t[1..] == s[1..];
      LowFlipped(s[0], LE(s[1..]));
    } else {
      var u := s[1..];
      assert t[1..] == u[j - 1 := Flipped(u[j - 1])];
      LEFlipped(u, j - 1);
      Pow2Times256(8 * j - 8);
      HigherFlipped(s[0], LE(u), Pow2(8 * j - 8), LE(t[1..]));
    }
  }

  lemma LowFlipped(b: byte, x: nat)
    ensures Flipped(b) + 256 * x == Xor(b + 256 * x, Pow2(0))
  {
    hide Xor;
    XorPow2(b + 256 * x, 0);
  }

  lemma HigherFlipped(b: byte, x: nat, p: nat, y: nat)
    requires y == Xor(x, p)
    ensures b + 256 * y == Xor(b + 256 * x, 256 * p)
  {
    hide Xor;
    XorAbove(b, 0, x, p);
    XorZero(b);
  }

  lemma XorAbove(b: byte, c: byte, x: nat, y: nat)
    ensures Xor(b + 256 * x, c + 256 * y) == Xor(b, c) + 256 * Xor(x, y)
  {
    hide Xor, Double;
    Pow2Values();
    DoubleIsShift(x, 8);
    DoubleIsShift(y, 8);
    DoubleIsShift(Xor(x, y), 8);
    XorDoubled(b, c, x, y, 8);
  }

  lemma {:induction false} XorDoubled(r: nat, s: nat, x: nat, y: nat, k: nat)
    requires r < Pow2(k) && s < Pow2(k)
    ensures Xor(r + Double(x, k), s + Double(y, k)) == Xor(r, s) + Double(Xor(x, y), k)
    decreases k
  {
    hide Xor;
    if k == 0 {
      XorZero(0);
    } else {
      XorDoubled(r / 2, s / 2, x, y, k - 1);
      XorHalves(r + Double(x, k), s + Double(y, k));
      XorHalves(r, s);
      Even(Double(y, k - 1));
    }
  }
}
