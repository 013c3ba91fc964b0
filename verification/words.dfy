/** Fixed-width machine words as bounded naturals.

    Every C operator the hash code applies to `xxh_u32`/`xxh_u64` has a counterpart here: sums,
    products and left shifts wrap explicitly, and the bitwise operators are defined bit by bit. */
module Words {

  const W8 := 0x100
  const W32 := 0x1_0000_0000
  const W64 := 0x1_0000_0000_0000_0000

  type byte = x: int | 0 <= x < W8
  type u32 = x: int | 0 <= x < W32
  type u64 = x: int | 0 <= x < W64

  function Pow2(n: nat): (p: nat)
    ensures p > 0
  {
    if n == 0 then 1 else 2 * Pow2(n - 1)
  }

  // ----- bitwise operators -----

  function And(x: nat, y: nat): nat
    decreases x
  {
    if x == 0 || y == 0 then 0 else (if x % 2 == 1 && y % 2 == 1 then 1 else 0) + 2 * And(x / 2, y / 2)
  }

  function Or(x: nat, y: nat): nat
    decreases x + y
  {
    if x == 0 && y == 0 then 0 else (if x % 2 == 1 || y % 2 == 1 then 1 else 0) + 2 * Or(x / 2, y / 2)
  }

  function Xor(x: nat, y: nat): nat
    decreases x + y
  {
    if x == 0 && y == 0 then 0 else (if x % 2 != y % 2 then 1 else 0) + 2 * Xor(x / 2, y / 2)
  }

  /** A bitwise combination of two `n`-bit words is an `n`-bit word. */
  lemma {:induction false} BitwiseBound(n: nat, x: nat, y: nat)
    requires x < Pow2(n) && y < Pow2(n)
    ensures And(x, y) < Pow2(n) && Or(x, y) < Pow2(n) && Xor(x, y) < Pow2(n)
  {
    if n > 0 {
      BitwiseBound(n - 1, x / 2, y / 2);
    }
  }

  /** Masking with 2^n - 1 is the remainder modulo 2^n. */
  lemma {:induction false} MaskIsMod(n: nat, x: nat)
    ensures And(x, Pow2(n) - 1) == x % Pow2(n)
  {
    if n > 0 {
      var p := Pow2(n - 1);
      MaskIsMod(n - 1, x / 2);
      MaskStep(x, p);
      ModTwice(x, p);
    } else {
      assert And(x, 0) == 0;
    }
  }

  lemma MaskStep(x: nat, p: nat)
    requires p > 0
    ensures And(x, 2 * p - 1) == 2 * And(x / 2, p - 1) + x % 2
  {
    var mask := 2 * p - 1;
    assert mask % 2 == 1 && mask / 2 == p - 1;
  }

  lemma ModTwice(x: nat, p: nat)
    requires p > 0
    ensures x % (2 * p) == 2 * (x / 2 % p) + x % 2
  {
    var q, r := x / 2 / p, x / 2 % p;
    assert x / 2 == q * p + r;
    assert q * (2 * p) == 2 * (q * p);
    ModUnique(x, 2 * p, q, 2 * r + x % 2);
  }

  /** `(a << n) | b` is a sum when `b` fits below the shift. */
  lemma {:induction false} OrIsSum(n: nat, a: nat, b: nat)
    requires b < Pow2(n)
    ensures Or(a * Pow2(n), b) == a * Pow2(n) + b
  {
    if n == 0 {
      OrZero(a);
    } else {
      var p := Pow2(n - 1);
      assert a * (2 * p) == 2 * (a * p);
      OrIsSum(n - 1, a, b / 2);
    }
  }

  lemma {:induction false} OrZero(a: nat)
    ensures Or(a, 0) == a
  {
    if a > 0 {
      OrZero(a / 2);
    }
  }

  lemma MulMonotone(a: nat, b: nat, x: nat, y: nat)
    requires a <= x && b <= y
    ensures a * b <= x * y
  {
    assert a * (y - b) >= 0;
    assert a * (y - b) == a * y - a * b;
    assert (x - a) * y >= 0;
    assert (x - a) * y == x * y - a * y;
  }

  lemma MulAtLeast(k: int, m: int)
    requires k >= 1 && m > 0
    ensures k * m >= m
  {
    MulMonotone(1, m, k, m);
  }

  lemma ModUnique(x: int, m: int, q: int, r: int)
    requires 0 <= r < m && x == q * m + r
    ensures x % m == r && x / m == q
  {
    var q', r' := x / m, x % m;
    assert x == q' * m + r';
    assert (q - q') * m == r' - r by {
      assert (q - q') * m == q * m - q' * m;
    }
    if q > q' {
      MulAtLeast(q - q', m);
    } else if q < q' {
      assert (q' - q) * m == -((q - q') * m);
      MulAtLeast(q' - q, m);
    }
  }

  lemma Pow2Values()
    ensures Pow2(8) == W8 && Pow2(32) == W32 && Pow2(64) == W64
  {
    assert Pow2(8) == 0x100;
    assert Pow2(16) == 0x1_0000;
    assert Pow2(24) == 0x100_0000;
    assert Pow2(32) == 0x1_0000_0000;
    assert Pow2(40) == 0x100_0000_0000;
    assert Pow2(48) == 0x1_0000_0000_0000;
    assert Pow2(56) == 0x100_0000_0000_0000;
    assert Pow2(64) == 0x1_0000_0000_0000_0000;
  }

  lemma XorHalves(x: nat, m: nat)
    ensures Xor(x, m) % 2 == (if x % 2 != m % 2 then 1 else 0) && Xor(x, m) / 2 == Xor(x / 2, m / 2)
  {
  }

  lemma {:induction false} XorZero(x: nat)
    ensures Xor(x, 0) == x
  {
    if x > 0 {
      XorZero(x / 2);
    }
  }

  lemma {:induction false} XorTwice(x: nat, m: nat)
    ensures Xor(Xor(x, m), m) == x
    decreases x + m
  {
    if x > 0 || m > 0 {
      XorTwice(x / 2, m / 2);
    }
  }

  ghost predicate Bit(x: nat, k: nat)
  {
    if k == 0 then x % 2 == 1 else Bit(x / 2, k - 1)
  }

  // ----- shifts, one bit at a time -----

  /** A shift is as many halvings. */
  function Halve(x: nat, k: nat): nat
    decreases k
  {
    if k == 0 then x else Halve(x / 2, k - 1)
  }

  lemma {:induction false} ShiftIsHalve(x: nat, k: nat)
    ensures x / Pow2(k) == Halve(x, k)
    decreases k
  {
    if k > 0 {
      var h, m := x / 2, Pow2(k - 1);
      ShiftIsHalve(h, k - 1);
      var q, r := h / m, h % m;
      HalfOf(x, h, q, r, m);
    } else {
      assert Pow2(0) == 1;
    }
  }

  lemma HalfOf(x: nat, h: nat, q: nat, r: nat, m: nat)
    requires m > 0 && h == x / 2 && q == h / m && r == h % m
    ensures x / (2 * m) == q
  {
    assert h == q * m + r;
    assert q * (2 * m) == 2 * (q * m);
    ModUnique(x, 2 * m, q, 2 * r + x % 2);
  }

  function Double(x: nat, k: nat): nat
    decreases k
  {
    if k == 0 then x else 2 * Double(x, k - 1)
  }

  lemma {:induction false} DoubleIsShift(x: nat, k: nat)
    ensures Double(x, k) == x * Pow2(k)
    decreases k
  {
    if k > 0 {
      DoubleIsShift(x, k - 1);
      var m := Pow2(k - 1);
      assert x * (2 * m) == 2 * (x * m);
    }
  }

  /** A mask with zeros below looks at what is left of the other word above. */
  lemma {:induction false} AndDoubled(x: nat, y: nat, k: nat)
    ensures And(x, Double(y, k)) == Double(And(Halve(x, k), y), k)
    decreases k
  {
    if k > 0 {
      AndDoubled(x / 2, y, k - 1);
      AndTwice(x, Double(y, k - 1));
    }
  }

  lemma AndTwice(x: nat, y: nat)
    ensures And(x, 2 * y) == 2 * And(x / 2, y)
  {
    if x > 0 && y > 0 {
      Even(y);
    }
  }

  lemma Even(y: nat)
    ensures (2 * y) % 2 == 0 && (2 * y) / 2 == y
  {
  }

  // ----- 64-bit operators -----

  function Add64(x: nat, y: nat): u64 { (x + y) % W64 }

  lemma AddModular(x: nat, y: nat)
    ensures Add64(x % W64, y) == Add64(x, y)
  {
    var q, r := x / W64, x % W64;
    var q', r' := (r + y) / W64, (r + y) % W64;
    ModUnique(x + y, W64, q + q', r');
  }

  lemma TotalWraps(x: nat, y: nat)
    ensures Add64(x % W64, y) == (x + y) % W64
  {
    AddModular(x, y);
  }

  function Sub64(x: u64, y: u64): u64 { (x - y) % W64 }

  function Mul64(x: nat, y: nat): u64 { (x * y) % W64 }

  function And64(x: u64, y: u64): u64 { Pow2Values(); BitwiseBound(64, x, y); And(x, y) }

  function Or64(x: u64, y: u64): u64 { Pow2Values(); BitwiseBound(64, x, y); Or(x, y) }

  function Xor64(x: u64, y: u64): u64 { Pow2Values(); BitwiseBound(64, x, y); Xor(x, y) }

  function Not64(x: u64): u64 { W64 - 1 - x }

  function Shl64(x: u64, n: nat): u64 { (x * Pow2(n)) % W64 }

  function Shr64(x: u64, n: nat): u64
  {
    DivBound(x, Pow2(n));
    x / Pow2(n)
  }

  lemma DivBound(x: nat, d: nat)
    requires d > 0
    ensures 0 <= x / d <= x
  {
    assert x == x / d * d + x % d;
    if x / d > x {
      MulMonotone(x + 1, 1, x / d, d);
    }
  }

  function Rotl64(x: u64, n: nat): u64
    requires n <= 64
  {
    Or64(Shl64(x, n), Shr64(x, 64 - n))
  }

  // ----- 32-bit operators -----

  function Add32(x: nat, y: nat): u32 { (x + y) % W32 }

  function Sub32(x: u32, y: u32): u32 { (x - y) % W32 }

  function Mul32(x: nat, y: nat): u32 { (x * y) % W32 }

  function Xor32(x: u32, y: u32): u32 { Pow2Values(); BitwiseBound(32, x, y); Xor(x, y) }

  function Or32(x: u32, y: u32): u32 { Pow2Values(); BitwiseBound(32, x, y); Or(x, y) }

  function Shl32(x: u32, n: nat): u32 { (x * Pow2(n)) % W32 }

  function Shr32(x: u32, n: nat): u32
  {
    DivBound(x, Pow2(n));
    x / Pow2(n)
  }

  function Rotl32(x: u32, n: nat): u32
    requires n <= 32
  {
    Or32(Shl32(x, n), Shr32(x, 32 - n))
  }

  // ----- loads, stores and byte swaps -----

  /** Little-endian value of a byte string. */
  function LE(s: seq<byte>): (v: nat)
    ensures v < Pow2(8 * |s|)
  {
    if s == [] then 0 else
      assert Pow2(8 * |s|) == 256 * Pow2(8 * |s| - 8) by { Pow2Times256(8 * |s| - 8); }
      s[0] + 256 * LE(s[1..])
  }

  /** The `n` low-order bytes of a value, least significant first. */
  function LEBytes(v: nat, n: nat): (s: seq<byte>)
    ensures |s| == n
  {
    if n == 0 then [] else [v % 256] + LEBytes(v / 256, n - 1)
  }

  lemma Pow2Times256(n: nat)
    ensures Pow2(n + 8) == 256 * Pow2(n)
  {
    assert Pow2(n + 8) == 2 * Pow2(n + 7) == 4 * Pow2(n + 6) == 8 * Pow2(n + 5) == 16 * Pow2(n + 4);
    assert Pow2(n + 4) == 2 * Pow2(n + 3) == 4 * Pow2(n + 2) == 8 * Pow2(n + 1) == 16 * Pow2(n);
  }

  /** Storing then loading returns the value. */
  lemma {:induction false} LoadStore(v: nat, n: nat)
    requires v < Pow2(8 * n)
    ensures LE(LEBytes(v, n)) == v
  {
    if n > 0 {
      Pow2Times256(8 * n - 8);
      assert v / 256 < Pow2(8 * n - 8);
      LoadStore(v / 256, n - 1);
      assert LEBytes(v, n)[1..] == LEBytes(v / 256, n - 1);
    }
  }

  /** Loading then storing returns the bytes. */
  lemma {:induction false} StoreLoad(s: seq<byte>)
    ensures LEBytes(LE(s), |s|) == s
  {
    if s != [] {
      StoreLoad(s[1..]);
      LowByte(s[0], LE(s[1..]));
      assert s == [s[0]] + s[1..];
    }
  }

  /** A text cut in two, as numbers. */
  lemma {:induction false} LESplit(s: seq<byte>, k: nat)
    requires k <= |s|
    ensures LE(s) == LE(s[k..]) * Pow2(8 * k) + LE(s[..k])
    decreases k
  {
    hide Pow2;
    if k == 0 {
      assert s[0..] == s && Pow2(0) == 1 by { PowZero(); }
    } else {
      LESplit(s[1..], k - 1);
      assert s[1..][k - 1..] == s[k..] && s[1..][..k - 1] == s[..k][1..];
      Pow2Times256(8 * k - 8);
      OneByteMore(s[0], LE(s[k..]), Pow2(8 * k - 8), LE(s[..k][1..]));
    }
  }

  lemma OneByteMore(b: nat, x: nat, p: nat, y: nat)
    ensures b + 256 * (x * p + y) == x * (256 * p) + (b + 256 * y)
  {
  }

  lemma PowZero()
    ensures Pow2(0) == 1
  {
  }

  lemma LowByte(b: byte, v: nat)
    ensures (b + 256 * v) % 256 == b && (b + 256 * v) / 256 == v
  {
  }

  function ReadLE64(s: seq<byte>, pos: nat): u64
    requires pos + 8 <= |s|
  {
    Pow2Values();
    LE(s[pos..pos + 8])
  }

  function ReadLE32(s: seq<byte>, pos: nat): u32
    requires pos + 4 <= |s|
  {
    Pow2Values();
    LE(s[pos..pos + 4])
  }

  function Reverse<T>(s: seq<T>): (r: seq<T>)
    ensures |r| == |s|
    ensures forall i :: 0 <= i < |s| ==> r[i] == s[|s| - 1 - i]
  {
    if s == [] then [] else Reverse(s[1..]) + [s[0]]
  }

  function Swap64(x: u64): u64
  {
    Pow2Values();
    LE(Reverse(LEBytes(x, 8)))
  }

  function Swap32(x: u32): u32
  {
    Pow2Values();
    LE(Reverse(LEBytes(x, 4)))
  }

  /** A text cut into blocks, put together again. */
  function Flatten(blocks: seq<seq<byte>>): seq<byte>
  {
    if blocks == [] then [] else Flatten(blocks[..|blocks| - 1]) + blocks[|blocks| - 1]
  }

  /** `memcpy` into a buffer. */
  method Store(dst: array<byte>, pos: nat, src: seq<byte>)
    requires pos + |src| <= dst.Length
    modifies dst
    ensures dst[..] == old(dst[..])[..pos] + src + old(dst[..])[pos + |src|..]
  {
    forall i | 0 <= i < |src| {
      dst[pos + i] := src[i];
    }
  }
}
