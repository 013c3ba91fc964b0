/** The portable 64x64 -> 128-bit multiply of XXH3. */
module LongMultiply {
  import opened Words

  datatype U128 = U128(low64: u64, high64: u64)

  /** `XXH_mult32to64`: both operands are first truncated to 32 bits. */
  function Mult32to64(x: nat, y: nat): u64
  {
    Product32(x % W32, y % W32);
    (x % W32) * (y % W32)
  }

  /** Grade-school multiply over 32-bit halves, every sum wrapping at 64 bits. */
  function Mult64to128(lhs: u64, rhs: u64): U128
  {
    var lo_lo := Mult32to64(And64(lhs, 0xFFFFFFFF), And64(rhs, 0xFFFFFFFF));
    var hi_lo := Mult32to64(Shr64(lhs, 32), And64(rhs, 0xFFFFFFFF));
    var lo_hi := Mult32to64(And64(lhs, 0xFFFFFFFF), Shr64(rhs, 32));
    var hi_hi := Mult32to64(Shr64(lhs, 32), Shr64(rhs, 32));
    AddProducts(lo_lo, hi_lo, lo_hi, hi_hi)
  }

  /** The second half of `XXH_mult64to128`: adding the four partial products. */
  function AddProducts(lo_lo: u64, hi_lo: u64, lo_hi: u64, hi_hi: u64): U128
  {
    var cross := Add64(Add64(Shr64(lo_lo, 32), And64(hi_lo, 0xFFFFFFFF)), lo_hi);
    var upper := Add64(Add64(Shr64(hi_lo, 32), Shr64(cross, 32)), hi_hi);
    var lower := Or64(Shl64(cross, 32), And64(lo_lo, 0xFFFFFFFF));
    U128(lower, upper)
  }

  function Mul128Fold64(lhs: u64, rhs: u64): u64
  {
    var product := Mult64to128(lhs, rhs);
    Xor64(product.low64, product.high64)
  }

  lemma MultIsProduct(a: u32, b: u32)
    ensures Mult32to64(a, b) == a * b
  {
  }

  lemma Product32(a: nat, b: nat)
    requires a < W32 && b < W32
    ensures a * b <= (W32 - 1) * (W32 - 1) < W64
  {
    MulMonotone(a, b, W32 - 1, W32 - 1);
  }

  /** The 32-bit halves of a word, as the masks and shifts of the code extract them. */
  lemma Halves(x: u64)
    ensures And64(x, 0xFFFFFFFF) == x % W32 && Shr64(x, 32) == x / W32
    ensures x / W32 < W32
  {
    Pow2Values();
    MaskIsMod(32, x);
  }

  lemma JoinHalves(hi: u64, lo: u32)
    ensures Or64(Shl64(hi, 32), lo) == (hi % W32) * W32 + lo
  {
    Pow2Values();
    ModUnique(hi * W32, W64, hi / W32, (hi % W32) * W32);
    OrIsSum(32, hi % W32, lo);
  }

  /** The carries of the grade-school sum, with the four partial products taken as given. */
  lemma Carries(ll: nat, hl: nat, lh: nat, hh: nat)
    requires ll <= (W32 - 1) * (W32 - 1) && hl <= (W32 - 1) * (W32 - 1)
    requires lh <= (W32 - 1) * (W32 - 1) && hh <= (W32 - 1) * (W32 - 1)
    ensures var cross := ll / W32 + hl % W32 + lh;
            var upper := hl / W32 + cross / W32 + hh;
            cross < W64 && upper < W64
            && upper * W64 + (cross % W32 * W32 + ll % W32) == hh * W64 + (hl + lh) * W32 + ll
  {
    var cross := ll / W32 + hl % W32 + lh;
    assert ll == ll / W32 * W32 + ll % W32;
    assert hl == hl / W32 * W32 + hl % W32;
    assert cross == cross / W32 * W32 + cross % W32;
    assert ll / W32 <= W32 - 2 && hl / W32 <= W32 - 2;
    assert cross / W32 <= W32 - 1;
  }

  lemma MultipliesHalves(lhs: u64, rhs: u64)
    ensures var a, b, c, d := lhs % W32, lhs / W32, rhs % W32, rhs / W32;
            && 0 <= a * c < W64 && 0 <= b * c < W64 && 0 <= a * d < W64 && 0 <= b * d < W64
            && Mult64to128(lhs, rhs) == AddProducts(a * c, b * c, a * d, b * d)
  {
    hide And, Or, Pow2, And64, Or64, Shl64, Shr64, AddProducts, Mult32to64;
    Halves(lhs);
    Halves(rhs);
    var a, b, c, d := lhs % W32, lhs / W32, rhs % W32, rhs / W32;
    MultIsProduct(a, c);
    MultIsProduct(b, c);
    MultIsProduct(a, d);
    MultIsProduct(b, d);
  }

  lemma Expand(a: int, b: int, c: int, d: int)
    ensures (b * W32 + a) * (d * W32 + c) == b * d * W64 + (b * c + a * d) * W32 + a * c
  {
  }

  lemma NoWrap(x: nat, y: nat)
    requires x + y < W64
    ensures Add64(x, y) == x + y
  {
  }

  /** Without lost carries the wrapping sums are plain ones. */
  lemma AddProductsValue(ll: u64, hl: u64, lh: u64, hh: u64, cross: nat, upper: nat)
    requires cross == ll / W32 + hl % W32 + lh < W64
    requires upper == hl / W32 + cross / W32 + hh < W64
    ensures AddProducts(ll, hl, lh, hh) == U128(cross % W32 * W32 + ll % W32, upper)
  {
    hide And, Or, Pow2, And64, Or64, Shl64, Shr64, Add64;
    assert cross % W32 * W32 + ll % W32 < W64;
    Halves(ll);
    Halves(hl);
    Halves(cross);
    NoWrap(ll / W32, hl % W32);
    NoWrap(ll / W32 + hl % W32, lh);
    NoWrap(hl / W32, cross / W32);
    NoWrap(hl / W32 + cross / W32, hh);
    JoinHalves(cross, ll % W32);
  }

  /** For all operands the result is the exact 128-bit product, and neither `cross` nor `upper`
      loses a carry. */
  lemma Mult64to128Exact(lhs: u64, rhs: u64)
    ensures var r := Mult64to128(lhs, rhs); r.high64 * W64 + r.low64 == lhs * rhs
    ensures var a, b, c, d := lhs % W32, lhs / W32, rhs % W32, rhs / W32;
            var cross := a * c / W32 + b * c % W32 + a * d;
            cross < W64 && b * c / W32 + cross / W32 + b * d < W64
  {
    hide AddProducts, Mult64to128;
    var a, b, c, d := lhs % W32, lhs / W32, rhs % W32, rhs / W32;
    Product32(a, c);
    Product32(b, c);
    Product32(a, d);
    Product32(b, d);
    Carries(a * c, b * c, a * d, b * d);
    var cross := a * c / W32 + b * c % W32 + a * d;
    AddProductsValue(a * c, b * c, a * d, b * d, cross, b * c / W32 + cross / W32 + b * d);
    MultipliesHalves(lhs, rhs);
    Expand(a, b, c, d);
  }
}
