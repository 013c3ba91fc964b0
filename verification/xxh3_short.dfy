/** XXH3 of inputs up to 240 bytes, 64-bit and 128-bit. Every load is a bounds-checked `ReadLE`, so
    the definitions being well formed says that no offset leaves the input or a secret of at least
    SECRET_SIZE_MIN bytes. */
module Xxh3Short {
  import opened Words
  import opened LongMultiply
  import opened Xxh3Kernel

  const PRIME32_2 := 0x85EBCA77
  const PRIME32_3 := 0xC2B2AE3D
  const PRIME64_1 := 0x9E3779B185EBCA87
  const PRIME64_2 := 0xC2B2AE3D27D4EB4F
  const PRIME64_3 := 0x165667B19E3779F9
  const PRIME64_4 := 0x85EBCA77C2B2AE63
  const PRIME64_5 := 0x27D4EB2F165667C5
  const RRMXMX_PRIME := 0x9FB21C651E98DF25
  const MIDSIZE_MAX := 240
  const MIDSIZE_STARTOFFSET := 3
  const MIDSIZE_LASTOFFSET := 17

  /** A secret long enough for every entry point. */
  type Secret = s: seq<byte> | |s| >= SECRET_SIZE_MIN witness seq(SECRET_SIZE_MIN, _ => 0)

  // ----- mixers -----

  function Xxh64Avalanche(h: u64): u64
  {
    var h1 := Mul64(Xor64(h, Shr64(h, 33)), PRIME64_2);
    var h2 := Mul64(Xor64(h1, Shr64(h1, 29)), PRIME64_3);
    Xor64(h2, Shr64(h2, 32))
  }

  function Avalanche(h: u64): u64
  {
    XorShift64(Mul64(XorShift64(h, 37), 0x165667919E3779F9), 32)
  }

  function Rrmxmx(h: u64, len: nat): u64
  {
    var h1 := Mul64(Xor64(h, Xor64(Rotl64(h, 49), Rotl64(h, 24))), RRMXMX_PRIME);
    var h2 := Mul64(Xor64(h1, Add64(Shr64(h1, 35), len)), RRMXMX_PRIME);
    XorShift64(h2, 28)
  }

  function Mix16B(input: seq<byte>, ip: nat, secret: seq<byte>, sp: nat, seed: u64): u64
    requires ip + 16 <= |input| && sp + 16 <= |secret|
  {
    Mul128Fold64(Xor64(ReadLE64(input, ip), Add64(ReadLE64(secret, sp), seed)),
                 Xor64(ReadLE64(input, ip + 8), Sub64(ReadLE64(secret, sp + 8), seed)))
  }

  /** `seed ^= (u64)swap32((u32)seed) << 32`. */
  function SpreadSeed(seed: u64): u64
  {
    Xor64(seed, Shl64(Swap32(seed % W32), 32))
  }

  /** `{ input[len-1], len, input[0], input[len>>1] }` as a 32-bit word. */
  function Combined(input: seq<byte>): u32
    requires 1 <= |input| <= 3
  {
    Or32(Or32(Shl32(input[0], 16), Shl32(input[|input| / 2], 24)),
         Or32(Shl32(input[|input| - 1], 0), Shl32(|input|, 8)))
  }

  // ----- 64-bit, up to 128 bytes -----

  function Len1To3(input: seq<byte>, secret: Secret, seed: u64): u64
    requires 1 <= |input| <= 3
  {
    var bitflip := Add64(Xor32(ReadLE32(secret, 0), ReadLE32(secret, 4)), seed);
    Xxh64Avalanche(Xor64(Combined(input), bitflip))
  }

  function Len4To8(input: seq<byte>, secret: Secret, seed: u64): u64
    requires 4 <= |input| <= 8
  {
    var bitflip := Sub64(Xor64(ReadLE64(secret, 8), ReadLE64(secret, 16)), SpreadSeed(seed));
    var input64 := Add64(ReadLE32(input, |input| - 4), Shl64(ReadLE32(input, 0), 32));
    Rrmxmx(Xor64(input64, bitflip), |input|)
  }

  function Len9To16(input: seq<byte>, secret: Secret, seed: u64): u64
    requires 9 <= |input| <= 16
  {
    var lo := Xor64(ReadLE64(input, 0), Add64(Xor64(ReadLE64(secret, 24), ReadLE64(secret, 32)), seed));
    var hi := Xor64(ReadLE64(input, |input| - 8), Sub64(Xor64(ReadLE64(secret, 40), ReadLE64(secret, 48)), seed));
    Avalanche(Add64(Add64(|input| + Swap64(lo), hi), Mul128Fold64(lo, hi)))
  }

  function Len0To16(input: seq<byte>, secret: Secret, seed: u64): u64
    requires |input| <= 16
  {
    if |input| > 8 then Len9To16(input, secret, seed)
    else if |input| >= 4 then Len4To8(input, secret, seed)
    else if |input| > 0 then Len1To3(input, secret, seed)
    else Xxh64Avalanche(Xor64(seed, Xor64(ReadLE64(secret, 56), ReadLE64(secret, 64))))
  }

  /** The pair of mixes at distance `k` rounds from both ends. */
  function MixEnds(acc: u64, input: seq<byte>, secret: Secret, seed: u64, k: nat): u64
    requires k < 4 && 32 * k < |input| && 16 < |input|
  {
    Add64(Add64(acc, Mix16B(input, 16 * k, secret, 32 * k, seed)),
          Mix16B(input, |input| - 16 * (k + 1), secret, 32 * k + 16, seed))
  }

  function Len17To128(input: seq<byte>, secret: Secret, seed: u64): u64
    requires 16 < |input| <= 128
  {
    hide MixEnds, Avalanche, Mul64;
    var acc := Mul64(|input|, PRIME64_1);
    var acc3 := if |input| > 96 then MixEnds(acc, input, secret, seed, 3) else acc;
    var acc2 := if |input| > 64 then MixEnds(acc3, input, secret, seed, 2) else acc3;
    var acc1 := if |input| > 32 then MixEnds(acc2, input, secret, seed, 1) else acc2;
    Avalanche(MixEnds(acc1, input, secret, seed, 0))
  }

  // ----- 128-bit, up to 128 bytes -----

  function Len1To3_128(input: seq<byte>, secret: Secret, seed: u64): U128
    requires 1 <= |input| <= 3
  {
    var combinedh := Rotl32(Swap32(Combined(input)), 13);
    var bitflipl := Add64(Xor32(ReadLE32(secret, 0), ReadLE32(secret, 4)), seed);
    var bitfliph := Sub64(Xor32(ReadLE32(secret, 8), ReadLE32(secret, 12)), seed);
    U128(Xxh64Avalanche(Xor64(Combined(input), bitflipl)), Xxh64Avalanche(Xor64(combinedh, bitfliph)))
  }

  function Len4To8_128(input: seq<byte>, secret: Secret, seed: u64): U128
    requires 4 <= |input| <= 8
  {
    var input64 := Add64(ReadLE32(input, 0), Shl64(ReadLE32(input, |input| - 4), 32));
    var bitflip := Add64(Xor64(ReadLE64(secret, 16), ReadLE64(secret, 24)), SpreadSeed(seed));
    var m := Mult64to128(Xor64(input64, bitflip), Add64(PRIME64_1, 4 * |input|));
    var high := Add64(m.high64, Shl64(m.low64, 1));
    var low := Xor64(m.low64, Shr64(high, 3));
    U128(XorShift64(Mul64(XorShift64(low, 35), RRMXMX_PRIME), 28), Avalanche(high))
  }

  function Len9To16_128(input: seq<byte>, secret: Secret, seed: u64): U128
    requires 9 <= |input| <= 16
  {
    var bitflipl := Sub64(Xor64(ReadLE64(secret, 32), ReadLE64(secret, 40)), seed);
    var bitfliph := Add64(Xor64(ReadLE64(secret, 48), ReadLE64(secret, 56)), seed);
    var lo := ReadLE64(input, 0);
    var hi0 := ReadLE64(input, |input| - 8);
    var m := Mult64to128(Xor64(Xor64(lo, hi0), bitflipl), PRIME64_1);
    var low := Add64(m.low64, Shl64(|input| - 1, 54));
    var hi := Xor64(hi0, bitfliph);
    var high := Add64(m.high64, Add64(hi, Mult32to64(hi, PRIME32_2 - 1)));
    var h := Mult64to128(Xor64(low, Swap64(high)), PRIME64_2);
    U128(Avalanche(h.low64), Avalanche(Add64(h.high64, Mul64(high, PRIME64_2))))
  }

  /** Masking off the low 32 bits. */
  lemma HighHalf(x: u64)
    ensures And64(x, 0xFFFF_FFFF_0000_0000) == x - x % W32
  {
    hide And, Halve, Double;
    Pow2Values();
    DoubleIsShift(W32 - 1, 32);
    AndDoubled(x, W32 - 1, 32);
    ShiftIsHalve(x, 32);
    MaskIsMod(32, x / W32);
    DoubleIsShift(x / W32, 32);
    assert x / W32 % W32 == x / W32;
  }

  lemma SameSums(a: u64, b: u64, c: u64, d: u64)
    requires a + b == c + d
    ensures Add64(a, b) == Add64(c, d)
  {
  }

  lemma ShortProduct(x: nat, y: nat)
    requires y < W32
    ensures Mult32to64(x, y) == x % W32 * y
  {
    assert y % W32 == y;
  }

  lemma MiddleSums(hi: nat, lo: nat, prime: nat)
    requires prime > 0 && lo <= hi
    ensures (hi - lo) + lo * prime == hi + lo * (prime - 1)
  {
    assert lo * prime == lo * (prime - 1) + lo;
  }

  /** The two forms of the middle of the 9-to-16-byte hash, for 32-bit and for 64-bit machines, are one. */
  lemma MiddleForms(high: u64, hi: u64)
    ensures Add64(high, Add64(And64(hi, 0xFFFF_FFFF_0000_0000), Mult32to64(hi, PRIME32_2)))
            == Add64(high, Add64(hi, Mult32to64(hi, PRIME32_2 - 1)))
  {
    hide And64, Mult32to64, Add64;
    HighHalf(hi);
    ShortProduct(hi, PRIME32_2);
    ShortProduct(hi, PRIME32_2 - 1);
    MiddleSums(hi, hi % W32, PRIME32_2);
    SameSums(And64(hi, 0xFFFF_FFFF_0000_0000), Mult32to64(hi, PRIME32_2), hi, Mult32to64(hi, PRIME32_2 - 1));
  }

  function Len0To16_128(input: seq<byte>, secret: Secret, seed: u64): U128
    requires |input| <= 16
  {
    if |input| > 8 then Len9To16_128(input, secret, seed)
    else if |input| >= 4 then Len4To8_128(input, secret, seed)
    else if |input| > 0 then Len1To3_128(input, secret, seed)
    else U128(Xxh64Avalanche(Xor64(seed, Xor64(ReadLE64(secret, 64), ReadLE64(secret, 72)))),
              Xxh64Avalanche(Xor64(seed, Xor64(ReadLE64(secret, 80), ReadLE64(secret, 88)))))
  }

  function Mix32B(acc: U128, input: seq<byte>, ip1: nat, ip2: nat, secret: seq<byte>, sp: nat, seed: u64): U128
    requires ip1 + 16 <= |input| && ip2 + 16 <= |input| && sp + 32 <= |secret|
  {
    U128(Xor64(Add64(acc.low64, Mix16B(input, ip1, secret, sp, seed)),
               Add64(ReadLE64(input, ip2), ReadLE64(input, ip2 + 8))),
         Xor64(Add64(acc.high64, Mix16B(input, ip2, secret, sp + 16, seed)),
               Add64(ReadLE64(input, ip1), ReadLE64(input, ip1 + 8))))
  }

  function Finish128(acc: U128, len: nat, seed: u64): U128
  {
    var high := Add64(Add64(Mul64(acc.low64, PRIME64_1), Mul64(acc.high64, PRIME64_4)),
                      Mul64((len - seed) % W64, PRIME64_2));
    U128(Avalanche(Add64(acc.low64, acc.high64)), Sub64(0, Avalanche(high)))
  }

  function Ends32B(acc: U128, input: seq<byte>, secret: Secret, seed: u64, k: nat): U128
    requires k < 4 && 32 * k < |input| && 16 < |input|
  {
    Mix32B(acc, input, 16 * k, |input| - 16 * (k + 1), secret, 32 * k, seed)
  }

  function Len17To128_128(input: seq<byte>, secret: Secret, seed: u64): U128
    requires 16 < |input| <= 128
  {
    hide Ends32B, Finish128, Mul64;
    var acc := U128(Mul64(|input|, PRIME64_1), 0);
    var acc3 := if |input| > 96 then Ends32B(acc, input, secret, seed, 3) else acc;
    var acc2 := if |input| > 64 then Ends32B(acc3, input, secret, seed, 2) else acc3;
    var acc1 := if |input| > 32 then Ends32B(acc2, input, secret, seed, 1) else acc2;
    Finish128(Ends32B(acc1, input, secret, seed, 0), |input|, seed)
  }

  // ----- 129 to 240 bytes -----

  /** `acc` plus rounds `lo..hi` of the mid-size mix; round `i` reads the secret at 16*i - shift. */
  function MixRounds(acc: u64, input: seq<byte>, secret: Secret, seed: u64, lo: nat, hi: nat, shift: int): u64
    requires lo <= hi && 16 * hi <= |input|
    requires lo < hi ==> 0 <= 16 * lo - shift && 16 * hi - shift <= |secret|
    decreases hi
  {
    hide Mix16B, Add64;
    if lo == hi then acc
    else Add64(MixRounds(acc, input, secret, seed, lo, hi - 1, shift),
               Mix16B(input, 16 * (hi - 1), secret, 16 * (hi - 1) - shift, seed))
  }

  function Len129To240(input: seq<byte>, secret: Secret, seed: u64): u64
    requires 128 < |input| <= MIDSIZE_MAX
  {
    hide MixRounds, Mix16B, Avalanche, Add64;
    var acc := Avalanche(MixRounds(Mul64(|input|, PRIME64_1), input, secret, seed, 0, 8, 0));
    var acc' := MixRounds(acc, input, secret, seed, 8, |input| / 16, 128 - MIDSIZE_STARTOFFSET);
    Avalanche(Add64(acc', Mix16B(input, |input| - 16, secret, SECRET_SIZE_MIN - MIDSIZE_LASTOFFSET, seed)))
  }

  method ComputeLen129To240(input: seq<byte>, secret: Secret, seed: u64) returns (h: u64)
    requires 128 < |input| <= MIDSIZE_MAX
    ensures h == Len129To240(input, secret, seed)
  {
    hide Mix16B, Avalanche, Add64;
    var acc := Mul64(|input|, PRIME64_1);
    var nbRounds := |input| / 16;
    for i := 0 to 8
      invariant acc == MixRounds(Mul64(|input|, PRIME64_1), input, secret, seed, 0, i, 0)
    {
      acc := Add64(acc, Mix16B(input, 16 * i, secret, 16 * i, seed));
    }
    acc := Avalanche(acc);
    ghost var mid := acc;
    for i := 8 to nbRounds
      invariant acc == MixRounds(mid, input, secret, seed, 8, i, 128 - MIDSIZE_STARTOFFSET)
    {
      acc := Add64(acc, Mix16B(input, 16 * i, secret, 16 * (i - 8) + MIDSIZE_STARTOFFSET, seed));
    }
    acc := Add64(acc, Mix16B(input, |input| - 16, secret, SECRET_SIZE_MIN - MIDSIZE_LASTOFFSET, seed));
    h := Avalanche(acc);
  }

  function Mix32Rounds(acc: U128, input: seq<byte>, secret: Secret, seed: u64, lo: nat, hi: nat, shift: int): U128
    requires lo <= hi && 32 * hi <= |input|
    requires lo < hi ==> 0 <= 32 * lo - shift && 32 * hi - shift <= |secret|
    decreases hi
  {
    hide Mix32B;
    if lo == hi then acc
    else Mix32B(Mix32Rounds(acc, input, secret, seed, lo, hi - 1, shift),
                input, 32 * (hi - 1), 32 * (hi - 1) + 16, secret, 32 * (hi - 1) - shift, seed)
  }

  function Avalanche128(acc: U128): U128
  {
    U128(Avalanche(acc.low64), Avalanche(acc.high64))
  }

  function Len129To240_128(input: seq<byte>, secret: Secret, seed: u64): U128
    requires 128 < |input| <= MIDSIZE_MAX
  {
    hide Mix32Rounds, Mix32B, Avalanche128, Finish128;
    var acc := Avalanche128(Mix32Rounds(U128(Mul64(|input|, PRIME64_1), 0), input, secret, seed, 0, 4, 0));
    var acc' := Mix32Rounds(acc, input, secret, seed, 4, |input| / 32, 128 - MIDSIZE_STARTOFFSET);
    var last := Mix32B(acc', input, |input| - 16, |input| - 32, secret,
                       SECRET_SIZE_MIN - MIDSIZE_LASTOFFSET - 16, Sub64(0, seed));
    Finish128(last, |input|, seed)
  }

  method ComputeLen129To240_128(input: seq<byte>, secret: Secret, seed: u64) returns (h: U128)
    requires 128 < |input| <= MIDSIZE_MAX
    ensures h == Len129To240_128(input, secret, seed)
  {
    hide Mix32B, Avalanche128, Finish128;
    var acc := U128(Mul64(|input|, PRIME64_1), 0);
    var nbRounds := |input| / 32;
    for i := 0 to 4
      invariant acc == Mix32Rounds(U128(Mul64(|input|, PRIME64_1), 0), input, secret, seed, 0, i, 0)
    {
      acc := Mix32B(acc, input, 32 * i, 32 * i + 16, secret, 32 * i, seed);
    }
    acc := Avalanche128(acc);
    ghost var mid := acc;
    for i := 4 to nbRounds
      invariant acc == Mix32Rounds(mid, input, secret, seed, 4, i, 128 - MIDSIZE_STARTOFFSET)
    {
      acc := Mix32B(acc, input, 32 * i, 32 * i + 16, secret, MIDSIZE_STARTOFFSET + 32 * (i - 4), seed);
    }
    acc := Mix32B(acc, input, |input| - 16, |input| - 32, secret,
                  SECRET_SIZE_MIN - MIDSIZE_LASTOFFSET - 16, Sub64(0, seed));
    h := Finish128(acc, |input|, seed);
  }

  // ----- all lengths up to 240 -----

  function Short64(input: seq<byte>, secret: Secret, seed: u64): u64
    requires |input| <= MIDSIZE_MAX
  {
    if |input| <= 16 then Len0To16(input, secret, seed)
    else if |input| <= 128 then Len17To128(input, secret, seed)
    else Len129To240(input, secret, seed)
  }

  function Short128(input: seq<byte>, secret: Secret, seed: u64): U128
    requires |input| <= MIDSIZE_MAX
  {
    if |input| <= 16 then Len0To16_128(input, secret, seed)
    else if |input| <= 128 then Len17To128_128(input, secret, seed)
    else Len129To240_128(input, secret, seed)
  }
}
