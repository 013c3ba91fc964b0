/** The three vectorised kernels of XXH3: stripe accumulation, accumulator scrambling and secret
    derivation, in their scalar and SIMD forms. The lane formulas come first; the in-place methods
    below are the scalar loops and the SSE2/AVX2/AVX512 loops of the C code. */
module Xxh3Kernel {
  import opened Words
  import opened LongMultiply

  const STRIPE_LEN := 64
  const SECRET_CONSUME_RATE := 8
  const ACC_NB := 8
  const SECRET_SIZE_MIN := 136
  const SECRET_DEFAULT_SIZE := 192
  const PRIME32_1 := 0x9E3779B1

  /** The eight 64-bit accumulators. */
  type Acc = s: seq<u64> | |s| == 8 witness [0, 0, 0, 0, 0, 0, 0, 0]

  /** The code path selected by XXH_VECTOR or by run-time dispatch. */
  datatype Vector = Scalar | SSE2 | AVX2 | AVX512

  /** 64-bit lanes in one register. */
  function Width(v: Vector): (w: nat)
    requires v != Scalar
    ensures w in {2, 4, 8}
  {
    match v
    case SSE2 => 2
    case AVX2 => 4
    case AVX512 => 8
  }

  // ----- lane formulas -----

  /** The other lane of a 128-bit pair: `i ^ 1`. */
  function Neighbour(i: nat): nat
  {
    if i % 2 == 0 then i + 1 else i - 1
  }

  /** Low half times high half of the keyed data. */
  function KeyedProduct(data: u64, key: u64): u64
  {
    var dk := Xor64(data, key);
    Mult32to64(And64(dk, 0xFFFFFFFF), Shr64(dk, 32))
  }

  function AccumulateLane(acc: Acc, stripe: seq<byte>, secret: seq<byte>, i: nat): u64
    requires |stripe| == |secret| == STRIPE_LEN && i < ACC_NB
  {
    Add64(acc[i] + ReadLE64(stripe, 8 * Neighbour(i)), KeyedProduct(ReadLE64(stripe, 8 * i), ReadLE64(secret, 8 * i)))
  }

  /** What one stripe does to the accumulators. */
  function Accumulate512(acc: Acc, stripe: seq<byte>, secret: seq<byte>): Acc
    requires |stripe| == |secret| == STRIPE_LEN
  {
    seq(ACC_NB, i requires 0 <= i < ACC_NB => AccumulateLane(acc, stripe, secret, i))
  }

  function XorShift64(x: u64, n: nat): u64
  {
    Xor64(x, Shr64(x, n))
  }

  function ScrambleLane(a: u64, key: u64): u64
  {
    Mul64(Xor64(XorShift64(a, 47), key), PRIME32_1)
  }

  /** What the end of a block does to the accumulators. */
  function ScrambleAcc(acc: Acc, secret: seq<byte>): Acc
    requires |secret| == STRIPE_LEN
  {
    seq(ACC_NB, i requires 0 <= i < ACC_NB => ScrambleLane(acc[i], ReadLE64(secret, 8 * i)))
  }

  function SecretRow(n: nat): (r: seq<byte>)
    requires n < 12
    ensures |r| == 16
  {
    match n
    case 0 => [0xb8, 0xfe, 0x6c, 0x39, 0x23, 0xa4, 0x4b, 0xbe, 0x7c, 0x01, 0x81, 0x2c, 0xf7, 0x21, 0xad, 0x1c]
    case 1 => [0xde, 0xd4, 0x6d, 0xe9, 0x83, 0x90, 0x97, 0xdb, 0x72, 0x40, 0xa4, 0xa4, 0xb7, 0xb3, 0x67, 0x1f]
    case 2 => [0xcb, 0x79, 0xe6, 0x4e, 0xcc, 0xc0, 0xe5, 0x78, 0x82, 0x5a, 0xd0, 0x7d, 0xcc, 0xff, 0x72, 0x21]
    case 3 => [0xb8, 0x08, 0x46, 0x74, 0xf7, 0x43, 0x24, 0x8e, 0xe0, 0x35, 0x90, 0xe6, 0x81, 0x3a, 0x26, 0x4c]
    case 4 => [0x3c, 0x28, 0x52, 0xbb, 0x91, 0xc3, 0x00, 0xcb, 0x88, 0xd0, 0x65, 0x8b, 0x1b, 0x53, 0x2e, 0xa3]
    case 5 => [0x71, 0x64, 0x48, 0x97, 0xa2, 0x0d, 0xf9, 0x4e, 0x38, 0x19, 0xef, 0x46, 0xa9, 0xde, 0xac, 0xd8]
    case 6 => [0xa8, 0xfa, 0x76, 0x3f, 0xe3, 0x9c, 0x34, 0x3f, 0xf9, 0xdc, 0xbb, 0xc7, 0xc7, 0x0b, 0x4f, 0x1d]
    case 7 => [0x8a, 0x51, 0xe0, 0x4b, 0xcd, 0xb4, 0x59, 0x31, 0xc8, 0x9f, 0x7e, 0xc9, 0xd9, 0x78, 0x73, 0x64]
    case 8 => [0xea, 0xc5, 0xac, 0x83, 0x34, 0xd3, 0xeb, 0xc3, 0xc5, 0x81, 0xa0, 0xff, 0xfa, 0x13, 0x63, 0xeb]
    case 9 => [0x17, 0x0d, 0xdd, 0x51, 0xb7, 0xf0, 0xda, 0x49, 0xd3, 0x16, 0x55, 0x26, 0x29, 0xd4, 0x68, 0x9e]
    case 10 => [0x2b, 0x16, 0xbe, 0x58, 0x7d, 0x47, 0xa1, 0xfc, 0x8f, 0xf8, 0xb8, 0xd1, 0x7a, 0xd0, 0x31, 0xce]
    case 11 => [0x45, 0xcb, 0x3a, 0x8f, 0x95, 0x16, 0x04, 0x28, 0xaf, 0xd7, 0xfb, 0xca, 0xbb, 0x4b, 0x40, 0x7e]
  }

  /** The default secret `XXH3_kSecret`. */
  function KSecret(): (s: seq<byte>)
    ensures |s| == SECRET_DEFAULT_SIZE
  {
    seq(SECRET_DEFAULT_SIZE, i requires 0 <= i < SECRET_DEFAULT_SIZE => SecretRow(i / 16)[i % 16])
  }

  /** Lane `i` of the secret derived from a seed: even lanes gain the seed, odd lanes lose it. */
  function SeedLane(i: nat, seed: u64): u64
    requires i < 24
  {
    if i % 2 == 0 then Add64(ReadLE64(KSecret(), 8 * i), seed) else Sub64(ReadLE64(KSecret(), 8 * i), seed)
  }

  function DerivedByte(j: nat, seed: u64): byte
    requires j < SECRET_DEFAULT_SIZE
  {
    LEBytes(SeedLane(j / 8, seed), 8)[j % 8]
  }

  /** The 192-byte secret derived from a seed. */
  function DerivedSecret(seed: u64): (s: seq<byte>)
    ensures |s| == SECRET_DEFAULT_SIZE
  {
    seq(SECRET_DEFAULT_SIZE, j requires 0 <= j < SECRET_DEFAULT_SIZE => DerivedByte(j, seed))
  }

  // ----- scalar loops -----

  /** A lane of the scalar loop after `n` iterations: iteration `j` adds its data to lane `j ^ 1` and
      its product to lane `j`. */
  ghost function PartialLane(acc: Acc, stripe: seq<byte>, secret: seq<byte>, i: nat, n: nat): u64
    requires |stripe| == |secret| == STRIPE_LEN && i < ACC_NB && n <= ACC_NB
  {
    Add64(acc[i] + (if Neighbour(i) < n then ReadLE64(stripe, 8 * Neighbour(i)) else 0),
          if i < n then KeyedProduct(ReadLE64(stripe, 8 * i), ReadLE64(secret, 8 * i)) else 0)
  }

  /** Wrapping sums may be regrouped. */
  lemma AddRegroup(a: nat, b: nat, c: nat)
    ensures Add64(Add64(a, b), c) == Add64(a + b, c) == Add64(a + c, b) == Add64(a, Add64(b, c))
  {
    AddModular(a + b, c);
    AddModular(b + c, a);
  }

  lemma PartialStep(acc: Acc, stripe: seq<byte>, secret: seq<byte>, k: nat, i: nat)
    requires |stripe| == |secret| == STRIPE_LEN && k < ACC_NB && i < ACC_NB
    ensures PartialLane(acc, stripe, secret, k, i + 1) ==
            var before := PartialLane(acc, stripe, secret, k, i);
            if k == Neighbour(i) then Add64(before, ReadLE64(stripe, 8 * i))
            else if k == i then Add64(before, KeyedProduct(ReadLE64(stripe, 8 * i), ReadLE64(secret, 8 * i)))
            else before
  {
    hide KeyedProduct, ReadLE64, Add64;
    var data := if Neighbour(k) < i then ReadLE64(stripe, 8 * Neighbour(k)) else 0;
    var product := if k < i then KeyedProduct(ReadLE64(stripe, 8 * k), ReadLE64(secret, 8 * k)) else 0;
    if k == Neighbour(i) {
      AddRegroup(acc[k], product, ReadLE64(stripe, 8 * i));
    } else if k == i {
      var p: u64 := KeyedProduct(ReadLE64(stripe, 8 * i), ReadLE64(secret, 8 * i));
      AddRegroup(acc[k] + data, 0, p);
    }
  }

  lemma PartialEnds(acc: Acc, stripe: seq<byte>, secret: seq<byte>, k: nat)
    requires |stripe| == |secret| == STRIPE_LEN && k < ACC_NB
    ensures PartialLane(acc, stripe, secret, k, 0) == acc[k]
    ensures PartialLane(acc, stripe, secret, k, ACC_NB) == Accumulate512(acc, stripe, secret)[k]
  {
    hide KeyedProduct, ReadLE64;
  }

  method AccumulateScalar(acc: array<u64>, stripe: seq<byte>, secret: seq<byte>)
    requires acc.Length == ACC_NB && |stripe| == |secret| == STRIPE_LEN
    modifies acc
    ensures acc[..] == Accumulate512(old(acc[..]), stripe, secret)
  {
    hide ReadLE64, KeyedProduct, PartialLane, Add64, Accumulate512;
    ghost var was: Acc := acc[..];
    forall k | 0 <= k < ACC_NB {
      PartialEnds(was, stripe, secret, k);
    }
    for i := 0 to ACC_NB
      invariant forall k :: 0 <= k < ACC_NB ==> acc[k] == PartialLane(was, stripe, secret, k, i)
    {
      forall k | 0 <= k < ACC_NB {
        PartialStep(was, stripe, secret, k, i);
      }
      var dataVal := ReadLE64(stripe, 8 * i);
      var product := KeyedProduct(dataVal, ReadLE64(secret, 8 * i));
      acc[Neighbour(i)] := Add64(acc[Neighbour(i)], dataVal);
      acc[i] := Add64(acc[i], product);
    }
    forall k | 0 <= k < ACC_NB ensures acc[k] == Accumulate512(was, stripe, secret)[k] {
      PartialEnds(was, stripe, secret, k);
    }
  }

  method ScrambleScalar(acc: array<u64>, secret: seq<byte>)
    requires acc.Length == ACC_NB && |secret| == STRIPE_LEN
    modifies acc
    ensures acc[..] == ScrambleAcc(old(acc[..]), secret)
  {
    ghost var was: Acc := acc[..];
    for i := 0 to ACC_NB
      invariant forall k :: 0 <= k < ACC_NB ==>
        acc[k] == if k < i then ScrambleLane(was[k], ReadLE64(secret, 8 * k)) else was[k]
    {
      hide Xor64, Shr64, ReadLE64;
      var key64 := ReadLE64(secret, 8 * i);
      var acc64 := acc[i];
      acc64 := XorShift64(acc64, 47);
      acc64 := Xor64(acc64, key64);
      acc64 := Mul64(acc64, PRIME32_1);
      acc[i] := acc64;
    }
    assert acc[..] == ScrambleAcc(was, secret);
  }

  /** `XXH_writeLE64`. */
  method WriteLE64(dst: array<byte>, pos: nat, v: u64)
    requires pos + 8 <= dst.Length
    modifies dst
    ensures forall j :: pos <= j < pos + 8 ==> dst[j] == LEBytes(v, 8)[j - pos]
    ensures forall j :: 0 <= j < dst.Length && !(pos <= j < pos + 8) ==> dst[j] == old(dst[j])
  {
    var bytes := LEBytes(v, 8);
    forall k | 0 <= k < 8 {
      dst[pos + k] := bytes[k];
    }
  }

  method InitCustomSecretScalar(customSecret: array<byte>, seed64: u64)
    requires customSecret.Length == SECRET_DEFAULT_SIZE
    modifies customSecret
    ensures customSecret[..] == DerivedSecret(seed64)
  {
    hide LEBytes, KSecret, ReadLE64, Add64, Sub64;
    for i := 0 to SECRET_DEFAULT_SIZE / 16
      invariant forall j :: 0 <= j < 16 * i ==> customSecret[j] == DerivedByte(j, seed64)
    {
      var lo := Add64(ReadLE64(KSecret(), 16 * i), seed64);
      var hi := Sub64(ReadLE64(KSecret(), 16 * i + 8), seed64);
      assert lo == SeedLane(2 * i, seed64) && hi == SeedLane(2 * i + 1, seed64);
      WriteLE64(customSecret, 16 * i, lo);
      WriteLE64(customSecret, 16 * i + 8, hi);
    }
  }

  // ----- SIMD registers -----

  /** Word `k` (32 bits) of the 128-bit group `g`. */
  function Word32(v: seq<u64>, g: nat, k: nat): u32
    requires 2 * g + 1 < |v| && k < 4
  {
    var lane := v[2 * g + k / 2];
    if k % 2 == 0 then lane % W32 else lane / W32
  }

  /** `shuffle_epi32` with control `_MM_SHUFFLE(z, y, x, w)`, applied to each 128-bit group. */
  function Shuffle32(v: seq<u64>, z: nat, y: nat, x: nat, w: nat): (r: seq<u64>)
    requires |v| % 2 == 0 && z < 4 && y < 4 && x < 4 && w < 4
    ensures |r| == |v|
  {
    seq(|v|, i requires 0 <= i < |v| =>
      if i % 2 == 0 then Word32(v, i / 2, w) + W32 * Word32(v, i / 2, x)
      else Word32(v, i / 2, y) + W32 * Word32(v, i / 2, z))
  }

  function LoadU(s: seq<byte>, pos: nat, w: nat): (r: seq<u64>)
    requires pos + 8 * w <= |s|
    ensures |r| == w
  {
    seq(w, i requires 0 <= i < w => ReadLE64(s, pos + 8 * i))
  }

  function XorV(a: seq<u64>, b: seq<u64>): (r: seq<u64>)
    requires |a| == |b|
    ensures |r| == |a|
  {
    seq(|a|, i requires 0 <= i < |a| => Xor64(a[i], b[i]))
  }

  function AddV(a: seq<u64>, b: seq<u64>): (r: seq<u64>)
    requires |a| == |b|
    ensures |r| == |a|
  {
    seq(|a|, i requires 0 <= i < |a| => Add64(a[i], b[i]))
  }

  /** `mul_epu32`: the product of the low halves of each lane. */
  function MulEpu32(a: seq<u64>, b: seq<u64>): (r: seq<u64>)
    requires |a| == |b|
    ensures |r| == |a|
  {
    seq(|a|, i requires 0 <= i < |a| => Mult32to64(a[i], b[i]))
  }

  function ShrV(a: seq<u64>, n: nat): (r: seq<u64>)
    ensures |r| == |a|
  {
    seq(|a|, i requires 0 <= i < |a| => Shr64(a[i], n))
  }

  function ShlV(a: seq<u64>, n: nat): (r: seq<u64>)
    ensures |r| == |a|
  {
    seq(|a|, i requires 0 <= i < |a| => Shl64(a[i], n))
  }

  /** Shuffle (0,3,0,1) brings the high half of every lane down. */
  lemma ShuffleHigh(v: seq<u64>, i: nat)
    requires |v| % 2 == 0 && i < |v|
    ensures Shuffle32(v, 0, 3, 0, 1)[i] % W32 == v[i] / W32
  {
  }

  /** Shuffle (1,0,3,2) exchanges the two lanes of every group. */
  lemma ShuffleSwap(v: seq<u64>, i: nat)
    requires |v| % 2 == 0 && i < |v|
    ensures Neighbour(i) < |v| && Shuffle32(v, 1, 0, 3, 2)[i] == v[Neighbour(i)]
  {
  }

  /** Multiplying by a 32-bit prime through two 32x32 products. */
  lemma SplitMultiply(x: u64)
    ensures Mul64(x, PRIME32_1) == Add64(Mult32to64(x, PRIME32_1), Shl64(Mult32to64(x / W32, PRIME32_1), 32))
  {
    hide Pow2;
    Pow2Values();
    var p: u64, q: u64 := x % W32 * PRIME32_1, x / W32 * PRIME32_1;
    assert x * PRIME32_1 == q * W32 + p;
    assert Mult32to64(x, PRIME32_1) == p && Mult32to64(x / W32, PRIME32_1) == q;
    AddModular(q * W32, p);
  }

  method AccumulateVector(acc: array<u64>, stripe: seq<byte>, secret: seq<byte>, v: Vector)
    requires v != Scalar
    requires acc.Length == ACC_NB && |stripe| == |secret| == STRIPE_LEN
    modifies acc
    ensures acc[..] == Accumulate512(old(acc[..]), stripe, secret)
  {
    hide AccumulateLane, LoadU, XorV, Shuffle32, MulEpu32, AddV;
    var w := Width(v);
    ghost var was: Acc := acc[..];
    for i := 0 to ACC_NB / w
      invariant forall k :: 0 <= k < ACC_NB ==>
        acc[k] == if k < w * i then AccumulateLane(was, stripe, secret, k) else was[k]
    {
      var xacc := acc[w * i..w * (i + 1)];
      assert xacc == was[w * i..w * (i + 1)];
      var dataVec := LoadU(stripe, 8 * w * i, w);
      var keyVec := LoadU(secret, 8 * w * i, w);
      var dataKey := XorV(dataVec, keyVec);
      var dataKeyLo := Shuffle32(dataKey, 0, 3, 0, 1);
      var product := MulEpu32(dataKey, dataKeyLo);
      var dataSwap := Shuffle32(dataVec, 1, 0, 3, 2);
      var sum := AddV(xacc, dataSwap);
      var result := AddV(product, sum);
      forall k | 0 <= k < w ensures result[k] == AccumulateLane(was, stripe, secret, w * i + k) {
        VectorLane(was, stripe, secret, w, i, k);
      }
      forall k | 0 <= k < w {
        acc[w * i + k] := result[k];
      }
    }
  }

  lemma VectorLane(acc: Acc, stripe: seq<byte>, secret: seq<byte>, w: nat, i: nat, k: nat)
    requires |stripe| == |secret| == STRIPE_LEN && w in {2, 4, 8} && i < ACC_NB / w && k < w
    ensures
      var dataVec := LoadU(stripe, 8 * w * i, w);
      var dataKey := XorV(dataVec, LoadU(secret, 8 * w * i, w));
      var product := MulEpu32(dataKey, Shuffle32(dataKey, 0, 3, 0, 1));
      var sum := AddV(acc[w * i..w * (i + 1)], Shuffle32(dataVec, 1, 0, 3, 2));
      AddV(product, sum)[k] == AccumulateLane(acc, stripe, secret, w * i + k)
  {
    hide And64, Shr64, Xor64, ReadLE64, Shuffle32, Mult32to64, Add64;
    var dataVec := LoadU(stripe, 8 * w * i, w);
    var dataKey := XorV(dataVec, LoadU(secret, 8 * w * i, w));
    var dk := dataKey[k];
    ShuffleHigh(dataKey, k);
    ShuffleSwap(dataVec, k);
    Halves(dk);
    MultTruncates(dk, Shuffle32(dataKey, 0, 3, 0, 1)[k]);
    var product := MulEpu32(dataKey, Shuffle32(dataKey, 0, 3, 0, 1))[k];
    assert product == KeyedProduct(ReadLE64(stripe, 8 * (w * i + k)), ReadLE64(secret, 8 * (w * i + k)));
    AddRegroup(acc[w * i + k], ReadLE64(stripe, 8 * Neighbour(w * i + k)), product);
    AddCommutes(product, Add64(acc[w * i + k], ReadLE64(stripe, 8 * Neighbour(w * i + k))));
  }

  lemma MultTruncates(x: nat, y: nat)
    ensures Mult32to64(x, y) == Mult32to64(x % W32, y % W32)
  {
  }

  lemma AddCommutes(x: nat, y: nat)
    ensures Add64(x, y) == Add64(y, x)
  {
  }

  /** The two half products and the shifted sum multiply every lane by the prime. */
  lemma VectorMultiply(dataKey: seq<u64>, prime32: seq<u64>, k: nat)
    requires |dataKey| == |prime32| && |dataKey| % 2 == 0 && k < |dataKey|
    requires prime32[k] == PRIME32_1 + W32 * PRIME32_1
    ensures AddV(MulEpu32(dataKey, prime32), ShlV(MulEpu32(Shuffle32(dataKey, 0, 3, 0, 1), prime32), 32))[k]
            == Mul64(dataKey[k], PRIME32_1)
  {
    hide Shl64, Shuffle32, Mult32to64, Add64, Mul64;
    ShuffleHigh(dataKey, k);
    SplitMultiply(dataKey[k]);
    MultTruncates(dataKey[k], prime32[k]);
    MultTruncates(dataKey[k], PRIME32_1);
    MultTruncates(Shuffle32(dataKey, 0, 3, 0, 1)[k], prime32[k]);
    MultTruncates(dataKey[k] / W32, PRIME32_1);
  }

  method ScrambleVector(acc: array<u64>, secret: seq<byte>, v: Vector)
    requires v != Scalar
    requires acc.Length == ACC_NB && |secret| == STRIPE_LEN
    modifies acc
    ensures acc[..] == ScrambleAcc(old(acc[..]), secret)
  {
    hide Xor64, Shr64, Shl64, ReadLE64, Shuffle32, Mult32to64, Add64, Mul64;
    var w := Width(v);
    ghost var was: Acc := acc[..];
    var prime32 := seq(w, _ => PRIME32_1 + W32 * PRIME32_1);
    for i := 0 to ACC_NB / w
      invariant forall k :: 0 <= k < ACC_NB ==>
        acc[k] == if k < w * i then ScrambleLane(was[k], ReadLE64(secret, 8 * k)) else was[k]
    {
      var accVec := acc[w * i..w * (i + 1)];
      var shifted := ShrV(accVec, 47);
      var dataVec := XorV(accVec, shifted);
      var dataKey := XorV(dataVec, LoadU(secret, 8 * w * i, w));
      var dataKeyHi := Shuffle32(dataKey, 0, 3, 0, 1);
      var prodLo := MulEpu32(dataKey, prime32);
      var prodHi := MulEpu32(dataKeyHi, prime32);
      var result := AddV(prodLo, ShlV(prodHi, 32));
      forall k | 0 <= k < w ensures result[k] == Mul64(dataKey[k], PRIME32_1) {
        VectorMultiply(dataKey, prime32, k);
      }
      forall k | 0 <= k < w {
        acc[w * i + k] := result[k];
      }
    }
    assert acc[..] == ScrambleAcc(was, secret);
  }

  /** Stores a register to memory. */
  method StoreU(dst: array<byte>, pos: nat, lanes: seq<u64>)
    requires pos + 8 * |lanes| <= dst.Length
    modifies dst
    ensures forall j :: 0 <= j < 8 * |lanes| ==> dst[pos + j] == LEBytes(lanes[j / 8], 8)[j % 8]
    ensures forall j :: 0 <= j < dst.Length && !(pos <= j < pos + 8 * |lanes|) ==> dst[j] == old(dst[j])
  {
    forall j | 0 <= j < 8 * |lanes| {
      dst[pos + j] := LEBytes(lanes[j / 8], 8)[j % 8];
    }
  }

  method InitCustomSecretVector(customSecret: array<byte>, seed64: u64, v: Vector)
    requires v != Scalar
    requires customSecret.Length == SECRET_DEFAULT_SIZE
    modifies customSecret
    ensures customSecret[..] == DerivedSecret(seed64)
  {
    hide LEBytes, KSecret, ReadLE64, Add64, Sub64;
    var w := Width(v);
    var seed := seq(w, i => if i % 2 == 0 then seed64 else Sub64(0, seed64));
    for i := 0 to SECRET_DEFAULT_SIZE / (8 * w)
      invariant forall j :: 0 <= j < 8 * (w * i) ==> customSecret[j] == DerivedByte(j, seed64)
    {
      var n := w * i;
      assert w * (i + 1) == n + w <= 24;
      var dest := AddV(LoadU(KSecret(), 8 * n, w), seed);
      StoreU(customSecret, 8 * n, dest);
      DerivedRound(dest, seed, n, seed64);
      forall j | 8 * n <= j < 8 * (n + w) ensures customSecret[j] == DerivedByte(j, seed64) {
        assert customSecret[8 * n + (j - 8 * n)] == LEBytes(dest[(j - 8 * n) / 8], 8)[(j - 8 * n) % 8];
      }
    }
  }

  lemma DerivedRound(dest: seq<u64>, seed: seq<u64>, n: nat, seed64: u64)
    requires |dest| == |seed| && n % 2 == 0 && n + |seed| <= 24
    requires forall k :: 0 <= k < |seed| ==> seed[k] == if k % 2 == 0 then seed64 else Sub64(0, seed64)
    requires dest == AddV(LoadU(KSecret(), 8 * n, |seed|), seed)
    ensures forall j :: 8 * n <= j < 8 * (n + |seed|) ==>
      LEBytes(dest[(j - 8 * n) / 8], 8)[(j - 8 * n) % 8] == DerivedByte(j, seed64)
  {
    hide LEBytes, KSecret, ReadLE64, Add64, Sub64;
    forall j | 8 * n <= j < 8 * (n + |seed|)
      ensures LEBytes(dest[(j - 8 * n) / 8], 8)[(j - 8 * n) % 8] == DerivedByte(j, seed64)
    {
      var k := (j - 8 * n) / 8;
      assert j / 8 == n + k && j % 8 == (j - 8 * n) % 8;
      AddNegated(ReadLE64(KSecret(), 8 * (n + k)), seed64);
      assert dest[k] == SeedLane(n + k, seed64);
    }
  }

  lemma AddNegated(x: u64, y: u64)
    ensures Add64(x, Sub64(0, y)) == Sub64(x, y)
  {
  }

  // ----- dispatch -----

  method Accumulate512InPlace(acc: array<u64>, stripe: seq<byte>, secret: seq<byte>, v: Vector)
    requires acc.Length == ACC_NB && |stripe| == |secret| == STRIPE_LEN
    modifies acc
    ensures acc[..] == Accumulate512(old(acc[..]), stripe, secret)
  {
    if v == Scalar {
      AccumulateScalar(acc, stripe, secret);
    } else {
      AccumulateVector(acc, stripe, secret, v);
    }
  }

  method ScrambleInPlace(acc: array<u64>, secret: seq<byte>, v: Vector)
    requires acc.Length == ACC_NB && |secret| == STRIPE_LEN
    modifies acc
    ensures acc[..] == ScrambleAcc(old(acc[..]), secret)
  {
    if v == Scalar {
      ScrambleScalar(acc, secret);
    } else {
      ScrambleVector(acc, secret, v);
    }
  }

  method InitCustomSecret(customSecret: array<byte>, seed64: u64, v: Vector)
    requires customSecret.Length == SECRET_DEFAULT_SIZE
    modifies customSecret
    ensures customSecret[..] == DerivedSecret(seed64)
  {
    if v == Scalar {
      InitCustomSecretScalar(customSecret, seed64);
    } else {
      InitCustomSecretVector(customSecret, seed64, v);
    }
  }
}
