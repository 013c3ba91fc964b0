/** One-shot XXH3: what a hash is, stripe by stripe, and the block-structured loops that compute it. */
module Xxh3Hash {
  import opened Words
  import opened LongMultiply
  import opened Xxh3Kernel
  import opened Xxh3Short

  const SECRET_LASTACC_START := 7
  const SECRET_MERGEACCS_START := 11

  /** How the hash is keyed: by a seed (0 is the default) or by a caller's secret. */
  datatype Key = Seeded(seed: u64) | WithSecret(secret: Secret)

  const INIT_ACC: Acc :=
    [PRIME32_3, PRIME64_1, PRIME64_2, PRIME64_3, PRIME64_4, PRIME32_2, PRIME64_5, PRIME32_1]

  // ----- the stripe-by-stripe meaning -----

  function StripesPerBlock(secretSize: nat): (n: nat)
    requires secretSize >= SECRET_SIZE_MIN
    ensures n >= 9 && 8 * n <= secretSize - STRIPE_LEN < 8 * n + 8
  {
    (secretSize - STRIPE_LEN) / SECRET_CONSUME_RATE
  }

  /** 64 bytes at an offset: a stripe, or the secret segment that keys it. */
  function Window(s: seq<byte>, pos: nat): (w: seq<byte>)
    requires pos + STRIPE_LEN <= |s|
    ensures |w| == STRIPE_LEN
  {
    s[pos..pos + STRIPE_LEN]
  }

  function ScrambleSecret(secret: Secret): (s: seq<byte>)
    ensures |s| == STRIPE_LEN
  {
    Window(secret, |secret| - STRIPE_LEN)
  }

  function LastSecret(secret: Secret): (s: seq<byte>)
    ensures |s| == STRIPE_LEN
  {
    Window(secret, |secret| - STRIPE_LEN - SECRET_LASTACC_START)
  }

  /** The accumulators after the first `n` stripes, scrambled after every full block. */
  ghost function AfterStripes(secret: Secret, data: seq<byte>, n: nat): Acc
    requires STRIPE_LEN * n <= |data|
  {
    if n == 0 then INIT_ACC else
      var spb := StripesPerBlock(|secret|);
      InBlock(n - 1, spb);
      var acc := Accumulate512(AfterStripes(secret, data, n - 1), Window(data, STRIPE_LEN * (n - 1)),
                              Window(secret, SECRET_CONSUME_RATE * ((n - 1) % spb)));
      if n % spb == 0 then ScrambleAcc(acc, ScrambleSecret(secret)) else acc
  }

  lemma InBlock(k: nat, spb: nat)
    requires spb > 0
    ensures 0 <= k % spb < spb
    ensures (k + 1) % spb == if k % spb + 1 == spb then 0 else k % spb + 1
  {
    var q, r := k / spb, k % spb;
    if r + 1 == spb {
      assert k + 1 == (q + 1) * spb + 0;
      ModUnique(k + 1, spb, q + 1, 0);
    } else {
      ModUnique(k + 1, spb, q, r + 1);
    }
  }

  /** The place of stripe `k` in its block. */
  function Place(secret: Secret, k: nat): (p: nat)
    ensures p < StripesPerBlock(|secret|)
  {
    InBlock(k, StripesPerBlock(|secret|));
    k % StripesPerBlock(|secret|)
  }

  /** Every stripe with a byte after it, then the last 64 bytes under their own secret segment. */
  ghost function LongAcc(secret: Secret, data: seq<byte>): Acc
    requires |data| > MIDSIZE_MAX
  {
    Accumulate512(AfterStripes(secret, data, (|data| - 1) / STRIPE_LEN), Window(data, |data| - STRIPE_LEN), LastSecret(secret))
  }

  /** Folding of the accumulators, four pairs under consecutive 16-byte secret segments. */
  function MergeRounds(acc: Acc, secret: seq<byte>, sp: nat, start: u64, n: nat): u64
    requires n <= 4 && sp + 64 <= |secret|
  {
    if n == 0 then start
    else Add64(MergeRounds(acc, secret, sp, start, n - 1),
               Mul128Fold64(Xor64(acc[2 * n - 2], ReadLE64(secret, sp + 16 * n - 16)),
                            Xor64(acc[2 * n - 1], ReadLE64(secret, sp + 16 * n - 8))))
  }

  function MergeAccs(acc: Acc, secret: seq<byte>, sp: nat, start: u64): u64
    requires sp + 64 <= |secret|
  {
    Avalanche(MergeRounds(acc, secret, sp, start, 4))
  }

  ghost function Finish64(acc: Acc, secret: Secret, len: nat): u64
  {
    MergeAccs(acc, secret, SECRET_MERGEACCS_START, Mul64(len, PRIME64_1))
  }

  ghost function FinishWide(acc: Acc, secret: Secret, len: nat): U128
  {
    U128(MergeAccs(acc, secret, SECRET_MERGEACCS_START, Mul64(len, PRIME64_1)),
         MergeAccs(acc, secret, |secret| - 64 - SECRET_MERGEACCS_START, Not64(Mul64(len, PRIME64_2))))
  }

  /** The secret of the long-input loop. */
  function LongSecret(key: Key): Secret
  {
    match key
    case Seeded(seed) => if seed == 0 then KSecret() else DerivedSecret(seed)
    case WithSecret(secret) => secret
  }

  function ShortSecret(key: Key): Secret
  {
    match key
    case Seeded(_) => KSecret()
    case WithSecret(secret) => secret
  }

  function ShortSeed(key: Key): u64
  {
    match key
    case Seeded(seed) => seed
    case WithSecret(_) => 0
  }

  /** The 64-bit hash of `data` under `key`. */
  ghost function Hash64(key: Key, data: seq<byte>): u64
  {
    if |data| <= MIDSIZE_MAX then Short64(data, ShortSecret(key), ShortSeed(key))
    else Finish64(LongAcc(LongSecret(key), data), LongSecret(key), |data|)
  }

  /** The 128-bit hash of `data` under `key`. */
  ghost function Hash128(key: Key, data: seq<byte>): U128
  {
    if |data| <= MIDSIZE_MAX then Short128(data, ShortSecret(key), ShortSeed(key))
    else FinishWide(LongAcc(LongSecret(key), data), LongSecret(key), |data|)
  }

  /** A run of `n` stripes inside one block, read from `ip` on, the first keyed by the segment at `sp`. */
  ghost function Run(acc: Acc, input: seq<byte>, ip: nat, secret: seq<byte>, sp: nat, n: nat): Acc
    requires ip + STRIPE_LEN * n <= |input|
    requires n > 0 ==> sp + SECRET_CONSUME_RATE * (n - 1) + STRIPE_LEN <= |secret|
  {
    if n == 0 then acc
    else Accumulate512(Run(acc, input, ip, secret, sp, n - 1), Window(input, ip + STRIPE_LEN * (n - 1)),
                       Window(secret, sp + SECRET_CONSUME_RATE * (n - 1)))
  }

  /** A run that starts at stripe `k` and stays inside its block continues the meaning; if it reaches
      the end of the block, the scramble is still due. */
  lemma {:induction false} RunContinues(secret: Secret, data: seq<byte>, k: nat, m: nat)
    requires STRIPE_LEN * (k + m) <= |data|
    requires k % StripesPerBlock(|secret|) + m <= StripesPerBlock(|secret|)
    ensures var spb := StripesPerBlock(|secret|);
            var run := Run(AfterStripes(secret, data, k), data, STRIPE_LEN * k, secret, SECRET_CONSUME_RATE * (k % spb), m);
            if m > 0 && k % spb + m == spb
            then (k + m) % spb == 0 && AfterStripes(secret, data, k + m) == ScrambleAcc(run, ScrambleSecret(secret))
            else (k + m) % spb == k % spb + m && AfterStripes(secret, data, k + m) == run
    decreases m
  {
    hide Accumulate512, ScrambleAcc, StripesPerBlock, Window;
    InBlock(k, StripesPerBlock(|secret|));
    if m > 0 {
      RunContinues(secret, data, k, m - 1);
      InBlock(k + m - 1, StripesPerBlock(|secret|));
    }
  }

  /** A run only depends on the bytes it reads. */
  lemma {:induction false} RunAgree(acc: Acc, input: seq<byte>, ip: nat, data: seq<byte>, jp: nat, secret: seq<byte>, sp: nat, n: nat)
    requires ip + STRIPE_LEN * n <= |input| && jp + STRIPE_LEN * n <= |data|
    requires input[ip..ip + STRIPE_LEN * n] == data[jp..jp + STRIPE_LEN * n]
    requires n > 0 ==> sp + SECRET_CONSUME_RATE * (n - 1) + STRIPE_LEN <= |secret|
    ensures Run(acc, input, ip, secret, sp, n) == Run(acc, data, jp, secret, sp, n)
  {
    hide Accumulate512;
    if n > 0 {
      var whole := input[ip..ip + STRIPE_LEN * n];
      assert input[ip..ip + STRIPE_LEN * (n - 1)] == whole[..STRIPE_LEN * (n - 1)] == data[jp..jp + STRIPE_LEN * (n - 1)];
      RunAgree(acc, input, ip, data, jp, secret, sp, n - 1);
      assert Window(input, ip + STRIPE_LEN * (n - 1)) == whole[STRIPE_LEN * (n - 1)..] == Window(data, jp + STRIPE_LEN * (n - 1));
    }
  }

  /** Only the stripes themselves matter: more data leaves the past as it was. */
  lemma {:induction false} AfterStripesPrefix(secret: Secret, data: seq<byte>, more: seq<byte>, n: nat)
    requires STRIPE_LEN * n <= |data|
    ensures AfterStripes(secret, data + more, n) == AfterStripes(secret, data, n)
  {
    hide Accumulate512, ScrambleAcc;
    if n > 0 {
      AfterStripesPrefix(secret, data, more, n - 1);
      InBlock(n - 1, StripesPerBlock(|secret|));
      assert Window(data + more, STRIPE_LEN * (n - 1)) == Window(data, STRIPE_LEN * (n - 1));
    }
  }

  // ----- the loops -----

  /** `XXH3_accumulate`; `ip` and `sp` are the pointers into the input and the secret. */
  method Accumulate(acc: array<u64>, input: seq<byte>, ip: nat, secret: seq<byte>, sp: nat, nbStripes: nat, v: Vector)
    requires acc.Length == ACC_NB
    requires ip + STRIPE_LEN * nbStripes <= |input|
    requires nbStripes > 0 ==> sp + SECRET_CONSUME_RATE * (nbStripes - 1) + STRIPE_LEN <= |secret|
    modifies acc
    ensures acc[..] == Run(old(acc[..]), input, ip, secret, sp, nbStripes)
  {
    hide Accumulate512, Window;
    for n := 0 to nbStripes
      invariant acc[..] == Run(old(acc[..]), input, ip, secret, sp, n)
    {
      Accumulate512InPlace(acc, Window(input, ip + n * STRIPE_LEN), Window(secret, sp + n * SECRET_CONSUME_RATE), v);
    }
  }

  /** `XXH3_hashLong_internal_loop`: whole blocks, then the partial block, then the last stripe. */
  method HashLongLoop(acc: array<u64>, input: seq<byte>, secret: Secret, v: Vector)
    requires acc.Length == ACC_NB && acc[..] == INIT_ACC
    requires |input| > MIDSIZE_MAX
    modifies acc
    ensures acc[..] == LongAcc(secret, input)
  {
    hide Accumulate512, ScrambleAcc, Run, AfterStripes, StripesPerBlock, Window;
    var len := |input|;
    var nbStripesPerBlock := StripesPerBlock(|secret|);
    var blockLen := STRIPE_LEN * nbStripesPerBlock;
    var nbBlocks := (len - 1) / blockLen;
    AfterNone(secret, input);
    for n := 0 to nbBlocks
      invariant acc[..] == AfterStripes(secret, input, nbStripesPerBlock * n)
    {
      BlockContinues(secret, input, n);
      Accumulate(acc, input, n * blockLen, secret, 0, nbStripesPerBlock, v);
      ScrambleInPlace(acc, ScrambleSecret(secret), v);
    }
    var nbStripes := ((len - 1) - blockLen * nbBlocks) / STRIPE_LEN;
    BlocksFit(len, nbStripesPerBlock);
    MultipleMod(nbStripesPerBlock, nbBlocks);
    RunContinues(secret, input, nbStripesPerBlock * nbBlocks, nbStripes);
    Accumulate(acc, input, nbBlocks * blockLen, secret, 0, nbStripes, v);
    Accumulate512InPlace(acc, Window(input, len - STRIPE_LEN), LastSecret(secret), v);
  }

  /** One full block of the loop, from stripe spb * n to stripe spb * (n + 1). */
  lemma BlockContinues(secret: Secret, data: seq<byte>, n: nat)
    requires |data| > 0 && n < (|data| - 1) / (STRIPE_LEN * StripesPerBlock(|secret|))
    ensures var spb := StripesPerBlock(|secret|);
            var ip := n * (STRIPE_LEN * spb);
            && ip == STRIPE_LEN * (spb * n) && ip + STRIPE_LEN * spb <= |data|
            && STRIPE_LEN * (spb * (n + 1)) <= |data|
            && AfterStripes(secret, data, spb * (n + 1))
               == ScrambleAcc(Run(AfterStripes(secret, data, spb * n), data, ip, secret, 0, spb), ScrambleSecret(secret))
  {
    hide Accumulate512, ScrambleAcc, Run, AfterStripes, StripesPerBlock, Window;
    var spb := StripesPerBlock(|secret|);
    BlocksFit(|data|, spb);
    BlockBounds(spb, n, (|data| - 1) / (STRIPE_LEN * spb));
    MultipleMod(spb, n);
    RunContinues(secret, data, spb * n, spb);
  }

  lemma AfterNone(secret: Secret, data: seq<byte>)
    ensures AfterStripes(secret, data, 0) == INIT_ACC
  {
  }

  /** The partial block holds fewer than a block's stripes and ends where the last full stripe does. */
  lemma BlocksFit(len: nat, spb: nat)
    requires len > 0 && spb > 0
    ensures var nb := (len - 1) / (STRIPE_LEN * spb);
            var rest := (len - 1) - STRIPE_LEN * spb * nb;
            0 <= rest / STRIPE_LEN < spb && spb * nb + rest / STRIPE_LEN == (len - 1) / STRIPE_LEN
            && nb * (STRIPE_LEN * spb) == STRIPE_LEN * spb * nb == STRIPE_LEN * (spb * nb) <= len - 1
  {
    var blockLen := STRIPE_LEN * spb;
    var nb, rest := (len - 1) / blockLen, (len - 1) % blockLen;
    assert len - 1 == blockLen * nb + rest;
    assert blockLen * nb == STRIPE_LEN * (spb * nb);
  }

  lemma BlockBounds(spb: nat, n: nat, nb: nat)
    requires n < nb
    ensures spb * (n + 1) == spb * n + spb <= spb * nb
    ensures n * (STRIPE_LEN * spb) == STRIPE_LEN * (spb * n)
  {
    MulMonotone(spb, n + 1, spb, nb);
  }

  lemma MultipleMod(spb: nat, n: nat)
    requires spb > 0
    ensures spb * n % spb == 0
  {
    ModUnique(spb * n, spb, n, 0);
  }

  method ComputeMergeAccs(acc: array<u64>, secret: seq<byte>, sp: nat, start: u64) returns (h: u64)
    requires acc.Length == ACC_NB && sp + 64 <= |secret|
    ensures h == MergeAccs(acc[..], secret, sp, start)
  {
    hide Avalanche, Add64, Mul128Fold64, ReadLE64, Xor64;
    var result := start;
    for i := 0 to 4
      invariant result == MergeRounds(acc[..], secret, sp, start, i)
    {
      result := Add64(result, Mul128Fold64(Xor64(acc[2 * i], ReadLE64(secret, sp + 16 * i)),
                                           Xor64(acc[2 * i + 1], ReadLE64(secret, sp + 16 * i + 8))));
    }
    h := Avalanche(result);
  }

  /** `XXH3_64bits_internal` behind `XXH3_64bits`, `_withSeed` and `_withSecret`. */
  method ComputeHash64(key: Key, input: seq<byte>, v: Vector) returns (h: u64)
    requires |input| < W64
    ensures h == Hash64(key, input)
  {
    hide Len0To16, Len17To128, Len129To240, KSecret, DerivedSecret, LongAcc, MergeAccs;
    if |input| <= 16 {
      h := Len0To16(input, ShortSecret(key), ShortSeed(key));
    } else if |input| <= 128 {
      h := Len17To128(input, ShortSecret(key), ShortSeed(key));
    } else if |input| <= MIDSIZE_MAX {
      h := ComputeLen129To240(input, ShortSecret(key), ShortSeed(key));
    } else {
      var secret := ComputeLongSecret(key, v);
      var acc := new u64[ACC_NB](i requires 0 <= i < ACC_NB => INIT_ACC[i]);
      assert acc[..] == INIT_ACC;
      HashLongLoop(acc, input, secret, v);
      h := ComputeMergeAccs(acc, secret, SECRET_MERGEACCS_START, Mul64(|input|, PRIME64_1));
    }
  }

  /** `XXH3_128bits_internal` behind `XXH3_128bits`, `_withSeed` and `_withSecret`. */
  method ComputeHash128(key: Key, input: seq<byte>, v: Vector) returns (h: U128)
    requires |input| < W64
    ensures h == Hash128(key, input)
  {
    hide Len0To16_128, Len17To128_128, Len129To240_128, KSecret, DerivedSecret, LongAcc, MergeAccs;
    if |input| <= 16 {
      h := Len0To16_128(input, ShortSecret(key), ShortSeed(key));
    } else if |input| <= 128 {
      h := Len17To128_128(input, ShortSecret(key), ShortSeed(key));
    } else if |input| <= MIDSIZE_MAX {
      h := ComputeLen129To240_128(input, ShortSecret(key), ShortSeed(key));
    } else {
      var secret := ComputeLongSecret(key, v);
      var acc := new u64[ACC_NB](i requires 0 <= i < ACC_NB => INIT_ACC[i]);
      assert acc[..] == INIT_ACC;
      HashLongLoop(acc, input, secret, v);
      var low := ComputeMergeAccs(acc, secret, SECRET_MERGEACCS_START, Mul64(|input|, PRIME64_1));
      var high := ComputeMergeAccs(acc, secret, |secret| - 64 - SECRET_MERGEACCS_START, Not64(Mul64(|input|, PRIME64_2)));
      h := U128(low, high);
    }
  }

  /** The seeded entry points derive a secret only for a non-zero seed. */
  method ComputeLongSecret(key: Key, v: Vector) returns (secret: Secret)
    ensures secret == LongSecret(key)
  {
    hide KSecret, DerivedSecret;
    match key
    case WithSecret(s) => secret := s;
    case Seeded(seed) =>
      if seed == 0 {
        secret := KSecret();
      } else {
        var custom := new byte[SECRET_DEFAULT_SIZE](_ => 0);
        InitCustomSecret(custom, seed, v);
        secret := custom[..];
      }
  }

  /** The unkeyed hash, the hash seeded with 0 and the hash under the default secret are one. */
  lemma DefaultKeys(data: seq<byte>)
    ensures Hash64(Seeded(0), data) == Hash64(WithSecret(KSecret()), data)
    ensures Hash128(Seeded(0), data) == Hash128(WithSecret(KSecret()), data)
  {
  }
}
