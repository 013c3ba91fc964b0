/** Streaming XXH3: the state object, its resets, update and digests. The ghost fields record what has
    been hashed since the last reset and under which key; every digest is proved to be the one-shot
    hash of exactly that. */
module Xxh3Stream {
  import opened Wrappers
  import opened Words
  import opened LongMultiply
  import opened Xxh3Kernel
  import opened Xxh3Short
  import opened Xxh3Hash

  const BUFFER_SIZE := 256
  const BUFFER_STRIPES := 4

  /** `XXH3_consumeStripes`: at most one block boundary is crossed per call. `data` and `k` say where in
      the hashed text the stripes stand. */
  method ConsumeStripes(acc: array<u64>, nbStripesSoFar: nat, nbStripesPerBlock: nat,
                        input: seq<byte>, ip: nat, nbStripes: nat, secret: Secret, secretLimit: nat, v: Vector,
                        ghost data: seq<byte>, ghost k: nat)
    returns (soFar: nat)
    requires acc.Length == ACC_NB
    requires secretLimit == |secret| - STRIPE_LEN && nbStripesPerBlock == StripesPerBlock(|secret|)
    requires nbStripes <= nbStripesPerBlock && nbStripesSoFar < nbStripesPerBlock
    requires ip + STRIPE_LEN * nbStripes <= |input| && STRIPE_LEN * (k + nbStripes) <= |data|
    requires input[ip..ip + STRIPE_LEN * nbStripes] == data[STRIPE_LEN * k..STRIPE_LEN * (k + nbStripes)]
    requires nbStripesSoFar == Place(secret, k) && acc[..] == AfterStripes(secret, data, k)
    modifies acc
    ensures soFar == Place(secret, k + nbStripes)
    ensures acc[..] == AfterStripes(secret, data, k + nbStripes)
  {
    hide Accumulate512, ScrambleAcc, Run, AfterStripes, StripesPerBlock, Window;
    InBlock(k + nbStripes, nbStripesPerBlock);
    if nbStripesPerBlock - nbStripesSoFar <= nbStripes {
      var toEnd := nbStripesPerBlock - nbStripesSoFar;
      var after := nbStripes - toEnd;
      ConsumedPart(secret, data, k, input, ip, toEnd, nbStripes);
      Accumulate(acc, input, ip, secret, nbStripesSoFar * SECRET_CONSUME_RATE, toEnd, v);
      ScrambleInPlace(acc, Window(secret, secretLimit), v);
      assert acc[..] == AfterStripes(secret, data, k + toEnd);
      ConsumedRest(secret, data, k, input, ip, toEnd, nbStripes);
      Accumulate(acc, input, ip + toEnd * STRIPE_LEN, secret, 0, after, v);
      soFar := after;
    } else {
      ConsumedPart(secret, data, k, input, ip, nbStripes, nbStripes);
      Accumulate(acc, input, ip, secret, nbStripesSoFar * SECRET_CONSUME_RATE, nbStripes, v);
      soFar := nbStripesSoFar + nbStripes;
    }
  }

  /** The stripes before a block boundary, read from the caller's buffer. */
  lemma ConsumedPart(secret: Secret, data: seq<byte>, k: nat, input: seq<byte>, ip: nat, m: nat, n: nat)
    requires m <= n && ip + STRIPE_LEN * n <= |input| && STRIPE_LEN * (k + n) <= |data|
    requires input[ip..ip + STRIPE_LEN * n] == data[STRIPE_LEN * k..STRIPE_LEN * (k + n)]
    requires k % StripesPerBlock(|secret|) + m <= StripesPerBlock(|secret|)
    ensures var spb := StripesPerBlock(|secret|);
            var run := Run(AfterStripes(secret, data, k), input, ip, secret, SECRET_CONSUME_RATE * (k % spb), m);
            if m > 0 && k % spb + m == spb
            then (k + m) % spb == 0 && AfterStripes(secret, data, k + m) == ScrambleAcc(run, ScrambleSecret(secret))
            else (k + m) % spb == k % spb + m && AfterStripes(secret, data, k + m) == run
  {
    hide Accumulate512, ScrambleAcc, Run, AfterStripes, StripesPerBlock, Window;
    var spb := StripesPerBlock(|secret|);
    InBlock(k, spb);
    SameWindow(input, ip, data, STRIPE_LEN * k, STRIPE_LEN * n, 0, STRIPE_LEN * m);
    RunAgree(AfterStripes(secret, data, k), input, ip, data, STRIPE_LEN * k, secret, SECRET_CONSUME_RATE * (k % spb), m);
    RunContinues(secret, data, k, m);
  }

  /** The stripes after a block boundary. */
  lemma ConsumedRest(secret: Secret, data: seq<byte>, k: nat, input: seq<byte>, ip: nat, m: nat, n: nat)
    requires m <= n && ip + STRIPE_LEN * n <= |input| && STRIPE_LEN * (k + n) <= |data|
    requires input[ip..ip + STRIPE_LEN * n] == data[STRIPE_LEN * k..STRIPE_LEN * (k + n)]
    requires (k + m) % StripesPerBlock(|secret|) == 0 && n - m < StripesPerBlock(|secret|)
    ensures (k + n) % StripesPerBlock(|secret|) == n - m
    ensures AfterStripes(secret, data, k + n)
            == Run(AfterStripes(secret, data, k + m), input, ip + STRIPE_LEN * m, secret, 0, n - m)
  {
    hide Accumulate512, ScrambleAcc, Run, AfterStripes, StripesPerBlock, Window;
    SameWindow(input, ip, data, STRIPE_LEN * k, STRIPE_LEN * n, STRIPE_LEN * m, STRIPE_LEN * n);
    RunAgree(AfterStripes(secret, data, k + m), input, ip + STRIPE_LEN * m, data, STRIPE_LEN * (k + m), secret, 0, n - m);
    RunContinues(secret, data, k + m, n - m);
  }

  /** Equal stretches have equal parts. */
  lemma SameWindow(s: seq<byte>, i: nat, t: seq<byte>, j: nat, n: nat, lo: nat, hi: nat)
    requires lo <= hi <= n && i + n <= |s| && j + n <= |t| && s[i..i + n] == t[j..j + n]
    ensures s[i + lo..i + hi] == t[j + lo..j + hi]
  {
    var w, u, u' := s[i..i + n], s[i + lo..i + hi], t[j + lo..j + hi];
    assert w == t[j..j + n];
    forall x | 0 <= x < hi - lo ensures u[x] == u'[x] {
      assert u[x] == w[lo + x] == u'[x];
    }
  }

  /** The first `consumed` bytes of `all` are in the accumulators. */
  ghost predicate Absorbed(secret: Secret, all: seq<byte>, consumed: int, acc: seq<u64>, soFar: nat)
  {
    && 0 <= consumed <= |all| && consumed % BUFFER_SIZE == 0
    && acc == AfterStripes(secret, all, consumed / STRIPE_LEN)
    && soFar == Place(secret, consumed / STRIPE_LEN)
  }

  /** The rest of `all` is in the buffer, never empty once there is data; while fewer than 192 of its
      bytes are in use, its last 64 are the last 64 consumed. */
  ghost predicate Buffered(all: seq<byte>, consumed: int, buf: seq<byte>, size: nat)
  {
    && |buf| == BUFFER_SIZE && size <= BUFFER_SIZE
    && 0 <= consumed == |all| - size && buf[..size] == all[consumed..]
    && (all != [] ==> size > 0)
    && (consumed > 0 && size <= BUFFER_SIZE - STRIPE_LEN ==>
          consumed >= STRIPE_LEN && buf[BUFFER_SIZE - STRIPE_LEN..] == all[consumed - STRIPE_LEN..consumed])
  }

  /** Input that fits is appended. */
  lemma BufferAppend(all: seq<byte>, consumed: int, buf: seq<byte>, size: nat, bytes: seq<byte>)
    requires Buffered(all, consumed, buf, size) && size + |bytes| <= BUFFER_SIZE
    ensures Buffered(all + bytes, consumed, buf[..size] + bytes + buf[size + |bytes|..], size + |bytes|)
  {
    var buf' := buf[..size] + bytes + buf[size + |bytes|..];
    assert buf'[..size + |bytes|] == buf[..size] + bytes == (all + bytes)[consumed..];
    if consumed > 0 && size + |bytes| <= BUFFER_SIZE - STRIPE_LEN {
      assert buf'[BUFFER_SIZE - STRIPE_LEN..] == buf[BUFFER_SIZE - STRIPE_LEN..];
      assert (all + bytes)[consumed - STRIPE_LEN..consumed] == all[consumed - STRIPE_LEN..consumed];
    }
  }

  /** Input that does not fit completes the buffer first. */
  lemma BufferFill(all: seq<byte>, consumed: int, buf: seq<byte>, size: nat, bytes: seq<byte>)
    requires Buffered(all, consumed, buf, size) && size + |bytes| > BUFFER_SIZE
    ensures var fill := BUFFER_SIZE - size;
            consumed + BUFFER_SIZE < |all + bytes|
            && buf[..size] + bytes[..fill] + buf[BUFFER_SIZE..] == (all + bytes)[consumed..consumed + BUFFER_SIZE]
  {
    var fill := BUFFER_SIZE - size;
    assert buf[..size] + bytes[..fill] + buf[BUFFER_SIZE..] == all[consumed..] + bytes[..fill];
    assert (all + bytes)[consumed..consumed + BUFFER_SIZE] == all[consumed..] + bytes[..fill];
  }

  lemma PartOfRest(all: seq<byte>, offset: nat, i: nat, j: nat)
    requires i <= j <= |all| - offset
    ensures all[offset..][i..j] == all[offset + i..offset + j]
  {
  }

  /** The remainder restarts the buffer; its tail keeps what was consumed last. */
  lemma BufferRestart(before: seq<byte>, bytes: seq<byte>, pos: nat, buf: seq<byte>, consumed: int)
    requires pos < |bytes| <= pos + BUFFER_SIZE && consumed == |before| + pos >= STRIPE_LEN
    requires |buf| == BUFFER_SIZE
    requires buf[BUFFER_SIZE - STRIPE_LEN..] == (before + bytes)[consumed - STRIPE_LEN..consumed]
    ensures Buffered(before + bytes, consumed, bytes[pos..] + buf[|bytes| - pos..], |bytes| - pos)
  {
    var buf' := bytes[pos..] + buf[|bytes| - pos..];
    assert buf'[..|bytes| - pos] == bytes[pos..] == (before + bytes)[consumed..];
    if |bytes| - pos <= BUFFER_SIZE - STRIPE_LEN {
      assert buf'[BUFFER_SIZE - STRIPE_LEN..] == buf[BUFFER_SIZE - STRIPE_LEN..];
    }
  }

  /** `XXH3_state_t`. */
  class Xxh3State {
    const acc: array<u64>
    const customSecret: array<byte>
    const buffer: array<byte>
    var bufferedSize: nat
    var nbStripesSoFar: nat
    var totalLen: u64
    var nbStripesPerBlock: nat
    var secretLimit: nat
    var seed: u64
    var extSecret: Option<seq<byte>>

    ghost var ready: bool        // a successful reset has happened
    ghost var key: Key           // the last reset's key
    ghost var data: seq<byte>    // everything fed in since then

    ghost const Repr: set<object> := {this, acc, customSecret, buffer}

    /** What holds from creation on: a non-zero stored seed has its secret in `customSecret`. */
    ghost predicate Shape()
      reads this`seed, customSecret
    {
      && acc.Length == ACC_NB && customSecret.Length == SECRET_DEFAULT_SIZE && buffer.Length == BUFFER_SIZE
      && customSecret != buffer
      && (seed != 0 ==> customSecret[..] == DerivedSecret(seed))
    }

    function ActiveSecret(): seq<byte>
      reads this`extSecret, customSecret
    {
      if extSecret.None? then customSecret[..] else extSecret.value
    }

    /** The parameters stored by the reset are those of key `k`. */
    ghost predicate Keyed(k: Key)
      reads this`extSecret, this`seed, this`secretLimit, this`nbStripesPerBlock, customSecret
    {
      && ActiveSecret() == LongSecret(k) && seed == ShortSeed(k)
      && secretLimit == |LongSecret(k)| - STRIPE_LEN
      && nbStripesPerBlock == StripesPerBlock(|LongSecret(k)|)
    }

    /** The state after a reset and any updates. */
    ghost predicate Valid()
      reads this, acc, customSecret, buffer
    {
      && Shape() && ready && Keyed(key)
      && totalLen == |data| % W64
      && Absorbed(LongSecret(key), data, |data| - bufferedSize, acc[..], nbStripesSoFar)
      && Buffered(data, |data| - bufferedSize, buffer[..], bufferedSize)
    }

    /** The object stands where the session says. */
    ghost predicate Agrees(s: Session)
      reads this, acc, customSecret, buffer
    {
      && Shape()
      && (s.key.Some? ==> Valid() && key == s.key.value && data == s.data)
    }

    /** `XXH3_createState`. */
    constructor ()
      ensures Shape() && !ready && fresh(Repr)
    {
      acc := new u64[ACC_NB](_ => 0);
      customSecret := new byte[SECRET_DEFAULT_SIZE](_ => 0);
      buffer := new byte[BUFFER_SIZE](_ => 0);
      bufferedSize, nbStripesSoFar, totalLen, nbStripesPerBlock, secretLimit := 0, 0, 0, 0, 0;
      seed := 0;
      extSecret := None;
      ready := false;
    }

    /** `XXH3_64bits_reset_internal`. */
    method ResetInternal(seed64: u64, secret: Option<seq<byte>>, secretSize: u64)
      requires Shape() && (seed64 != 0 ==> customSecret[..] == DerivedSecret(seed64))
      modifies this, acc
      ensures Shape() && acc[..] == INIT_ACC
      ensures bufferedSize == 0 && nbStripesSoFar == 0 && totalLen == 0
      ensures seed == seed64 && extSecret == secret
      ensures secretSize >= STRIPE_LEN ==>
        secretLimit == secretSize - STRIPE_LEN && nbStripesPerBlock == secretLimit / SECRET_CONSUME_RATE
      ensures data == [] && !ready
    {
      bufferedSize, nbStripesSoFar, totalLen := 0, 0, 0;
      forall i | 0 <= i < ACC_NB {
        acc[i] := INIT_ACC[i];
      }
      seed := seed64;
      extSecret := secret;
      secretLimit := (secretSize - STRIPE_LEN) % W64;
      nbStripesPerBlock := secretLimit / SECRET_CONSUME_RATE;
      data, ready := [], false;
      assert acc[..] == INIT_ACC;
    }

    /** `XXH3_64bits_reset` / `XXH3_128bits_reset`. */
    method Reset()
      requires Shape()
      modifies Repr
      ensures Valid() && key == Seeded(0) && data == []
    {
      hide KSecret, DerivedSecret;
      ResetInternal(0, Some(KSecret()), SECRET_DEFAULT_SIZE);
      Begin(Seeded(0));
    }

    /** `XXH3_64bits_reset_withSecret`: the state is reset even when the secret is then refused. */
    method ResetWithSecret(secret: Option<seq<byte>>) returns (ok: bool)
      requires Shape()
      requires secret.Some? ==> |secret.value| < W64
      modifies Repr
      ensures ok <==> secret.Some? && |secret.value| >= SECRET_SIZE_MIN
      ensures if ok then Valid() && key == WithSecret(secret.value) && data == [] else Shape() && !ready
    {
      hide DerivedSecret;
      ResetInternal(0, secret, if secret.Some? then |secret.value| else 0);
      if secret.None? {
        return false;
      }
      if |secret.value| < SECRET_SIZE_MIN {
        return false;
      }
      Begin(WithSecret(secret.value));
      ok := true;
    }

    /** `XXH3_64bits_reset_withSeed`: the derived secret is rebuilt only when the seed changed. */
    method ResetWithSeed(seed64: u64, v: Vector)
      requires Shape()
      modifies Repr
      ensures Valid() && key == Seeded(seed64) && data == []
    {
      hide KSecret, DerivedSecret;
      if seed64 == 0 {
        Reset();
        return;
      }
      if seed64 != seed {
        InitCustomSecret(customSecret, seed64, v);
        seed := seed64;
      }
      ResetInternal(seed64, None, SECRET_DEFAULT_SIZE);
      Begin(Seeded(seed64));
    }

    /** Nothing has been hashed yet. */
    ghost method Begin(k: Key)
      requires Shape() && Keyed(k) && acc[..] == INIT_ACC
      requires bufferedSize == 0 && nbStripesSoFar == 0 && totalLen == 0 && data == []
      modifies this`ready, this`key
      ensures Valid() && key == k
    {
      hide KSecret, DerivedSecret;
      ready, key := true, k;
      AfterNone(LongSecret(k), []);
    }

    /** `XXH3_update`. A null input is an error and changes nothing. */
    method Update(input: Option<seq<byte>>, v: Vector) returns (ok: bool)
      requires Valid()
      modifies this, acc, buffer
      ensures Valid() && key == old(key)
      ensures ok <==> input.Some?
      ensures data == if ok then old(data) + input.value else old(data)
    {
      hide KSecret, DerivedSecret, AfterStripes, StripesPerBlock, Place, LongSecret, Absorbed, Buffered, Add64;
      if input.None? {
        return false;
      }
      ok := true;
      var bytes := input.value;
      ghost var consumed := |data| - bufferedSize;
      TotalWraps(|data|, |bytes|);
      AbsorbedMore(LongSecret(key), data, consumed, acc[..], nbStripesSoFar, bytes);
      BufferedSize(data, consumed, buffer[..], bufferedSize);
      totalLen := Add64(totalLen, |bytes|);

      if bufferedSize + |bytes| <= BUFFER_SIZE {
        BufferAppend(data, consumed, buffer[..], bufferedSize, bytes);
        Store(buffer, bufferedSize, bytes);
        bufferedSize := bufferedSize + |bytes|;
        data := data + bytes;
        return;
      }
      UpdateLong(bytes, v);
    }

    /** The path of `XXH3_update` taken when the input does not fit in the buffer. */
    method UpdateLong(bytes: seq<byte>, v: Vector)
      requires Shape() && Keyed(key)
      requires bufferedSize + |bytes| > BUFFER_SIZE
      requires Buffered(data, |data| - bufferedSize, buffer[..], bufferedSize)
      requires Absorbed(LongSecret(key), data + bytes, |data| - bufferedSize, acc[..], nbStripesSoFar)
      modifies this`bufferedSize, this`nbStripesSoFar, this`data, acc, buffer
      ensures Shape() && Keyed(key) && data == old(data) + bytes
      ensures Absorbed(LongSecret(key), data, |data| - bufferedSize, acc[..], nbStripesSoFar)
      ensures Buffered(data, |data| - bufferedSize, buffer[..], bufferedSize)
    {
      hide KSecret, DerivedSecret, AfterStripes, StripesPerBlock, Place, LongSecret, Absorbed, Buffered;
      ghost var before, all := data, data + bytes;
      BufferedSize(before, |data| - bufferedSize, buffer[..], bufferedSize);
      var pos := 0;
      if bufferedSize > 0 {
        pos := CompleteBuffer(bytes, v);
      }
      if pos + BUFFER_SIZE < |bytes| {
        pos := ConsumeInput(bytes, pos, |before|, all, v);
      }
      RestartBuffer(bytes, pos);
      data := all;
      assert |data| - bufferedSize == |before| + pos;
    }

    /** What is left of the input restarts the buffer; the tail behind it keeps the last stripe. */
    method RestartBuffer(bytes: seq<byte>, pos: nat)
      requires Shape() && pos < |bytes| <= pos + BUFFER_SIZE && |data| + pos >= STRIPE_LEN
      requires buffer[BUFFER_SIZE - STRIPE_LEN..] == (data + bytes)[|data| + pos - STRIPE_LEN..|data| + pos]
      modifies this`bufferedSize, buffer
      ensures Shape() && bufferedSize == |bytes| - pos
      ensures Buffered(data + bytes, |data| + pos, buffer[..], bufferedSize)
    {
      hide Buffered;
      ghost var kept := buffer[..];
      BufferRestart(data, bytes, pos, kept, |data| + pos);
      Store(buffer, 0, bytes[pos..]);
      assert buffer[..] == bytes[pos..] + kept[|bytes| - pos..];
      bufferedSize := |bytes| - pos;
    }

    /** The partially filled buffer is completed, then consumed. */
    method CompleteBuffer(bytes: seq<byte>, v: Vector) returns (pos: nat)
      requires Shape() && Keyed(key)
      requires bufferedSize + |bytes| > BUFFER_SIZE
      requires Buffered(data, |data| - bufferedSize, buffer[..], bufferedSize)
      requires Absorbed(LongSecret(key), data + bytes, |data| - bufferedSize, acc[..], nbStripesSoFar)
      modifies this`bufferedSize, this`nbStripesSoFar, acc, buffer
      ensures Shape() && Keyed(key) && bufferedSize == 0
      ensures pos == BUFFER_SIZE - old(bufferedSize) < |bytes|
      ensures Absorbed(LongSecret(key), data + bytes, |data| + pos, acc[..], nbStripesSoFar)
      ensures STRIPE_LEN <= |data| + pos
      ensures buffer[BUFFER_SIZE - STRIPE_LEN..] == (data + bytes)[|data| + pos - STRIPE_LEN..|data| + pos]
    {
      hide KSecret, DerivedSecret, AfterStripes, StripesPerBlock, Place, LongSecret, Absorbed, Buffered;
      ghost var all, consumed := data + bytes, |data| - bufferedSize;
      BufferedSize(data, consumed, buffer[..], bufferedSize);
      pos := BUFFER_SIZE - bufferedSize;
      BufferFill(data, consumed, buffer[..], bufferedSize, bytes);
      Store(buffer, bufferedSize, bytes[..pos]);
      assert buffer[..] == all[consumed..consumed + BUFFER_SIZE];
      ConsumeBuffer(buffer[..], 0, all, consumed, v);
      bufferedSize := 0;
    }

    /** Whole buffers are consumed straight from the input, leaving at least one byte; the last stripe
        consumed is kept at the end of the buffer. */
    method ConsumeInput(bytes: seq<byte>, start: nat, ghost offset: nat, ghost all: seq<byte>, v: Vector) returns (pos: nat)
      requires Shape() && Keyed(key)
      requires start + BUFFER_SIZE < |bytes| && offset + |bytes| == |all| && bytes == all[offset..]
      requires Absorbed(LongSecret(key), all, offset + start, acc[..], nbStripesSoFar)
      modifies this`nbStripesSoFar, acc, buffer
      ensures Shape() && Keyed(key)
      ensures pos < |bytes| <= pos + BUFFER_SIZE
      ensures Absorbed(LongSecret(key), all, offset + pos, acc[..], nbStripesSoFar)
      ensures STRIPE_LEN <= offset + pos
      ensures buffer[BUFFER_SIZE - STRIPE_LEN..] == all[offset + pos - STRIPE_LEN..offset + pos]
    {
      hide KSecret, DerivedSecret, AfterStripes, StripesPerBlock, Place, LongSecret, Absorbed;
      var limit := |bytes| - BUFFER_SIZE;
      pos := start;
      while pos < limit
        invariant start <= pos < |bytes|
        invariant pos > start ==> pos >= BUFFER_SIZE
        invariant Shape() && Keyed(key)
        invariant Absorbed(LongSecret(key), all, offset + pos, acc[..], nbStripesSoFar)
      {
        PartOfRest(all, offset, pos, pos + BUFFER_SIZE);
        ConsumeBuffer(bytes, pos, all, offset + pos, v);
        pos := pos + BUFFER_SIZE;
      }
      Store(buffer, BUFFER_SIZE - STRIPE_LEN, bytes[pos - STRIPE_LEN..pos]);
      PartOfRest(all, offset, pos - STRIPE_LEN, pos);
    }

    /** One full buffer's worth of stripes, from wherever it lies. */
    method ConsumeBuffer(input: seq<byte>, ip: nat, ghost all: seq<byte>, ghost consumed: int, v: Vector)
      requires Shape() && Keyed(key) && Absorbed(LongSecret(key), all, consumed, acc[..], nbStripesSoFar)
      requires ip + BUFFER_SIZE <= |input| && consumed + BUFFER_SIZE <= |all|
      requires input[ip..ip + BUFFER_SIZE] == all[consumed..consumed + BUFFER_SIZE]
      modifies acc, this`nbStripesSoFar
      ensures Absorbed(LongSecret(key), all, consumed + BUFFER_SIZE, acc[..], nbStripesSoFar)
    {
      hide KSecret, DerivedSecret, AfterStripes, StripesPerBlock, Place, LongSecret, Absorbed;
      AbsorbedOpen(LongSecret(key), all, consumed, acc[..], nbStripesSoFar);
      nbStripesSoFar := ConsumeStripes(acc, nbStripesSoFar, nbStripesPerBlock, input, ip, BUFFER_STRIPES,
                                       ActiveSecret(), secretLimit, v, all, consumed / STRIPE_LEN);
      AbsorbedClose(LongSecret(key), all, consumed + BUFFER_SIZE, acc[..], nbStripesSoFar);
    }

    /** `XXH3_digest_long`: the last bytes are folded into a copy of the accumulators. */
    method DigestLong(v: Vector) returns (a: array<u64>)
      requires Valid() && |data| > MIDSIZE_MAX
      ensures fresh(a) && a.Length == ACC_NB && a[..] == LongAcc(LongSecret(key), data)
    {
      hide KSecret, DerivedSecret, AfterStripes, StripesPerBlock, Place, LongSecret, Absorbed, Buffered, Window, Accumulate512;
      a := new u64[ACC_NB](i requires 0 <= i < ACC_NB reads acc => acc[i]);
      assert a[..] == acc[..];
      var secret := ActiveSecret();
      ghost var consumed := |data| - bufferedSize;
      AbsorbedOpen(LongSecret(key), data, consumed, acc[..], nbStripesSoFar);
      BufferedSize(data, consumed, buffer[..], bufferedSize);
      if bufferedSize >= STRIPE_LEN {
        var nbStripes := (bufferedSize - 1) / STRIPE_LEN;
        LastStripes(data, consumed, buffer[..], bufferedSize);
        var _ := ConsumeStripes(a, nbStripesSoFar, nbStripesPerBlock, buffer[..], 0, nbStripes, secret, secretLimit, v,
                                data, consumed / STRIPE_LEN);
        Accumulate512InPlace(a, Window(buffer[..], bufferedSize - STRIPE_LEN),
                             Window(secret, secretLimit - SECRET_LASTACC_START), v);
      } else {
        var catchupSize := STRIPE_LEN - bufferedSize;
        CaughtUp(data, consumed, buffer[..], bufferedSize);
        var lastStripe := buffer[BUFFER_SIZE - catchupSize..] + buffer[..bufferedSize];
        Accumulate512InPlace(a, lastStripe, Window(secret, secretLimit - SECRET_LASTACC_START), v);
      }
    }

    /** `XXH3_64bits_digest`: the one-shot hash of everything since the reset. The state is not changed. */
    method Digest64(v: Vector) returns (h: u64)
      requires Valid()
      ensures |data| < W64 ==> h == Hash64(key, data)
    {
      hide KSecret, DerivedSecret, Short64, LongAcc, MergeAccs, Absorbed, Buffered;
      BufferedSize(data, |data| - bufferedSize, buffer[..], bufferedSize);
      if totalLen > MIDSIZE_MAX {
        var a := DigestLong(v);
        h := ComputeMergeAccs(a, ActiveSecret(), SECRET_MERGEACCS_START, Mul64(totalLen, PRIME64_1));
      } else {
        AllBuffered(LongSecret(key), data, |data| - bufferedSize, acc[..], nbStripesSoFar, buffer[..], bufferedSize);
        if seed != 0 {
          h := ComputeHash64(Seeded(seed), buffer[..totalLen], v);
        } else {
          h := ComputeHash64(WithSecret(ActiveSecret()), buffer[..totalLen], v);
        }
      }
    }

    /** `XXH3_128bits_digest`. */
    method Digest128(v: Vector) returns (h: U128)
      requires Valid()
      ensures |data| < W64 ==> h == Hash128(key, data)
    {
      hide KSecret, DerivedSecret, Short128, LongAcc, MergeAccs, Absorbed, Buffered;
      BufferedSize(data, |data| - bufferedSize, buffer[..], bufferedSize);
      if totalLen > MIDSIZE_MAX {
        var a := DigestLong(v);
        var secret := ActiveSecret();
        var low := ComputeMergeAccs(a, secret, SECRET_MERGEACCS_START, Mul64(totalLen, PRIME64_1));
        var high := ComputeMergeAccs(a, secret, secretLimit + STRIPE_LEN - 64 - SECRET_MERGEACCS_START,
                                     Not64(Mul64(totalLen, PRIME64_2)));
        h := U128(low, high);
      } else {
        AllBuffered(LongSecret(key), data, |data| - bufferedSize, acc[..], nbStripesSoFar, buffer[..], bufferedSize);
        if seed != 0 {
          h := ComputeHash128(Seeded(seed), buffer[..totalLen], v);
        } else {
          h := ComputeHash128(WithSecret(ActiveSecret()), buffer[..totalLen], v);
        }
      }
    }
  }

  lemma BufferedSize(all: seq<byte>, consumed: int, buf: seq<byte>, size: nat)
    requires Buffered(all, consumed, buf, size)
    ensures |buf| == BUFFER_SIZE && size <= BUFFER_SIZE && 0 <= consumed == |all| - size
  {
  }

  lemma BufferMultiple(n: int)
    requires n % BUFFER_SIZE == 0
    ensures n == STRIPE_LEN * (n / STRIPE_LEN) && (n + BUFFER_SIZE) / STRIPE_LEN == n / STRIPE_LEN + BUFFER_STRIPES
  {
    var q := n / BUFFER_SIZE;
    assert n == BUFFER_SIZE * q;
    ModUnique(n, STRIPE_LEN, 4 * q, 0);
    ModUnique(n + BUFFER_SIZE, STRIPE_LEN, 4 * q + 4, 0);
  }

  lemma AbsorbedOpen(secret: Secret, all: seq<byte>, consumed: int, acc: seq<u64>, soFar: nat)
    requires Absorbed(secret, all, consumed, acc, soFar)
    ensures var k := consumed / STRIPE_LEN;
            && 0 <= consumed <= |all| && consumed % BUFFER_SIZE == 0
            && consumed == STRIPE_LEN * k && (consumed + BUFFER_SIZE) / STRIPE_LEN == k + BUFFER_STRIPES
            && acc == AfterStripes(secret, all, k)
            && soFar == Place(secret, k)
  {
    hide StripesPerBlock, AfterStripes, Place;
    BufferMultiple(consumed);
  }

  lemma AbsorbedClose(secret: Secret, all: seq<byte>, consumed: int, acc: seq<u64>, soFar: nat)
    requires 0 <= consumed <= |all| && consumed % BUFFER_SIZE == 0
    requires acc == AfterStripes(secret, all, consumed / STRIPE_LEN)
    requires soFar == Place(secret, consumed / STRIPE_LEN)
    ensures Absorbed(secret, all, consumed, acc, soFar)
  {
    hide StripesPerBlock, AfterStripes, Place;
  }

  /** The buffered bytes that end with the input: the stripes before the last one, and the last one. */
  lemma LastStripes(all: seq<byte>, consumed: int, buf: seq<byte>, size: nat)
    requires Buffered(all, consumed, buf, size) && size >= STRIPE_LEN
    requires consumed % STRIPE_LEN == 0
    ensures var n, k := (size - 1) / STRIPE_LEN, consumed / STRIPE_LEN;
            && k + n == (|all| - 1) / STRIPE_LEN && 0 <= n <= 3
            && buf[0..0 + STRIPE_LEN * n] == all[STRIPE_LEN * k..STRIPE_LEN * (k + n)]
            && Window(buf, size - STRIPE_LEN) == Window(all, |all| - STRIPE_LEN)
  {
    var n, k := (size - 1) / STRIPE_LEN, consumed / STRIPE_LEN;
    StripeCount(consumed, size);
    assert buf[0..0 + size] == all[consumed..consumed + size];
    SameWindow(buf, 0, all, consumed, size, 0, STRIPE_LEN * n);
    SameWindow(buf, 0, all, consumed, size, size - STRIPE_LEN, size);
  }

  lemma StripeCount(consumed: int, size: nat)
    requires 0 <= consumed && consumed % STRIPE_LEN == 0 && 0 < size <= BUFFER_SIZE
    ensures var n, k := (size - 1) / STRIPE_LEN, consumed / STRIPE_LEN;
      k + n == (consumed + size - 1) / STRIPE_LEN && 0 <= n <= 3 && consumed == STRIPE_LEN * k && STRIPE_LEN * n < size
  {
    var n, k := (size - 1) / STRIPE_LEN, consumed / STRIPE_LEN;
    ModUnique(consumed + size - 1, STRIPE_LEN, k + n, (size - 1) % STRIPE_LEN);
  }

  lemma AbsorbedMore(secret: Secret, all: seq<byte>, consumed: int, acc: seq<u64>, soFar: nat, bytes: seq<byte>)
    requires Absorbed(secret, all, consumed, acc, soFar)
    ensures Absorbed(secret, all + bytes, consumed, acc, soFar)
  {
    hide StripesPerBlock, AfterStripes, Place;
    AfterStripesPrefix(secret, all, bytes, consumed / STRIPE_LEN);
  }

  /** The last stripe rebuilt from the buffer's tail and head. */
  lemma CaughtUp(all: seq<byte>, consumed: int, buf: seq<byte>, size: nat)
    requires Buffered(all, consumed, buf, size) && size < STRIPE_LEN < |all| && consumed % STRIPE_LEN == 0
    ensures consumed / STRIPE_LEN == (|all| - 1) / STRIPE_LEN
    ensures buf[BUFFER_SIZE - (STRIPE_LEN - size)..] + buf[..size] == Window(all, |all| - STRIPE_LEN)
  {
    var tail := buf[BUFFER_SIZE - STRIPE_LEN..];
    assert buf[BUFFER_SIZE - (STRIPE_LEN - size)..] == tail[size..] == all[consumed - (STRIPE_LEN - size)..consumed];
  }

  /** A short total has not left the buffer. */
  lemma AllBuffered(secret: Secret, all: seq<byte>, consumed: int, acc: seq<u64>, soFar: nat, buf: seq<byte>, size: nat)
    requires Absorbed(secret, all, consumed, acc, soFar) && Buffered(all, consumed, buf, size)
    ensures |all| <= MIDSIZE_MAX ==> |all| <= BUFFER_SIZE && buf[..|all|] == all
  {
    if |all| <= MIDSIZE_MAX {
      assert consumed == 0;
      assert all[0..] == all;
    }
  }

  // ----- whole sessions -----

  /** A call on the state object, each with the code path its build or dispatch selects. */
  datatype Op =
    | Reset
    | ResetSeed(seed: u64)
    | ResetSecret(secret: Option<seq<byte>>)
    | Feed(input: Option<seq<byte>>)
    | Digest64
    | Digest128

  datatype Out = Code(ok: bool) | H64(h64: u64) | H128(h128: U128)

  /** The key and the text that a session has built up: `key` is None until a reset succeeds. */
  datatype Session = Session(key: Option<Key>, data: seq<byte>)

  /** A session may feed and digest only after a successful reset, and a digested text is shorter
      than 2^64 bytes, as every one-shot input is. */
  ghost predicate Legal(s: Session, op: Op)
  {
    match op
    case Reset => true
    case ResetSeed(_) => true
    case ResetSecret(secret) => secret.Some? ==> |secret.value| < W64
    case Feed(_) => s.key.Some?
    case _ => s.key.Some? && |s.data| < W64
  }

  /** What a call does to the session, and what it must return: one-shot hashes only. */
  ghost function After(s: Session, op: Op): Session
  {
    match op
    case Reset => Session(Some(Seeded(0)), [])
    case ResetSeed(seed) => Session(Some(Seeded(seed)), [])
    case ResetSecret(secret) =>
      if secret.Some? && |secret.value| >= SECRET_SIZE_MIN then Session(Some(WithSecret(secret.value)), [])
      else Session(None, [])
    case Feed(input) => if input.Some? then s.(data := s.data + input.value) else s
    case _ => s
  }

  ghost function Returned(s: Session, op: Op): Out
    requires Legal(s, op)
  {
    match op
    case Reset => Code(true)
    case ResetSeed(_) => Code(true)
    case ResetSecret(secret) => Code(secret.Some? && |secret.value| >= SECRET_SIZE_MIN)
    case Feed(input) => Code(input.Some?)
    case Digest64 => H64(Hash64(s.key.value, s.data))
    case Digest128 => H128(Hash128(s.key.value, s.data))
  }

  /** The session after the first `n` calls. */
  ghost function Reached(ops: seq<Op>, n: nat): Session
    requires n <= |ops|
  {
    if n == 0 then Session(None, []) else After(Reached(ops, n - 1), ops[n - 1])
  }

  /** Any sequence of calls on a freshly created state, whatever code path each call takes: call `i`
      returns what the one-shot functions say about the key and the text reached before it. */
  method RunSession(ops: seq<Op>, paths: seq<Vector>) returns (outs: seq<Out>)
    requires |paths| == |ops|
    requires forall i :: 0 <= i < |ops| ==> Legal(Reached(ops, i), ops[i])
    ensures |outs| == |ops|
    ensures forall i :: 0 <= i < |ops| ==> outs[i] == Returned(Reached(ops, i), ops[i])
  {
    hide Hash64, Hash128, Returned, After, Legal;
    hide Xxh3State.Agrees, Xxh3State.Valid, Xxh3State.Shape, Xxh3State.Keyed;
    var state := NewState();
    outs := [];
    for i := 0 to |ops|
      invariant |outs| == i && fresh(state.Repr)
      invariant state.Agrees(Reached(ops, i))
      invariant forall j :: 0 <= j < i ==> outs[j] == Returned(Reached(ops, j), ops[j])
    {
      var out := Call(state, ops[i], paths[i], Reached(ops, i));
      outs := outs + [out];
    }
  }

  method NewState() returns (state: Xxh3State)
    ensures fresh(state) && fresh(state.Repr) && state.Agrees(Session(None, []))
  {
    state := new Xxh3State();
  }

  method Call(state: Xxh3State, op: Op, v: Vector, ghost s: Session) returns (out: Out)
    requires state.Agrees(s) && Legal(s, op)
    modifies state.Repr
    ensures state.Agrees(After(s, op))
    ensures out == Returned(s, op)
  {
    hide Hash64, Hash128;
    match op
    case Reset =>
      state.Reset();
      out := Code(true);
    case ResetSeed(seed) =>
      state.ResetWithSeed(seed, v);
      out := Code(true);
    case ResetSecret(secret) =>
      var ok := state.ResetWithSecret(secret);
      out := Code(ok);
    case Feed(input) =>
      var ok := state.Update(input, v);
      out := Code(ok);
    case Digest64 =>
      var h := state.Digest64(v);
      out := H64(h);
    case Digest128 =>
      var h := state.Digest128(v);
      out := H128(h);
  }

  /** The XXH128 path of `XSUM_hashStream`: a file hashed block by block hashes as a whole. */
  method HashStream128(blocks: seq<seq<byte>>, v: Vector) returns (h: U128)
    requires |Flatten(blocks)| < W64
    ensures h == Hash128(Seeded(0), Flatten(blocks))
  {
    hide Hash128, Xxh3State.Valid, Xxh3State.Shape;
    var state := new Xxh3State();
    state.Reset();
    for i := 0 to |blocks|
      invariant state.Valid() && fresh(state.Repr) && state.key == Seeded(0)
      invariant state.data == Flatten(blocks[..i])
    {
      assert blocks[..i + 1][..i] == blocks[..i];
      var _ := state.Update(Some(blocks[i]), v);
    }
    assert blocks[..|blocks|] == blocks;
    h := state.Digest128(v);
  }

  /** The `--flatcache` file name: host and URI fed separately hash as their concatenation. */
  method FlatCacheName(hostWithProtocol: seq<byte>, uri: seq<byte>, v: Vector) returns (h: u64)
    requires |hostWithProtocol| + |uri| < W64
    ensures h == Hash64(Seeded(0), hostWithProtocol + uri)
  {
    hide Hash64, Xxh3State.Valid, Xxh3State.Shape;
    var state := new Xxh3State();
    state.Reset();
    var _ := state.Update(Some(hostWithProtocol), v);
    var _ := state.Update(Some(uri), v);
    assert [] + hostWithProtocol + uri == hostWithProtocol + uri;
    h := state.Digest64(v);
  }
}
