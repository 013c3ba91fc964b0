/** The sparse sample generator of the collision tester: a random buffer in which one combination of
    bits at a time is flipped, in place. */
module Sampler {
  import opened Wrappers
  import opened Words
  import opened Combinations

  const SPARSE_LEVEL_MAX := 15

  // ----- bits of a buffer -----

  function Xor8(x: byte, y: byte): byte
  {
    Pow2Values();
    BitwiseBound(8, x, y);
    Xor(x, y)
  }

  function Mask(k: nat): byte
    requires k < 8
  {
    Pow2Small(k);
    Pow2(k)
  }

  lemma Pow2Small(k: nat)
    requires k < 8
    ensures Pow2(k) <= 128
    decreases 7 - k
  {
    if k < 7 {
      Pow2Small(k + 1);
    } else {
      assert Pow2(7) == 128;
    }
  }

  ghost predicate BitAt(s: seq<byte>, i: nat)
    requires i < 8 * |s|
  {
    Bit(s[i / 8], i % 8)
  }

  /** `flipbit`. */
  function Flip(s: seq<byte>, b: nat): (r: seq<byte>)
    requires b < 8 * |s|
    ensures |r| == |s|
  {
    s[b / 8 := Xor8(s[b / 8], Mask(b % 8))]
  }

  ghost predicate InRange(c: seq<nat>, bits: nat)
  {
    forall i :: 0 <= i < |c| ==> c[i] < bits
  }

  /** The buffer with the bits of `c` flipped, first to last. */
  function FlipAll(s: seq<byte>, c: seq<nat>): (r: seq<byte>)
    requires InRange(c, 8 * |s|)
    ensures |r| == |s|
  {
    if c == [] then s else Flip(FlipAll(s, c[..|c| - 1]), c[|c| - 1])
  }

  lemma FlipTwice(s: seq<byte>, b: nat)
    requires b < 8 * |s|
    ensures Flip(Flip(s, b), b) == s
  {
    XorTwice(s[b / 8], Mask(b % 8));
  }

  lemma {:induction false} XorMaskBit(x: nat, k: nat, j: nat)
    ensures Bit(Xor(x, Pow2(k)), j) == (Bit(x, j) != (j == k))
    decreases k + j
  {
    var m := Pow2(k);
    var y := Xor(x, m);
    XorHalves(x, m);
    if j == 0 {
      assert m % 2 == 1 <==> k == 0;
    } else if k == 0 {
      XorZero(x / 2);
    } else {
      XorMaskBit(x / 2, k - 1, j - 1);
    }
  }

  lemma FlipBitAt(s: seq<byte>, b: nat, i: nat)
    requires b < 8 * |s| && i < 8 * |s|
    ensures BitAt(Flip(s, b), i) == (BitAt(s, i) != (i == b))
  {
    if i / 8 == b / 8 {
      XorMaskBit(s[b / 8], b % 8, i % 8);
    }
  }

  /** Flipping a combination changes exactly its bits. */
  lemma {:induction false} FlipAllBitAt(s: seq<byte>, c: seq<nat>, i: nat)
    requires IsCombo(c, 8 * |s|) && InRange(c, 8 * |s|) && i < 8 * |s|
    ensures BitAt(FlipAll(s, c), i) == (BitAt(s, i) != (i in c))
    decreases |c|
  {
    hide BitAt, Flip;
    if c != [] {
      var init, last := c[..|c| - 1], c[|c| - 1];
      ComboInit(c, 8 * |s|);
      ComboWeaken(init, last, 8 * |s|);
      ComboRoom(init, last);
      FlipAllBitAt(s, init, i);
      FlipBitAt(FlipAll(s, init), last, i);
      assert c == init + [last];
    }
  }

  lemma ComboHasElement(c: seq<nat>, max: nat)
    requires IsCombo(c, max) && c != []
    ensures c[0] in c && c[0] < max
  {
    ComboRoom(c, max);
  }

  /** A combination is determined by its bits. */
  lemma {:induction false} ComboElements(c: seq<nat>, d: seq<nat>, max: nat)
    requires IsCombo(c, max) && IsCombo(d, max)
    requires forall i :: 0 <= i < max ==> (i in c <==> i in d)
    ensures c == d
    decreases |c|
  {
    if c == [] || d == [] {
      if c != [] {
        ComboHasElement(c, max);
      }
      if d != [] {
        ComboHasElement(d, max);
      }
    } else {
      var c0, x, d0, y := c[..|c| - 1], c[|c| - 1], d[..|d| - 1], d[|d| - 1];
      assert c == c0 + [x] && d == d0 + [y];
      ComboRoom(c0, x);
      ComboRoom(d0, y);
      assert x in c && y in d;
      assert x == y;
      forall i | 0 <= i < x ensures i in c0 <==> i in d0 {
        assert i in c <==> i in c0;
        assert i in d <==> i in d0;
      }
      ComboElements(c0, d0, x);
    }
  }

  // ----- the sequence of samples -----

  /** The sample after `k` updates: the base buffer with the k-th combination flipped. */
  function Sample(base: seq<byte>, k: nat): seq<byte>
    requires k < Below(8 * |base|, SPARSE_LEVEL_MAX)
  {
    NthInRange(8 * |base|, k);
    FlipAll(base, Nth(8 * |base|, k))
  }

  lemma NthInRange(n: nat, k: nat)
    requires k < Below(n, SPARSE_LEVEL_MAX)
    ensures k < Below(n, n + 1) && IsCombo(Nth(n, k), n) && InRange(Nth(n, k), n)
    ensures |Nth(n, k)| < SPARSE_LEVEL_MAX
  {
    BelowCap(n, SPARSE_LEVEL_MAX);
    NthIndex(n, k);
    ComboRoom(Nth(n, k), n);
    IndexInLevel(Nth(n, k), n);
    if |Nth(n, k)| >= SPARSE_LEVEL_MAX {
      BelowMonotone(n, SPARSE_LEVEL_MAX, |Nth(n, k)|);
    }
  }

  lemma {:induction false} BelowCap(n: nat, level: nat)
    ensures Below(n, level) <= Below(n, n + 1)
    decreases level
  {
    if level <= n + 1 {
      BelowMonotone(n, level, n + 1);
    } else {
      BelowCap(n, level - 1);
      ChooseZero(n, level - 1);
    }
  }

  /** No sample is ever repeated. */
  lemma SamplesDistinct(base: seq<byte>, j: nat, k: nat)
    requires j < k < Below(8 * |base|, SPARSE_LEVEL_MAX)
    ensures Sample(base, j) != Sample(base, k)
  {
    var n := 8 * |base|;
    NthInRange(n, j);
    NthInRange(n, k);
    var c, d := Nth(n, j), Nth(n, k);
    if Sample(base, j) == Sample(base, k) {
      forall i | 0 <= i < n ensures i in c <==> i in d {
        FlipAllBitAt(base, c, i);
        FlipAllBitAt(base, d, i);
      }
      ComboElements(c, d, n);
      NthOrdered(n, j, k);
    }
  }

  // ----- the generator -----

  lemma FlipAllSnoc(s: seq<byte>, c: seq<nat>, x: nat)
    requires InRange(c, 8 * |s|) && x < 8 * |s|
    ensures InRange(c + [x], 8 * |s|) && FlipAll(s, c + [x]) == Flip(FlipAll(s, c), x)
  {
    assert (c + [x])[..|c|] == c;
  }

  lemma EraseLast(s: seq<byte>, c: seq<nat>)
    requires c != [] && InRange(c, 8 * |s|)
    ensures InRange(c[..|c| - 1], 8 * |s|)
    ensures Flip(FlipAll(s, c), c[|c| - 1]) == FlipAll(s, c[..|c| - 1])
  {
    FlipTwice(FlipAll(s, c[..|c| - 1]), c[|c| - 1]);
  }

  method FlipBit(buffer: array<byte>, bitID: nat)
    requires bitID < 8 * buffer.Length
    modifies buffer
    ensures buffer[..] == Flip(old(buffer[..]), bitID)
  {
    var pos := bitID / 8;
    buffer[pos] := Xor8(buffer[pos], Mask(bitID % 8));
  }

  /** The positions of `c` are stored in `idx[1..]`. */
  ghost predicate Stored(idx: seq<nat>, c: seq<nat>)
  {
    |c| < |idx| && forall i :: 0 <= i < |c| ==> idx[i + 1] == c[i]
  }

  /** What `updateBit` leaves in the buffer and in the indices. */
  ghost predicate Advanced(progress: bool, base: seq<byte>, c: seq<nat>, max: int, buf: seq<byte>, idx: seq<nat>)
  {
    var d := Succ(c, max);
    && progress == d.Some?
    && if progress then Stored(idx, d.value) && InRange(d.value, 8 * |base|) && buf == FlipAll(base, d.value)
       else Stored(idx, c) && buf == base
  }

  /** `updateBit`: on success the combination has advanced; on failure every bit of it has been erased
      and the indices are as before. */
  method UpdateBit(buffer: array<byte>, bitIdx: array<nat>, level: nat, max: nat, ghost base: seq<byte>, ghost c: seq<nat>)
    returns (progress: bool)
    requires level == |c| && Stored(bitIdx[..], c)
    requires max <= 8 * |base| && IsCombo(c, max) && InRange(c, 8 * |base|)
    requires buffer[..] == FlipAll(base, c)
    modifies buffer, bitIdx
    ensures Advanced(progress, base, c, max, buffer[..], bitIdx[..])
    ensures forall i :: 0 <= i < bitIdx.Length && (i == 0 || i > level) ==> bitIdx[i] == old(bitIdx[i])
    decreases level
  {
    hide Flip, FlipAll, IsCombo, InRange;
    if level == 0 {
      NoneFlipped(base);
      return false;
    }
    ghost var init, last := c[..level - 1], c[level - 1];
    assert bitIdx[level] == last;
    EraseLast(base, c);
    LastInRange(base, c);
    FlipBit(buffer, bitIdx[level]);
    ComboInit(c, max);
    if bitIdx[level] < max - 1 {
      bitIdx[level] := bitIdx[level] + 1;
      FlipAllSnoc(base, init, last + 1);
      FlipBit(buffer, bitIdx[level]);
      return true;
    }
    ComboWeaken(init, last, max - 1);
    progress := UpdateBit(buffer, bitIdx, level - 1, max - 1, base, init);
    if progress {
      ghost var lower := Succ(init, max - 1).value;
      SuccIsCombo(init, max - 1);
      LastInRange(base, lower);
      bitIdx[level] := bitIdx[level - 1] + 1;
      FlipAllSnoc(base, lower, lower[level - 2] + 1);
      FlipBit(buffer, bitIdx[level]);
    }
  }

  lemma LastInRange(base: seq<byte>, c: seq<nat>)
    requires c != [] && InRange(c, 8 * |base|)
    ensures |FlipAll(base, c)| == |base| && c[|c| - 1] < 8 * |base|
  {
  }

  lemma NoneFlipped(base: seq<byte>)
    ensures InRange([], 8 * |base|) && FlipAll(base, []) == base
  {
  }

  // ----- the sample factory -----

  const PRIME64_1: u64 := 11400714785074694791
  const PRIME64_2: u64 := 14029467366897019727
  const PRIME64_3: u64 := 1609587929392839161

  function Avalanche64(h: u64): u64
  {
    var h1 := Mul64(Xor64(h, Shr64(h, 33)), PRIME64_2);
    var h2 := Mul64(Xor64(h1, Shr64(h1, 29)), PRIME64_3);
    Xor64(h2, Shr64(h2, 32))
  }

  function RandomByte(n: u64): byte
  {
    Shr64(Mul64(Avalanche64(Add64(n, 1)), PRIME64_1), 56) % 256
  }

  /** The buffer before any update. */
  function BaseBuffer(size: nat, prngSeed: u64): (s: seq<byte>)
    ensures |s| == size
  {
    seq(size, i requires 0 <= i < size => RandomByte(Add64(prngSeed, i)))
  }

  /** `enoughCombos`, with exact binomials: are there `htotal` distinct samples within 14 flipped bits? */
  method EnoughCombos(size: nat, htotal: nat) returns (enough: bool)
    ensures enough <==> size >= 2 && htotal < Below(8 * size, SPARSE_LEVEL_MAX)
  {
    if size < 2 {
      return false;
    }
    var acc, srcBits, nbBitsSet := 0, size * 8, 0;
    while acc < htotal
      invariant 0 <= nbBitsSet < SPARSE_LEVEL_MAX && acc + 1 == Below(srcBits, nbBitsSet + 1)
      invariant nbBitsSet == 0 ==> acc == 0
      decreases SPARSE_LEVEL_MAX - nbBitsSet
    {
      nbBitsSet := nbBitsSet + 1;
      if nbBitsSet >= SPARSE_LEVEL_MAX {
        return false;
      }
      acc := acc + Choose(srcBits, nbBitsSet);
    }
    BelowMonotone(srcBits, nbBitsSet + 1, SPARSE_LEVEL_MAX);
    return true;
  }

  /** `sampleFactory`; `updates` counts the calls of `Update` since the last initialisation. */
  class SampleFactory {
    const buffer: array<byte>
    const bitIdx: array<nat>
    const prngSeed: u64
    const maxBitIdx: nat
    var level: nat
    ghost var updates: nat

    ghost function Base(): seq<byte>
    {
      BaseBuffer(buffer.Length, prngSeed)
    }

    ghost predicate Valid()
      reads this, buffer, bitIdx
    {
      && bitIdx.Length == SPARSE_LEVEL_MAX && maxBitIdx == 8 * buffer.Length
      && updates < Below(maxBitIdx, SPARSE_LEVEL_MAX)
      && level == |Nth(maxBitIdx, updates)| && Stored(bitIdx[..], Nth(maxBitIdx, updates))
      && buffer[..] == Sample(Base(), updates)
    }

    /** `create_sampleFactory`, up to the call of `init_sampleFactory`. */
    constructor (size: nat, seed: u64)
      ensures buffer.Length == size && bitIdx.Length == SPARSE_LEVEL_MAX && maxBitIdx == 8 * size && prngSeed == seed
      ensures fresh(buffer) && fresh(bitIdx)
    {
      buffer := new byte[size](_ => 0);
      bitIdx := new nat[SPARSE_LEVEL_MAX](_ => 0);
      maxBitIdx, prngSeed, level, updates := size * 8, seed, 0, 0;
    }

    /** `init_sampleFactory`: refuses when there are not enough distinct samples, and otherwise starts
        over from the base buffer. */
    method Init(htotal: nat) returns (ok: bool)
      requires bitIdx.Length == SPARSE_LEVEL_MAX && maxBitIdx == 8 * buffer.Length
      modifies this, buffer, bitIdx
      ensures ok <==> buffer.Length >= 2 && htotal < Below(maxBitIdx, SPARSE_LEVEL_MAX)
      ensures ok ==> Valid() && updates == 0
    {
      hide RandomByte, Below;
      ok := EnoughCombos(buffer.Length, htotal);
      if !ok {
        return;
      }
      forall i | 0 <= i < bitIdx.Length {
        bitIdx[i] := 0;
      }
      level, updates := 0, 0;
      for n := 0 to buffer.Length
        invariant forall i :: 0 <= i < n ==> buffer[i] == Base()[i]
        invariant level == updates == 0
      {
        buffer[n] := RandomByte(Add64(prngSeed, n));
      }
      assert buffer[..] == Base();
    }

    /** `update_sampleFactory`: the next combination, or the first one of the next level. */
    method Update()
      requires Valid() && updates + 1 < Below(maxBitIdx, SPARSE_LEVEL_MAX)
      modifies this, buffer, bitIdx
      ensures Valid() && updates == old(updates) + 1
    {
      hide Flip, FlipAll, IsCombo, Below, BaseBuffer, Nth, Succ, First;
      ghost var c := Nth(maxBitIdx, updates);
      NthInRange(maxBitIdx, updates);
      NthInRange(maxBitIdx, updates + 1);
      NthNext(maxBitIdx, updates);
      var progress := UpdateBit(buffer, bitIdx, level, maxBitIdx, Base(), c);
      if !progress {
        NextLevelFits(maxBitIdx, updates);
        level := level + 1;
        SetFirstBits();
      }
      updates := updates + 1;
    }

    /** The bits of a new level, set in an otherwise unflipped buffer. */
    method SetFirstBits()
      requires bitIdx.Length == SPARSE_LEVEL_MAX && maxBitIdx == 8 * buffer.Length
      requires level < SPARSE_LEVEL_MAX && level <= maxBitIdx && buffer[..] == Base()
      modifies buffer, bitIdx
      ensures Stored(bitIdx[..], First(level)) && InRange(First(level), maxBitIdx)
      ensures buffer[..] == FlipAll(Base(), First(level))
    {
      hide Flip, FlipAll, BaseBuffer;
      NoneFlipped(Base());
      assert First(0) == [];
      for i := 1 to level + 1
        invariant Stored(bitIdx[..], First(i - 1)) && InRange(First(i - 1), maxBitIdx)
        invariant buffer[..] == FlipAll(Base(), First(i - 1))
      {
        assert First(i) == First(i - 1) + [i - 1];
        FlipAllSnoc(Base(), First(i - 1), i - 1);
        bitIdx[i] := i - 1;
        FlipBit(buffer, bitIdx[i]);
      }
    }
  }

  lemma NthNext(n: nat, k: nat)
    ensures var c := Nth(n, k);
      Nth(n, k + 1) == if Succ(c, n).Some? then Succ(c, n).value else First(|c| + 1)
  {
  }

  /** There is always a level left while samples are due. */
  lemma NextLevelFits(n: nat, k: nat)
    requires k + 1 < Below(n, SPARSE_LEVEL_MAX) && Succ(Nth(n, k), n).None?
    ensures |Nth(n, k)| + 1 < SPARSE_LEVEL_MAX && |Nth(n, k)| < n
  {
    NthInRange(n, k);
    NthInRange(n, k + 1);
    ComboRoom(Nth(n, k + 1), n);
  }

  /** Equal combinations, hence equal samples, come from equal update counts: a sample names its place. */
  lemma SampleInjective(base: seq<byte>, j: nat, k: nat)
    requires j < Below(8 * |base|, SPARSE_LEVEL_MAX) && k < Below(8 * |base|, SPARSE_LEVEL_MAX)
    requires Sample(base, j) == Sample(base, k)
    ensures j == k
  {
    if j < k {
      SamplesDistinct(base, j, k);
    } else if k < j {
      SamplesDistinct(base, k, j);
    }
  }
}
