/** Longer texts: a byte that XXH3 reads once is never passed over. A byte that two of its windows
    cover is read twice, under two keys. */
module Xxh3Reads {
  import opened Words
  import opened Bits
  import opened LongMultiply
  import opened Xxh3Kernel
  import opened Xxh3Short
  import opened Xxh3Hash
  import opened Xxh3Distinct

  // ----- one mix -----

  predicate Covers(pos: nat, i: nat)
  {
    pos <= i < pos + 16
  }

  lemma MixSame(a: seq<byte>, b: seq<byte>, i: nat, pos: nat, secret: seq<byte>, sp: nat, seed: u64)
    requires OneByte(a, b, i) && pos + 16 <= |a| && sp + 16 <= |secret| && !Covers(pos, i)
    ensures Mix16B(a, pos, secret, sp, seed) == Mix16B(b, pos, secret, sp, seed)
  {
    hide ReadLE64, Mul128Fold64, Xor64;
    WordsSame(a, b, i, pos);
    WordsSame(a, b, i, pos + 8);
  }

  /** The other word of the window that covers `i`, and what keys it. */
  function Partner(pos: nat, i: nat): nat
  {
    if i < pos + 8 then pos + 8 else pos
  }

  function PartnerKey(pos: nat, i: nat, secret: seq<byte>, sp: nat, seed: u64): u64
    requires sp + 16 <= |secret|
  {
    if i < pos + 8 then Sub64(ReadLE64(secret, sp + 8), seed) else Add64(ReadLE64(secret, sp), seed)
  }

  /** The partner word is such that `x` is left of it under its key. */
  ghost predicate PartnerIs(a: seq<byte>, i: nat, pos: nat, secret: seq<byte>, sp: nat, seed: u64, x: u64)
  {
    && pos + 16 <= |a| && sp + 16 <= |secret|
    && Xor64(ReadLE64(a, Partner(pos, i)), PartnerKey(pos, i, secret, sp, seed)) == x
  }

  lemma FoldSwap(x: u64, y: u64)
    ensures Mul128Fold64(x, y) == Mul128Fold64(y, x)
  {
    hide Mult64to128, Xor64;
    var m, k := Mult64to128(x, y), Mult64to128(y, x);
    Mult64to128Exact(x, y);
    Mult64to128Exact(y, x);
    ModUnique(x * y, W64, m.high64, m.low64);
    ModUnique(y * x, W64, k.high64, k.low64);
  }

  lemma FoldOne(x: u64, y: u64)
    requires Mul128Fold64(x, 1) == Mul128Fold64(y, 1) || Mul128Fold64(1, x) == Mul128Fold64(1, y)
    ensures x == y
  {
    hide Mul128Fold64;
    FoldSwap(x, 1);
    FoldSwap(y, 1);
    assert Pow2(0) == 1;
    FoldInjective(x, y, 0);
  }

  lemma PartnerStays(a: seq<byte>, b: seq<byte>, i: nat, pos: nat, secret: seq<byte>, sp: nat, seed: u64, x: u64)
    requires OneByte(a, b, i) && Covers(pos, i) && PartnerIs(a, i, pos, secret, sp, seed, x)
    ensures PartnerIs(b, i, pos, secret, sp, seed, x)
  {
    hide ReadLE64, Xor64, PartnerKey;
    WordsSame(a, b, i, Partner(pos, i));
  }

  lemma MixDiffers(a: seq<byte>, b: seq<byte>, i: nat, pos: nat, secret: seq<byte>, sp: nat, seed: u64)
    requires OneByte(a, b, i) && Covers(pos, i) && PartnerIs(a, i, pos, secret, sp, seed, 1)
    ensures Mix16B(a, pos, secret, sp, seed) != Mix16B(b, pos, secret, sp, seed)
  {
    hide ReadLE64, Mul128Fold64, Xor64, Add64, Sub64;
    PartnerStays(a, b, i, pos, secret, sp, seed, 1);
    var word := if i < pos + 8 then pos else pos + 8;
    var key := if i < pos + 8 then Add64(ReadLE64(secret, sp), seed) else Sub64(ReadLE64(secret, sp + 8), seed);
    WordsDiffer(a, b, i, word);
    var x, y := ReadLE64(a, word), ReadLE64(b, word);
    if Mix16B(a, pos, secret, sp, seed) == Mix16B(b, pos, secret, sp, seed) {
      FoldOne(Xor64(x, key), Xor64(y, key));
      Xor64Injective(x, y, key);
    }
  }

  lemma MixNothing(a: seq<byte>, i: nat, pos: nat, secret: seq<byte>, sp: nat, seed: u64)
    requires Covers(pos, i) && PartnerIs(a, i, pos, secret, sp, seed, 0)
    ensures Mix16B(a, pos, secret, sp, seed) == 0
  {
    hide ReadLE64, Mul128Fold64, Xor64, Add64, Sub64;
    FoldZero(Xor64(ReadLE64(a, pos), Add64(ReadLE64(secret, sp), seed)));
    FoldZero(Xor64(ReadLE64(a, pos + 8), Sub64(ReadLE64(secret, sp + 8), seed)));
  }

  /** Such texts can be had. */
  lemma Chosen(n: nat, i: nat, pos: nat, secret: seq<byte>, sp: nat, seed: u64, x: u64) returns (a: seq<byte>, b: seq<byte>)
    requires Covers(pos, i) && pos + 16 <= n && sp + 16 <= |secret|
    ensures |a| == n && OneByte(a, b, i) && PartnerIs(a, i, pos, secret, sp, seed, x)
  {
    hide LEBytes, Xor, ReadLE64, Add64, Sub64;
    var p, key := Partner(pos, i), PartnerKey(pos, i, secret, sp, seed);
    var w := Xor64(x, key);
    a := seq(p, _ => 0) + LEBytes(w, 8) + seq(n - p - 8, _ => 0);
    b := a[i := 1];
    assert a[i] == 0 && b[i] == 1;
    assert a[p..p + 8] == LEBytes(w, 8);
    WordAt(a, p, w);
    XorTwice(x, key);
  }

  lemma AddSame(x: u64, y: u64, c: u64)
    ensures Add64(x, c) == Add64(y, c) <==> x == y
    ensures Add64(c, x) == Add64(c, y) <==> x == y
  {
    if Add64(x, c) == Add64(y, c) || Add64(c, x) == Add64(c, y) {
      AddInjective64(x, y, c);
    }
  }

  // ----- 17 to 128 bytes, 64 bits -----

  /** How many windows there are at either end. */
  function Pairs(n: nat): (k: nat)
    requires 16 < n <= 128
    ensures 1 <= k <= 4 && 32 * (k - 1) < n <= 32 * k
  {
    if n > 96 then 4 else if n > 64 then 3 else if n > 32 then 2 else 1
  }

  /** The mixes of the first and the last `k` windows, from the inside out. */
  function Inward(acc: u64, input: seq<byte>, secret: Secret, seed: u64, k: nat): u64
    requires 16 < |input| && k <= 4 && (k > 0 ==> 32 * (k - 1) < |input|)
    decreases k
  {
    hide MixEnds;
    if k == 0 then acc else Inward(MixEnds(acc, input, secret, seed, k - 1), input, secret, seed, k - 1)
  }

  lemma InwardIs(input: seq<byte>, secret: Secret, seed: u64)
    requires 16 < |input| <= 128
    ensures Len17To128(input, secret, seed) ==
            Avalanche(Inward(Mul64(|input|, PRIME64_1), input, secret, seed, Pairs(|input|)))
  {
    hide MixEnds, Avalanche, Mul64;
    var acc := Mul64(|input|, PRIME64_1);
    var acc3 := if |input| > 96 then MixEnds(acc, input, secret, seed, 3) else acc;
    var acc2 := if |input| > 64 then MixEnds(acc3, input, secret, seed, 2) else acc3;
    var acc1 := if |input| > 32 then MixEnds(acc2, input, secret, seed, 1) else acc2;
    assert Inward(acc1, input, secret, seed, 1) == MixEnds(acc1, input, secret, seed, 0);
    assert Inward(acc2, input, secret, seed, if |input| > 32 then 2 else 1) == Inward(acc1, input, secret, seed, 1);
    assert Inward(acc3, input, secret, seed, if |input| > 64 then 3 else if |input| > 32 then 2 else 1)
           == Inward(acc2, input, secret, seed, if |input| > 32 then 2 else 1);
  }

  /** The `k`-th window from the start, or from the end. */
  function WindowAt(n: nat, front: bool, k: nat): nat
    requires 16 * (k + 1) <= n
  {
    if front then 16 * k else n - 16 * (k + 1)
  }

  /** Of the `k` windows at either end, this one alone covers `i`. */
  ghost predicate Only(n: nat, i: nat, front: bool, at: nat, k: nat)
    requires n > 16 && (k > 0 ==> 16 * k <= n)
  {
    forall j, side :: 0 <= j < k ==> (Covers(WindowAt(n, side, j), i) <==> side == front && j == at)
  }

  lemma {:induction false} InwardSame(acc: u64, acc': u64, a: seq<byte>, b: seq<byte>, i: nat, secret: Secret, seed: u64, k: nat)
    requires 16 < |a| && OneByte(a, b, i) && k <= 4 && (k > 0 ==> 32 * (k - 1) < |a| && 16 * k <= |a|)
    requires forall j, side :: 0 <= j < k ==> !Covers(WindowAt(|a|, side, j), i)
    ensures Inward(acc, a, secret, seed, k) == Inward(acc', b, secret, seed, k) <==> acc == acc'
    decreases k
  {
    hide Mix16B, Add64, Covers;
    if k > 0 {
      assert !Covers(WindowAt(|a|, true, k - 1), i) && !Covers(WindowAt(|a|, false, k - 1), i);
      MixSame(a, b, i, 16 * (k - 1), secret, 32 * (k - 1), seed);
      MixSame(a, b, i, |a| - 16 * k, secret, 32 * (k - 1) + 16, seed);
      var m := Mix16B(a, 16 * (k - 1), secret, 32 * (k - 1), seed);
      AddSame(acc, acc', m);
      AddSame(Add64(acc, m), Add64(acc', m), Mix16B(a, |a| - 16 * k, secret, 32 * (k - 1) + 16, seed));
      InwardSame(MixEnds(acc, a, secret, seed, k - 1), MixEnds(acc', b, secret, seed, k - 1), a, b, i, secret, seed, k - 1);
    }
  }

  /** The secret's place for a window. */
  function SecretAt(front: bool, k: nat): nat
  {
    if front then 32 * k else 32 * k + 16
  }

  lemma {:induction false} InwardDiffers(acc: u64, a: seq<byte>, b: seq<byte>, i: nat, secret: Secret, seed: u64,
                                         front: bool, at: nat, k: nat)
    requires 16 < |a| && OneByte(a, b, i) && at < k <= 4 && 32 * (k - 1) < |a| && 16 * k <= |a|
    requires Only(|a|, i, front, at, k)
    requires PartnerIs(a, i, WindowAt(|a|, front, at), secret, SecretAt(front, at), seed, 1)
    ensures Inward(acc, a, secret, seed, k) != Inward(acc, b, secret, seed, k)
    decreases k
  {
    hide Mix16B, Add64, Covers, PartnerIs;
    var p, q, sp := 16 * (k - 1), |a| - 16 * k, 32 * (k - 1);
    assert Covers(WindowAt(|a|, true, k - 1), i) <==> front && k - 1 == at;
    assert Covers(WindowAt(|a|, false, k - 1), i) <==> !front && k - 1 == at;
    var m, m' := Mix16B(a, p, secret, sp, seed), Mix16B(b, p, secret, sp, seed);
    var e, e' := Mix16B(a, q, secret, sp + 16, seed), Mix16B(b, q, secret, sp + 16, seed);
    if k - 1 == at {
      if front {
        MixDiffers(a, b, i, p, secret, sp, seed);
        MixSame(a, b, i, q, secret, sp + 16, seed);
      } else {
        MixSame(a, b, i, p, secret, sp, seed);
        MixDiffers(a, b, i, q, secret, sp + 16, seed);
      }
      AddSame(m, m', acc);
      AddSame(Add64(acc, m), Add64(acc, m'), e);
      AddSame(e, e', Add64(acc, m));
      InwardSame(MixEnds(acc, a, secret, seed, k - 1), MixEnds(acc, b, secret, seed, k - 1), a, b, i, secret, seed, k - 1);
    } else {
      MixSame(a, b, i, p, secret, sp, seed);
      MixSame(a, b, i, q, secret, sp + 16, seed);
      InwardDiffers(MixEnds(acc, a, secret, seed, k - 1), a, b, i, secret, seed, front, at, k - 1);
    }
  }

  /** The bytes that the 64-bit hash of a text of 17 to 240 bytes reads once. */
  predicate ReadOnce(n: nat, i: nat)
    requires 16 < n <= MIDSIZE_MAX
  {
    i < n &&
    if n <= 128 then i < n - 16 * Pairs(n) || 16 * Pairs(n) <= i
    else i < n - 16 || 16 * (n / 16) <= i
  }

  lemma Located(n: nat, i: nat) returns (front: bool, at: nat)
    requires 16 < n <= 128 && ReadOnce(n, i)
    ensures at < Pairs(n) && 16 * Pairs(n) <= n && Only(n, i, front, at, Pairs(n))
    ensures Covers(WindowAt(n, front, at), i)
  {
    front := i < 16 * Pairs(n);
    at := if front then i / 16 else (n - 1 - i) / 16;
    forall j, side | 0 <= j < Pairs(n) ensures Covers(WindowAt(n, side, j), i) <==> side == front && j == at {
      if side {
        InWindow(i, j);
      } else {
        InWindow(n - 1 - i, j);
      }
    }
    InWindow(if front then i else n - 1 - i, at);
  }

  lemma InWindow(i: nat, j: nat)
    ensures 16 * j <= i < 16 * j + 16 <==> j == i / 16
  {
  }

  lemma Matters17To128(n: nat, i: nat, secret: Secret, seed: u64) returns (a: seq<byte>, b: seq<byte>)
    requires 16 < n <= 128 && ReadOnce(n, i)
    ensures |a| == n && OneByte(a, b, i) && Len17To128(a, secret, seed) != Len17To128(b, secret, seed)
  {
    hide Len17To128, Inward, Only, PartnerIs, Avalanche, ReadOnce, OneByte;
    var front, at := Located(n, i);
    a, b := Chosen(n, i, WindowAt(n, front, at), secret, SecretAt(front, at), seed, 1);
    assert |b| == n by { SameLength(a, b, i); }
    var acc, k := Mul64(n, PRIME64_1), Pairs(n);
    InwardDiffers(acc, a, b, i, secret, seed, front, at, k);
    InwardIs(a, secret, seed);
    InwardIs(b, secret, seed);
    if Len17To128(a, secret, seed) == Len17To128(b, secret, seed) {
      AvalancheInjective(Inward(acc, a, secret, seed, k), Inward(acc, b, secret, seed, k));
    }
  }

  // ----- 129 to 240 bytes, 64 bits -----

  lemma {:induction false} RoundsSame(acc: u64, acc': u64, a: seq<byte>, b: seq<byte>, i: nat, secret: Secret, seed: u64,
                                      lo: nat, hi: nat, shift: int)
    requires OneByte(a, b, i) && lo <= hi && 16 * hi <= |a|
    requires lo < hi ==> 0 <= 16 * lo - shift && 16 * hi - shift <= |secret|
    requires !(16 * lo <= i < 16 * hi)
    ensures MixRounds(acc, a, secret, seed, lo, hi, shift) == MixRounds(acc', b, secret, seed, lo, hi, shift) <==> acc == acc'
    decreases hi
  {
    hide Mix16B, Add64;
    if lo < hi {
      RoundsSame(acc, acc', a, b, i, secret, seed, lo, hi - 1, shift);
      MixSame(a, b, i, 16 * (hi - 1), secret, 16 * (hi - 1) - shift, seed);
      AddSame(MixRounds(acc, a, secret, seed, lo, hi - 1, shift), MixRounds(acc', b, secret, seed, lo, hi - 1, shift),
              Mix16B(a, 16 * (hi - 1), secret, 16 * (hi - 1) - shift, seed));
    }
  }

  lemma {:induction false} RoundsDiffer(acc: u64, a: seq<byte>, b: seq<byte>, i: nat, secret: Secret, seed: u64,
                                        lo: nat, hi: nat, shift: int)
    requires OneByte(a, b, i) && lo <= i / 16 < hi && 16 * hi <= |a|
    requires 0 <= 16 * lo - shift && 16 * hi - shift <= |secret|
    requires PartnerIs(a, i, 16 * (i / 16), secret, 16 * (i / 16) - shift, seed, 1)
    ensures MixRounds(acc, a, secret, seed, lo, hi, shift) != MixRounds(acc, b, secret, seed, lo, hi, shift)
    decreases hi
  {
    hide Mix16B, Add64, PartnerIs;
    var p := 16 * (hi - 1);
    var u, v := MixRounds(acc, a, secret, seed, lo, hi - 1, shift), MixRounds(acc, b, secret, seed, lo, hi - 1, shift);
    if i / 16 == hi - 1 {
      RoundsSame(acc, acc, a, b, i, secret, seed, lo, hi - 1, shift);
      MixDiffers(a, b, i, p, secret, p - shift, seed);
      AddSame(Mix16B(a, p, secret, p - shift, seed), Mix16B(b, p, secret, p - shift, seed), u);
    } else {
      RoundsDiffer(acc, a, b, i, secret, seed, lo, hi - 1, shift);
      MixSame(a, b, i, p, secret, p - shift, seed);
      AddSame(u, v, Mix16B(a, p, secret, p - shift, seed));
    }
  }

  const LAST_SECRET := SECRET_SIZE_MIN - MIDSIZE_LASTOFFSET

  lemma Matters129To240(n: nat, i: nat, secret: Secret, seed: u64) returns (a: seq<byte>, b: seq<byte>)
    requires 128 < n <= MIDSIZE_MAX && ReadOnce(n, i)
    ensures |a| == n && OneByte(a, b, i) && Len129To240(a, secret, seed) != Len129To240(b, secret, seed)
  {
    hide MixRounds, Mix16B, Avalanche, Mul64, Add64, PartnerIs;
    var start, shift, nbRounds := Mul64(n, PRIME64_1), 128 - MIDSIZE_STARTOFFSET, n / 16;
    var last := i >= 16 * nbRounds;
    var pos := if last then n - 16 else 16 * (i / 16);
    var sp := if last then LAST_SECRET else if i < 128 then 16 * (i / 16) else 16 * (i / 16) - shift;
    a, b := Chosen(n, i, pos, secret, sp, seed, 1);
    var u, v := MixRounds(start, a, secret, seed, 0, 8, 0), MixRounds(start, b, secret, seed, 0, 8, 0);
    var u', v' := MixRounds(Avalanche(u), a, secret, seed, 8, nbRounds, shift),
                  MixRounds(Avalanche(v), b, secret, seed, 8, nbRounds, shift);
    var m, m' := Mix16B(a, n - 16, secret, LAST_SECRET, seed), Mix16B(b, n - 16, secret, LAST_SECRET, seed);
    if i < 128 {
      RoundsDiffer(start, a, b, i, secret, seed, 0, 8, 0);
      if Avalanche(u) == Avalanche(v) {
        AvalancheInjective(u, v);
      }
      RoundsSame(Avalanche(u), Avalanche(v), a, b, i, secret, seed, 8, nbRounds, shift);
      MixSame(a, b, i, n - 16, secret, LAST_SECRET, seed);
      AddSame(u', v', m);
    } else {
      RoundsSame(start, start, a, b, i, secret, seed, 0, 8, 0);
      if last {
        RoundsSame(Avalanche(u), Avalanche(v), a, b, i, secret, seed, 8, nbRounds, shift);
        MixDiffers(a, b, i, n - 16, secret, LAST_SECRET, seed);
        AddSame(m, m', u');
      } else {
        RoundsDiffer(Avalanche(u), a, b, i, secret, seed, 8, nbRounds, shift);
        MixSame(a, b, i, n - 16, secret, LAST_SECRET, seed);
        AddSame(u', v', m);
      }
    }
    if Len129To240(a, secret, seed) == Len129To240(b, secret, seed) {
      AvalancheInjective(Add64(u', m), Add64(v', m'));
    }
  }

  /** No byte that is read once is passed over by the 64-bit hash, whatever the key. */
  lemma ReadOnceMatters64(key: Key, n: nat, i: nat) returns (a: seq<byte>, b: seq<byte>)
    requires 16 < n <= MIDSIZE_MAX && ReadOnce(n, i)
    ensures |a| == n && OneByte(a, b, i) && Hash64(key, a) != Hash64(key, b)
  {
    hide Len17To128, Len129To240, KSecret, ReadOnce;
    if n <= 128 {
      a, b := Matters17To128(n, i, ShortSecret(key), ShortSeed(key));
    } else {
      a, b := Matters129To240(n, i, ShortSecret(key), ShortSeed(key));
    }
  }

  // ----- 128 bits -----

  /** Each half is the same in both or in neither. */
  ghost predicate SameHalves(u: U128, v: U128, u': U128, v': U128)
  {
    (u.low64 == v.low64 <==> u'.low64 == v'.low64) && (u.high64 == v.high64 <==> u'.high64 == v'.high64)
  }

  /** One half is the same, the other is not. */
  ghost predicate Apart(u: U128, v: U128)
  {
    (u.low64 == v.low64) != (u.high64 == v.high64)
  }

  lemma XorSame(x: u64, y: u64, c: u64)
    ensures Xor64(x, c) == Xor64(y, c) <==> x == y
    ensures Xor64(c, x) == Xor64(c, y) <==> x == y
  {
    hide Xor;
    XorSwap(c, x);
    XorSwap(c, y);
    if Xor64(x, c) == Xor64(y, c) || Xor64(c, x) == Xor64(c, y) {
      Xor64Injective(x, y, c);
    }
  }

  /** The sum of a window's two words, which the wide mix puts into the other half. */
  function TwoWords(input: seq<byte>, pos: nat): u64
    requires pos + 16 <= |input|
  {
    Add64(ReadLE64(input, pos), ReadLE64(input, pos + 8))
  }

  lemma WordsSum(a: seq<byte>, b: seq<byte>, i: nat, pos: nat)
    requires OneByte(a, b, i) && pos + 16 <= |a|
    ensures TwoWords(a, pos) == TwoWords(b, pos) <==> !Covers(pos, i)
  {
    hide ReadLE64, Add64;
    var x, y, x', y' := ReadLE64(a, pos), ReadLE64(a, pos + 8), ReadLE64(b, pos), ReadLE64(b, pos + 8);
    if pos <= i < pos + 8 {
      WordsDiffer(a, b, i, pos);
      WordsSame(a, b, i, pos + 8);
      AddSame(x, x', y);
    } else if Covers(pos, i) {
      WordsSame(a, b, i, pos);
      WordsDiffer(a, b, i, pos + 8);
      AddSame(y, y', x);
    } else {
      WordsSame(a, b, i, pos);
      WordsSame(a, b, i, pos + 8);
    }
  }

  lemma Mix32Same(acc: U128, acc': U128, a: seq<byte>, b: seq<byte>, i: nat, ip1: nat, ip2: nat, secret: seq<byte>, sp: nat, seed: u64)
    requires OneByte(a, b, i) && ip1 + 16 <= |a| && ip2 + 16 <= |a| && sp + 32 <= |secret|
    requires !Covers(ip1, i) && !Covers(ip2, i)
    ensures SameHalves(acc, acc', Mix32B(acc, a, ip1, ip2, secret, sp, seed), Mix32B(acc', b, ip1, ip2, secret, sp, seed))
  {
    hide Mix16B, Add64, Xor64, ReadLE64;
    MixSame(a, b, i, ip1, secret, sp, seed);
    MixSame(a, b, i, ip2, secret, sp + 16, seed);
    WordsSum(a, b, i, ip1);
    WordsSum(a, b, i, ip2);
    var m, e := Mix16B(a, ip1, secret, sp, seed), Mix16B(a, ip2, secret, sp + 16, seed);
    AddSame(acc.low64, acc'.low64, m);
    AddSame(acc.high64, acc'.high64, e);
    XorSame(Add64(acc.low64, m), Add64(acc'.low64, m), TwoWords(a, ip2));
    XorSame(Add64(acc.high64, e), Add64(acc'.high64, e), TwoWords(a, ip1));
  }

  lemma Mix32Differs(acc: U128, a: seq<byte>, b: seq<byte>, i: nat, ip1: nat, ip2: nat, secret: seq<byte>, sp: nat, seed: u64)
    requires OneByte(a, b, i) && ip1 + 16 <= |a| && ip2 + 16 <= |a| && sp + 32 <= |secret|
    requires Covers(ip1, i) != Covers(ip2, i)
    requires if Covers(ip1, i) then PartnerIs(a, i, ip1, secret, sp, seed, 0) else PartnerIs(a, i, ip2, secret, sp + 16, seed, 0)
    ensures Apart(Mix32B(acc, a, ip1, ip2, secret, sp, seed), Mix32B(acc, b, ip1, ip2, secret, sp, seed))
  {
    hide Mix16B, Add64, Xor64, ReadLE64, PartnerIs;
    WordsSum(a, b, i, ip1);
    WordsSum(a, b, i, ip2);
    if Covers(ip1, i) {
      PartnerStays(a, b, i, ip1, secret, sp, seed, 0);
      MixNothing(a, i, ip1, secret, sp, seed);
      MixNothing(b, i, ip1, secret, sp, seed);
      MixSame(a, b, i, ip2, secret, sp + 16, seed);
      XorSame(TwoWords(a, ip1), TwoWords(b, ip1), Add64(acc.high64, Mix16B(a, ip2, secret, sp + 16, seed)));
    } else {
      PartnerStays(a, b, i, ip2, secret, sp + 16, seed, 0);
      MixNothing(a, i, ip2, secret, sp + 16, seed);
      MixNothing(b, i, ip2, secret, sp + 16, seed);
      MixSame(a, b, i, ip1, secret, sp, seed);
      XorSame(TwoWords(a, ip2), TwoWords(b, ip2), Add64(acc.low64, Mix16B(a, ip1, secret, sp, seed)));
    }
  }

  lemma FinishApart(u: U128, v: U128, len: nat, seed: u64)
    requires Apart(u, v)
    ensures Finish128(u, len, seed).low64 != Finish128(v, len, seed).low64
  {
    hide Add64, Mul64, Avalanche, Sub64;
    AddSame(u.low64, v.low64, u.high64);
    AddSame(u.high64, v.high64, v.low64);
    if Avalanche(Add64(u.low64, u.high64)) == Avalanche(Add64(v.low64, v.high64)) {
      AvalancheInjective(Add64(u.low64, u.high64), Add64(v.low64, v.high64));
    }
  }

  function Inward128(acc: U128, input: seq<byte>, secret: Secret, seed: u64, k: nat): U128
    requires 16 < |input| && k <= 4 && (k > 0 ==> 32 * (k - 1) < |input|)
    decreases k
  {
    hide Ends32B;
    if k == 0 then acc else Inward128(Ends32B(acc, input, secret, seed, k - 1), input, secret, seed, k - 1)
  }

  lemma Inward128Is(input: seq<byte>, secret: Secret, seed: u64)
    requires 16 < |input| <= 128
    ensures Len17To128_128(input, secret, seed) ==
            Finish128(Inward128(U128(Mul64(|input|, PRIME64_1), 0), input, secret, seed, Pairs(|input|)), |input|, seed)
  {
    hide Ends32B, Finish128, Mul64;
    var acc := U128(Mul64(|input|, PRIME64_1), 0);
    var acc3 := if |input| > 96 then Ends32B(acc, input, secret, seed, 3) else acc;
    var acc2 := if |input| > 64 then Ends32B(acc3, input, secret, seed, 2) else acc3;
    var acc1 := if |input| > 32 then Ends32B(acc2, input, secret, seed, 1) else acc2;
    assert Inward128(acc1, input, secret, seed, 1) == Ends32B(acc1, input, secret, seed, 0);
    assert Inward128(acc2, input, secret, seed, if |input| > 32 then 2 else 1) == Inward128(acc1, input, secret, seed, 1);
    assert Inward128(acc3, input, secret, seed, if |input| > 64 then 3 else if |input| > 32 then 2 else 1)
           == Inward128(acc2, input, secret, seed, if |input| > 32 then 2 else 1);
  }

  lemma {:induction false} Inward128Same(acc: U128, acc': U128, a: seq<byte>, b: seq<byte>, i: nat, secret: Secret, seed: u64, k: nat)
    requires 16 < |a| && OneByte(a, b, i) && k <= 4 && (k > 0 ==> 32 * (k - 1) < |a| && 16 * k <= |a|)
    requires forall j, side :: 0 <= j < k ==> !Covers(WindowAt(|a|, side, j), i)
    ensures SameHalves(acc, acc', Inward128(acc, a, secret, seed, k), Inward128(acc', b, secret, seed, k))
    decreases k
  {
    hide Mix32B, Covers;
    if k > 0 {
      assert !Covers(WindowAt(|a|, true, k - 1), i) && !Covers(WindowAt(|a|, false, k - 1), i);
      Mix32Same(acc, acc', a, b, i, 16 * (k - 1), |a| - 16 * k, secret, 32 * (k - 1), seed);
      Inward128Same(Ends32B(acc, a, secret, seed, k - 1), Ends32B(acc', b, secret, seed, k - 1), a, b, i, secret, seed, k - 1);
    }
  }

  lemma {:induction false} Inward128Differs(acc: U128, a: seq<byte>, b: seq<byte>, i: nat, secret: Secret, seed: u64,
                                            front: bool, at: nat, k: nat)
    requires 16 < |a| && OneByte(a, b, i) && at < k <= 4 && 32 * (k - 1) < |a| && 16 * k <= |a|
    requires Only(|a|, i, front, at, k)
    requires PartnerIs(a, i, WindowAt(|a|, front, at), secret, SecretAt(front, at), seed, 0)
    ensures Apart(Inward128(acc, a, secret, seed, k), Inward128(acc, b, secret, seed, k))
    decreases k
  {
    hide Mix32B, Covers, PartnerIs;
    var p, q, sp := 16 * (k - 1), |a| - 16 * k, 32 * (k - 1);
    assert Covers(WindowAt(|a|, true, k - 1), i) <==> front && k - 1 == at;
    assert Covers(WindowAt(|a|, false, k - 1), i) <==> !front && k - 1 == at;
    var u, v := Ends32B(acc, a, secret, seed, k - 1), Ends32B(acc, b, secret, seed, k - 1);
    if k - 1 == at {
      Mix32Differs(acc, a, b, i, p, q, secret, sp, seed);
      Inward128Same(u, v, a, b, i, secret, seed, k - 1);
    } else {
      Mix32Same(acc, acc, a, b, i, p, q, secret, sp, seed);
      Inward128Differs(u, a, b, i, secret, seed, front, at, k - 1);
    }
  }

  lemma Wide17To128(n: nat, i: nat, secret: Secret, seed: u64) returns (a: seq<byte>, b: seq<byte>)
    requires 16 < n <= 128 && ReadOnce(n, i)
    ensures |a| == n && OneByte(a, b, i) && Len17To128_128(a, secret, seed).low64 != Len17To128_128(b, secret, seed).low64
  {
    hide Len17To128_128, Inward128, Only, PartnerIs, Finish128, ReadOnce, OneByte, Apart;
    var front, at := Located(n, i);
    a, b := Chosen(n, i, WindowAt(n, front, at), secret, SecretAt(front, at), seed, 0);
    assert |b| == n by { SameLength(a, b, i); }
    var acc, k := U128(Mul64(n, PRIME64_1), 0), Pairs(n);
    Inward128Differs(acc, a, b, i, secret, seed, front, at, k);
    Inward128Is(a, secret, seed);
    Inward128Is(b, secret, seed);
    FinishApart(Inward128(acc, a, secret, seed, k), Inward128(acc, b, secret, seed, k), n, seed);
  }

  lemma {:induction false} WideRoundsSame(acc: U128, acc': U128, a: seq<byte>, b: seq<byte>, i: nat, secret: Secret, seed: u64,
                                          lo: nat, hi: nat, shift: int)
    requires OneByte(a, b, i) && lo <= hi && 32 * hi <= |a|
    requires lo < hi ==> 0 <= 32 * lo - shift && 32 * hi - shift <= |secret|
    requires !(32 * lo <= i < 32 * hi)
    ensures SameHalves(acc, acc', Mix32Rounds(acc, a, secret, seed, lo, hi, shift), Mix32Rounds(acc', b, secret, seed, lo, hi, shift))
    decreases hi
  {
    hide Mix32B;
    if lo < hi {
      WideRoundsSame(acc, acc', a, b, i, secret, seed, lo, hi - 1, shift);
      Mix32Same(Mix32Rounds(acc, a, secret, seed, lo, hi - 1, shift), Mix32Rounds(acc', b, secret, seed, lo, hi - 1, shift),
                a, b, i, 32 * (hi - 1), 32 * (hi - 1) + 16, secret, 32 * (hi - 1) - shift, seed);
    }
  }

  lemma {:induction false} WideRoundsDiffer(acc: U128, a: seq<byte>, b: seq<byte>, i: nat, secret: Secret, seed: u64,
                                            lo: nat, hi: nat, shift: int, r: nat, pos: nat, sp: nat)
    requires OneByte(a, b, i) && lo <= r < hi && 32 * hi <= |a|
    requires 0 <= 32 * lo - shift && 32 * hi - shift <= |secret|
    requires (pos == 32 * r || pos == 32 * r + 16) && sp == pos - shift && Covers(pos, i) && PartnerIs(a, i, pos, secret, sp, seed, 0)
    ensures Apart(Mix32Rounds(acc, a, secret, seed, lo, hi, shift), Mix32Rounds(acc, b, secret, seed, lo, hi, shift))
    decreases hi
  {
    hide Mix32B, PartnerIs;
    var p := 32 * (hi - 1);
    var u, v := Mix32Rounds(acc, a, secret, seed, lo, hi - 1, shift), Mix32Rounds(acc, b, secret, seed, lo, hi - 1, shift);
    if r == hi - 1 {
      WideRoundsSame(acc, acc, a, b, i, secret, seed, lo, hi - 1, shift);
      Mix32Differs(u, a, b, i, p, p + 16, secret, p - shift, seed);
    } else {
      WideRoundsDiffer(acc, a, b, i, secret, seed, lo, hi - 1, shift, r, pos, sp);
      Mix32Same(u, v, a, b, i, p, p + 16, secret, p - shift, seed);
    }
  }

  lemma Avalanche128Same(u: U128, v: U128)
    ensures SameHalves(u, v, Avalanche128(u), Avalanche128(v))
  {
    hide Avalanche;
    if Avalanche(u.low64) == Avalanche(v.low64) { AvalancheInjective(u.low64, v.low64); }
    if Avalanche(u.high64) == Avalanche(v.high64) { AvalancheInjective(u.high64, v.high64); }
  }

  /** The bytes that the 128-bit hash of a text of 17 to 240 bytes reads once. */
  predicate WideReadOnce(n: nat, i: nat)
    requires 16 < n <= MIDSIZE_MAX
  {
    i < n && if n <= 128 then ReadOnce(n, i) else i < n - 32 || 32 * (n / 32) <= i
  }

  /** The window that reads byte `i`, and its place in the secret. */
  function WidePos(n: nat, i: nat): nat
    requires 128 < n <= MIDSIZE_MAX && WideReadOnce(n, i)
  {
    if i < 32 * (n / 32) then 16 * (i / 16) else if i < n - 16 then n - 32 else n - 16
  }

  function WideSecretAt(n: nat, i: nat): nat
    requires 128 < n <= MIDSIZE_MAX && WideReadOnce(n, i)
  {
    if i >= 32 * (n / 32) then (if i < n - 16 then LAST_SECRET else LAST_SECRET - 16)
    else if i < 128 then 16 * (i / 16) else 16 * (i / 16) - (128 - MIDSIZE_STARTOFFSET)
  }

  lemma WidePlace(n: nat, i: nat)
    requires 128 < n <= MIDSIZE_MAX && WideReadOnce(n, i)
    ensures var pos := WidePos(n, i);
            Covers(pos, i) && pos + 16 <= n && WideSecretAt(n, i) + 16 <= SECRET_SIZE_MIN
            && (i < 32 * (n / 32) ==> pos in {32 * (i / 32), 32 * (i / 32) + 16} && (i < 128 <==> i / 32 < 4) && i / 32 < n / 32)
            && (if i < 32 * (n / 32) then !Covers(n - 16, i) && !Covers(n - 32, i)
                else pos in {n - 16, n - 32} && (Covers(n - 16, i) <==> pos == n - 16) && (Covers(n - 32, i) <==> pos == n - 32))
  {
  }

  lemma Wide129To240(n: nat, i: nat, secret: Secret, seed: u64) returns (a: seq<byte>, b: seq<byte>)
    requires 128 < n <= MIDSIZE_MAX && WideReadOnce(n, i)
    ensures |a| == n && OneByte(a, b, i) && Len129To240_128(a, secret, seed).low64 != Len129To240_128(b, secret, seed).low64
  {
    hide Mix32Rounds, Mix32B, Avalanche128, Finish128, Mul64, PartnerIs, Covers;
    var start, shift, nbRounds := U128(Mul64(n, PRIME64_1), 0), 128 - MIDSIZE_STARTOFFSET, n / 32;
    var last, lastSeed := i >= 32 * nbRounds, Sub64(0, seed);
    WidePlace(n, i);
    var pos, sp := WidePos(n, i), WideSecretAt(n, i);
    a, b := Chosen(n, i, pos, secret, sp, if last then lastSeed else seed, 0);
    var u, v := Mix32Rounds(start, a, secret, seed, 0, 4, 0), Mix32Rounds(start, b, secret, seed, 0, 4, 0);
    var mid, mid' := Avalanche128(u), Avalanche128(v);
    Avalanche128Same(u, v);
    var u', v' := Mix32Rounds(mid, a, secret, seed, 4, nbRounds, shift), Mix32Rounds(mid', b, secret, seed, 4, nbRounds, shift);
    var end, end' := Mix32B(u', a, n - 16, n - 32, secret, LAST_SECRET - 16, lastSeed),
                     Mix32B(v', b, n - 16, n - 32, secret, LAST_SECRET - 16, lastSeed);
    if last {
      WideRoundsSame(start, start, a, b, i, secret, seed, 0, 4, 0);
      WideRoundsSame(mid, mid', a, b, i, secret, seed, 4, nbRounds, shift);
      Mix32Differs(u', a, b, i, n - 16, n - 32, secret, LAST_SECRET - 16, lastSeed);
    } else {
      if i < 128 {
        WideRoundsDiffer(start, a, b, i, secret, seed, 0, 4, 0, i / 32, pos, sp);
        WideRoundsSame(mid, mid', a, b, i, secret, seed, 4, nbRounds, shift);
      } else {
        WideRoundsSame(start, start, a, b, i, secret, seed, 0, 4, 0);
        WideRoundsDiffer(mid, a, b, i, secret, seed, 4, nbRounds, shift, i / 32, pos, sp);
      }
      Mix32Same(u', v', a, b, i, n - 16, n - 32, secret, LAST_SECRET - 16, lastSeed);
    }
    FinishApart(end, end', n, seed);
  }

  /** No byte that is read once is passed over by the 128-bit hash, whatever the key. */
  lemma ReadOnceMatters128(key: Key, n: nat, i: nat) returns (a: seq<byte>, b: seq<byte>)
    requires 16 < n <= MIDSIZE_MAX && WideReadOnce(n, i)
    ensures |a| == n && OneByte(a, b, i) && Hash128(key, a) != Hash128(key, b)
  {
    hide Len17To128_128, Len129To240_128, KSecret, ReadOnce;
    if n <= 128 {
      a, b := Wide17To128(n, i, ShortSecret(key), ShortSeed(key));
    } else {
      a, b := Wide129To240(n, i, ShortSecret(key), ShortSeed(key));
    }
  }
}
