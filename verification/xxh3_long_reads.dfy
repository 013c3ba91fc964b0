/** Texts of more than 240 bytes: a byte that only one stripe reads is never passed over. Its lane's
    neighbour tells the texts apart, and a word of the first stripe can be chosen so that the folding
    of the accumulators keeps that. */
module Xxh3LongReads {
  import opened Words
  import opened Bits
  import opened LongMultiply
  import opened Xxh3Kernel
  import opened Xxh3Short
  import opened Xxh3Hash
  import opened Xxh3Distinct
  import opened Xxh3Reads

  // ----- one lane, one stripe -----

  lemma ScrambleInjective(x: u64, y: u64, key: u64)
    ensures ScrambleLane(x, key) == ScrambleLane(y, key) <==> x == y
  {
    hide Xor, Shr64, Mul64;
    var u, v := XorShift64(x, 47), XorShift64(y, 47);
    if ScrambleLane(x, key) == ScrambleLane(y, key) {
      MulInjective64(Xor64(u, key), Xor64(v, key), PRIME32_1, 14962265741255716689, 2153028908);
      Xor64Injective(u, v, key);
      XorShift64Injective(x, y, 47);
    }
  }

  /** Every lane value comes out of the scramble of some lane value. */
  lemma Unscramble(y: u64, key: u64) returns (x: u64)
    ensures ScrambleLane(x, key) == y
  {
    hide Xor, Shr64;
    var p := Mul64(y, 14962265741255716689);
    MulInverse(y, 14962265741255716689, PRIME32_1, 2153028908, W64);
    var u := Xor64(p, key);
    XorTwice(p, key);
    x := XorShift64(u, 47);
    Unshift47(u);
  }

  lemma Unshift47(u: u64)
    ensures XorShift64(XorShift64(u, 47), 47) == u
  {
    hide Xor, Halve, Bit, Pow2;
    Pow2Values();
    var x := XorShift64(u, 47);
    var z := XorShift64(x, 47);
    forall j | 0 <= j < 64 ensures Bit(z, j) == Bit(u, j) {
      BitXorShift(u, 47, j);
      BitXorShift(x, 47, j);
      BitXorShift(u, 47, j + 47);
      NoHighBit(u, 64, j + 94);
    }
    BitsEqual(z, u, 64);
  }

  lemma BitXorShift(x: u64, k: nat, j: nat)
    ensures Bit(XorShift64(x, k), j) == (Bit(x, j) != Bit(x, j + k))
  {
    hide Xor, Halve, Bit, Pow2;
    BitXor(x, Shr64(x, k), j);
    ShiftIsHalve(x, k);
    BitHalve(x, k, j);
  }

  /** Lane `j` after the stripe that starts at `pos`, under the secret segment at `sp`. */
  function LaneAdds(x: u64, data: seq<byte>, pos: nat, secret: seq<byte>, sp: nat, j: nat): u64
    requires j < ACC_NB && pos + STRIPE_LEN <= |data| && sp + STRIPE_LEN <= |secret|
  {
    Add64(x + ReadLE64(data, pos + 8 * Neighbour(j)),
          KeyedProduct(ReadLE64(data, pos + 8 * j), ReadLE64(secret, sp + 8 * j)))
  }

  lemma WindowWord(s: seq<byte>, pos: nat, k: nat)
    requires k + 8 <= STRIPE_LEN && pos + STRIPE_LEN <= |s|
    ensures ReadLE64(Window(s, pos), k) == ReadLE64(s, pos + k)
  {
    hide LE;
    var w, t := Window(s, pos)[k..k + 8], s[pos + k..pos + k + 8];
    assert forall i :: 0 <= i < 8 ==> w[i] == s[pos..pos + STRIPE_LEN][k + i] == t[i];
    assert w == t;
  }

  lemma LaneOf(acc: Acc, data: seq<byte>, pos: nat, secret: seq<byte>, sp: nat, j: nat)
    requires j < ACC_NB && pos + STRIPE_LEN <= |data| && sp + STRIPE_LEN <= |secret|
    ensures Accumulate512(acc, Window(data, pos), Window(secret, sp))[j] == LaneAdds(acc[j], data, pos, secret, sp, j)
  {
    hide ReadLE64, KeyedProduct, Window;
    WindowWord(data, pos, 8 * Neighbour(j));
    WindowWord(data, pos, 8 * j);
    WindowWord(secret, sp, 8 * j);
  }

  lemma LaneAddsSame(x: u64, y: u64, data: seq<byte>, pos: nat, secret: seq<byte>, sp: nat, j: nat)
    requires j < ACC_NB && pos + STRIPE_LEN <= |data| && sp + STRIPE_LEN <= |secret|
    ensures LaneAdds(x, data, pos, secret, sp, j) == LaneAdds(y, data, pos, secret, sp, j) <==> x == y
  {
    hide ReadLE64, KeyedProduct;
    var d, p := ReadLE64(data, pos + 8 * Neighbour(j)),
                KeyedProduct(ReadLE64(data, pos + 8 * j), ReadLE64(secret, sp + 8 * j));
    AddSame(x, y, (d + p) % W64);
    AddModular(d + p, x);
    AddModular(d + p, y);
  }

  /** The lane value from which a stripe makes `y`. */
  lemma LaneBefore(y: u64, data: seq<byte>, pos: nat, secret: seq<byte>, sp: nat, j: nat) returns (x: u64)
    requires j < ACC_NB && pos + STRIPE_LEN <= |data| && sp + STRIPE_LEN <= |secret|
    ensures LaneAdds(x, data, pos, secret, sp, j) == y
  {
    hide ReadLE64, KeyedProduct;
    var c := ReadLE64(data, pos + 8 * Neighbour(j)) + KeyedProduct(ReadLE64(data, pos + 8 * j), ReadLE64(secret, sp + 8 * j));
    x := (y - c) % W64;
    ModUnique(x + c, W64, (x + c - y) / W64, y);
  }

  // ----- two texts that differ in one byte -----

  /** The accumulators are the same in all lanes but `nb`, and there exactly if not `apart`. */
  ghost predicate Lanes(u: Acc, v: Acc, nb: nat, apart: bool)
    requires nb < ACC_NB
  {
    (forall j :: 0 <= j < ACC_NB && j != nb ==> u[j] == v[j]) && (u[nb] != v[nb] <==> apart)
  }

  /** The keyed word has one bit at most: one of its halves is nothing. */
  ghost predicate HalfEmpty(data: seq<byte>, pos: nat, secret: seq<byte>, sp: nat)
    requires pos + 8 <= |data| && sp + 8 <= |secret|
  {
    KeyedProduct(ReadLE64(data, pos), ReadLE64(secret, sp)) == 0
  }

  lemma StripeApart(u: Acc, v: Acc, a: seq<byte>, b: seq<byte>, i: nat, pos: nat, secret: seq<byte>, sp: nat, nb: nat, apart: bool)
    requires OneByte(a, b, i) && pos + STRIPE_LEN <= |a| && sp + STRIPE_LEN <= |secret| && nb < ACC_NB
    requires Lanes(u, v, nb, apart)
    requires var w := Neighbour(nb); pos <= i < pos + STRIPE_LEN ==>
               !apart && pos + 8 * w <= i < pos + 8 * w + 8
               && HalfEmpty(a, pos + 8 * w, secret, sp + 8 * w) && HalfEmpty(b, pos + 8 * w, secret, sp + 8 * w)
    ensures Lanes(Accumulate512(u, Window(a, pos), Window(secret, sp)), Accumulate512(v, Window(b, pos), Window(secret, sp)),
                  nb, apart || pos <= i < pos + STRIPE_LEN)
  {
    hide ReadLE64, KeyedProduct, Accumulate512, LaneAdds, OneByte;
    var w, inside := Neighbour(nb), pos <= i < pos + STRIPE_LEN;
    SameLength(a, b, i);
    forall j | 0 <= j < ACC_NB
      ensures var x, y := Accumulate512(u, Window(a, pos), Window(secret, sp))[j], Accumulate512(v, Window(b, pos), Window(secret, sp))[j];
        x == y <==> u[j] == v[j] && !(inside && j == nb)
    {
      LaneOf(u, a, pos, secret, sp, j);
      LaneOf(v, b, pos, secret, sp, j);
      LaneApart(u[j], v[j], a, b, i, pos, secret, sp, j, inside, w);
    }
  }

  lemma LaneApart(x: u64, y: u64, a: seq<byte>, b: seq<byte>, i: nat, pos: nat, secret: seq<byte>, sp: nat, j: nat, inside: bool, w: nat)
    requires OneByte(a, b, i) && pos + STRIPE_LEN <= |a| && sp + STRIPE_LEN <= |secret| && j < ACC_NB && w < ACC_NB
    requires inside <==> pos <= i < pos + STRIPE_LEN
    requires inside ==> pos + 8 * w <= i < pos + 8 * w + 8 && (j == Neighbour(w) ==> x == y)
    requires inside ==> HalfEmpty(a, pos + 8 * w, secret, sp + 8 * w) && HalfEmpty(b, pos + 8 * w, secret, sp + 8 * w)
    ensures LaneAdds(x, a, pos, secret, sp, j) == LaneAdds(y, b, pos, secret, sp, j) <==> x == y && !(inside && j == Neighbour(w))
  {
    hide ReadLE64, KeyedProduct;
    var n := Neighbour(j);
    LaneAddsSame(x, y, b, pos, secret, sp, j);
    if !inside || j != w {
      WordsSame(a, b, i, pos + 8 * j);
    }
    if inside && n == w {
      WordsDiffer(a, b, i, pos + 8 * n);
      var d, e, p := ReadLE64(a, pos + 8 * n), ReadLE64(b, pos + 8 * n),
                     KeyedProduct(ReadLE64(a, pos + 8 * j), ReadLE64(secret, sp + 8 * j));
      SumsDiffer(x, d, e, p);
    } else {
      WordsSame(a, b, i, pos + 8 * n);
    }
  }

  lemma SumsDiffer(x: u64, d: u64, e: u64, p: u64)
    ensures Add64(x + d, p) == Add64(x + e, p) <==> d == e
  {
    AddSame(d, e, (x + p) % W64);
    AddModular(x + p, d);
    AddModular(x + p, e);
  }

  /** Where the key of stripe `k` is. */
  function KeyAt(secret: Secret, k: nat): (sp: nat)
    ensures sp + STRIPE_LEN <= |secret|
  {
    SECRET_CONSUME_RATE * Place(secret, k)
  }

  function LastKeyAt(secret: Secret): nat
  {
    |secret| - STRIPE_LEN - SECRET_LASTACC_START
  }

  lemma ScrambleApart(u: Acc, v: Acc, nb: nat, apart: bool, secret: seq<byte>)
    requires nb < ACC_NB && Lanes(u, v, nb, apart) && |secret| == STRIPE_LEN
    ensures Lanes(ScrambleAcc(u, secret), ScrambleAcc(v, secret), nb, apart)
  {
    hide ScrambleLane, ReadLE64;
    ScrambleInjective(u[nb], v[nb], ReadLE64(secret, 8 * nb));
  }

  /** Byte `i` lies in a word of its stripe that is keyed to (almost) nothing in both texts. */
  ghost predicate Inside(secret: Secret, a: seq<byte>, b: seq<byte>, i: nat, nb: nat)
    requires nb < ACC_NB
  {
    var at, w := i / STRIPE_LEN, Neighbour(nb);
    && STRIPE_LEN * at + STRIPE_LEN <= |a| == |b| && STRIPE_LEN * at + 8 * w <= i < STRIPE_LEN * at + 8 * w + 8
    && HalfEmpty(a, STRIPE_LEN * at + 8 * w, secret, KeyAt(secret, at) + 8 * w)
    && HalfEmpty(b, STRIPE_LEN * at + 8 * w, secret, KeyAt(secret, at) + 8 * w)
  }

  /** From the stripe of byte `i` on, and not before, the neighbour's lane is another one. */
  lemma {:induction false} StripesApart(secret: Secret, a: seq<byte>, b: seq<byte>, i: nat, n: nat, nb: nat, inLast: bool)
    requires OneByte(a, b, i) && STRIPE_LEN * n <= |a| && nb < ACC_NB
    requires if inLast then n <= i / STRIPE_LEN else Inside(secret, a, b, i, nb)
    ensures Lanes(AfterStripes(secret, a, n), AfterStripes(secret, b, n), nb, i / STRIPE_LEN < n)
    decreases n
  {
    hide Accumulate512, ScrambleAcc, ScrambleSecret, Window, HalfEmpty, Place, StripesPerBlock, Lanes, OneByte;
    SameLength(a, b, i);
    if n == 0 {
      SameLanes(INIT_ACC, nb);
    } else {
      StripesApart(secret, a, b, i, n - 1, nb, inLast);
      var u, v := AfterStripes(secret, a, n - 1), AfterStripes(secret, b, n - 1);
      var pos, sp := STRIPE_LEN * (n - 1), KeyAt(secret, n - 1);
      InStripe(i, n - 1);
      StripeApart(u, v, a, b, i, pos, secret, sp, nb, i / STRIPE_LEN < n - 1);
      var u', v' := Accumulate512(u, Window(a, pos), Window(secret, sp)), Accumulate512(v, Window(b, pos), Window(secret, sp));
      ScrambleApart(u', v', nb, i / STRIPE_LEN < n, ScrambleSecret(secret));
      NextStripe(secret, a, n);
      NextStripe(secret, b, n);
    }
  }

  lemma InStripe(i: nat, k: nat)
    ensures STRIPE_LEN * k <= i < STRIPE_LEN * k + STRIPE_LEN <==> i / STRIPE_LEN == k
  {
  }

  lemma SameLanes(u: Acc, nb: nat)
    requires nb < ACC_NB
    ensures Lanes(u, u, nb, false)
  {
  }

  lemma NextStripe(secret: Secret, data: seq<byte>, n: nat)
    requires 0 < n && STRIPE_LEN * n <= |data|
    ensures var acc := Accumulate512(AfterStripes(secret, data, n - 1), Window(data, STRIPE_LEN * (n - 1)),
                                     Window(secret, KeyAt(secret, n - 1)));
            AfterStripes(secret, data, n) ==
            if n % StripesPerBlock(|secret|) == 0 then ScrambleAcc(acc, ScrambleSecret(secret)) else acc
  {
    hide Accumulate512, ScrambleAcc, ScrambleSecret, Window;
    InBlock(n - 1, StripesPerBlock(|secret|));
  }

  // ----- a lane steered by a word of the first stripe -----

  /** The text with another word at `pos`. */
  function WithWord(data: seq<byte>, pos: nat, w: u64): (r: seq<byte>)
    requires pos + 8 <= |data|
    ensures |r| == |data|
  {
    data[..pos] + LEBytes(w, 8) + data[pos + 8..]
  }

  lemma WithWordReads(data: seq<byte>, pos: nat, w: u64, k: nat)
    requires pos + 8 <= |data| && k + 8 <= |data|
    ensures k == pos ==> ReadLE64(WithWord(data, pos, w), k) == w
    ensures k + 8 <= pos || pos + 8 <= k ==> ReadLE64(WithWord(data, pos, w), k) == ReadLE64(data, k)
  {
    hide LE, LEBytes;
    var r := WithWord(data, pos, w);
    if k == pos {
      assert r[pos..pos + 8] == LEBytes(w, 8);
      WordAt(r, pos, w);
    } else if k + 8 <= pos || pos + 8 <= k {
      assert r[k..k + 8] == data[k..k + 8];
    }
  }

  /** Some word at the neighbour's place of the first stripe brings lane `j` to `x` after `n` stripes. */
  lemma {:induction false} Steer(secret: Secret, data: seq<byte>, n: nat, j: nat, x: u64) returns (w: u64)
    requires 0 < n && STRIPE_LEN * n <= |data| && j < ACC_NB
    ensures AfterStripes(secret, WithWord(data, 8 * Neighbour(j), w), n)[j] == x
    decreases n
  {
    hide Accumulate512, ScrambleAcc, ScrambleSecret, Window, LaneAdds, KeyedProduct, ReadLE64, WithWord, AfterStripes, StripesPerBlock, LEBytes;
    var p := 8 * Neighbour(j);
    var y := x;
    if n % StripesPerBlock(|secret|) == 0 {
      y := Unscramble(x, ReadLE64(ScrambleSecret(secret), 8 * j));
    }
    var pos, sp := STRIPE_LEN * (n - 1), KeyAt(secret, n - 1);
    if n == 1 {
      w := FirstWord(data, secret, sp, j, y);
      Start(secret, WithWord(data, p, w));
    } else {
      var z := LaneBefore(y, data, pos, secret, sp, j);
      w := Steer(secret, data, n - 1, j, z);
      SameAdds(data, p, w, z, pos, secret, sp, j);
    }
    var r := WithWord(data, p, w);
    NextStripe(secret, r, n);
    LaneOf(AfterStripes(secret, r, n - 1), r, pos, secret, sp, j);
    ScrambledLane(Accumulate512(AfterStripes(secret, r, n - 1), Window(r, pos), Window(secret, sp)), ScrambleSecret(secret), j);
  }

  lemma Start(secret: Secret, data: seq<byte>)
    ensures AfterStripes(secret, data, 0) == INIT_ACC
  {
  }

  lemma ScrambledLane(acc: Acc, secret: seq<byte>, j: nat)
    requires |secret| == STRIPE_LEN && j < ACC_NB
    ensures ScrambleAcc(acc, secret)[j] == ScrambleLane(acc[j], ReadLE64(secret, 8 * j))
  {
  }

  lemma SameAdds(data: seq<byte>, p: nat, w: u64, z: u64, pos: nat, secret: seq<byte>, sp: nat, j: nat)
    requires j < ACC_NB && pos + STRIPE_LEN <= |data| && sp + STRIPE_LEN <= |secret| && p + 8 <= STRIPE_LEN <= pos
    ensures LaneAdds(z, WithWord(data, p, w), pos, secret, sp, j) == LaneAdds(z, data, pos, secret, sp, j)
  {
    hide WithWord, ReadLE64, KeyedProduct;
    WithWordReads(data, p, w, pos + 8 * j);
    WithWordReads(data, p, w, pos + 8 * Neighbour(j));
  }

  lemma FirstWord(data: seq<byte>, secret: seq<byte>, sp: nat, j: nat, y: u64) returns (w: u64)
    requires j < ACC_NB && STRIPE_LEN <= |data| && sp + STRIPE_LEN <= |secret|
    ensures LaneAdds(INIT_ACC[j], WithWord(data, 8 * Neighbour(j), w), 0, secret, sp, j) == y
  {
    hide WithWord, ReadLE64, KeyedProduct;
    var c := INIT_ACC[j] + KeyedProduct(ReadLE64(data, 8 * j), ReadLE64(secret, sp + 8 * j));
    w := (y - c) % W64;
    WithWordReads(data, 8 * Neighbour(j), w, 8 * j);
    WithWordReads(data, 8 * Neighbour(j), w, 8 * Neighbour(j));
    ModUnique(w + c, W64, (w + c - y) / W64, y);
  }

  // ----- the folding -----

  /** Where lane `w` meets `1`, its pair tells the accumulators apart, and the other pairs are the same. */
  lemma {:induction false} MergeApart(u: Acc, v: Acc, w: nat, secret: seq<byte>, sp: nat, start: u64, m: nat)
    requires w < ACC_NB && Lanes(u, v, Neighbour(w), true) && m <= 4 && sp + 64 <= |secret|
    requires Xor64(u[w], ReadLE64(secret, sp + 8 * w)) == 1
    ensures MergeRounds(u, secret, sp, start, m) == MergeRounds(v, secret, sp, start, m) <==> m <= w / 2
    decreases m
  {
    hide Xor64, ReadLE64, Mul128Fold64, Add64;
    if m > 0 {
      MergeApart(u, v, w, secret, sp, start, m - 1);
      var k, k' := ReadLE64(secret, sp + 16 * m - 16), ReadLE64(secret, sp + 16 * m - 8);
      var f := Mul128Fold64(Xor64(u[2 * m - 2], k), Xor64(u[2 * m - 1], k'));
      var g := Mul128Fold64(Xor64(v[2 * m - 2], k), Xor64(v[2 * m - 1], k'));
      var x, y := MergeRounds(u, secret, sp, start, m - 1), MergeRounds(v, secret, sp, start, m - 1);
      if w / 2 == m - 1 {
        if f == g {
          if w == 2 * m - 2 {
            FoldOne(Xor64(u[w + 1], k'), Xor64(v[w + 1], k'));
            Xor64Injective(u[w + 1], v[w + 1], k');
          } else {
            FoldOne(Xor64(u[w - 1], k), Xor64(v[w - 1], k));
            Xor64Injective(u[w - 1], v[w - 1], k);
          }
        }
        AddSame(f, g, x);
      } else {
        AddSame(x, y, f);
      }
    }
  }

  // ----- the texts -----

  lemma KeyedToNothing(x: u64, key: u64, k: nat)
    requires k < 8 && Pow2(8 * k) < W64 && Xor64(x, key) in {0, Pow2(8 * k)}
    ensures KeyedProduct(x, key) == 0
  {
    hide Xor, And, Pow2, Mult32to64;
    var dk := Xor64(x, key);
    Pow2Values();
    MaskIsMod(32, dk);
    assert Pow2(32) - 1 == 0xFFFFFFFF;
    HalfOfPower(dk, k);
    Product0(dk % W32, dk / W32);
  }

  lemma Product0(x: nat, y: nat)
    requires x == 0 || y == 0
    ensures Mult32to64(x, y) == 0
  {
  }

  lemma HalfOfPower(x: nat, k: nat)
    requires k < 8 && x in {0, Pow2(8 * k)}
    ensures x % W32 == 0 || x / W32 == 0
  {
    hide Pow2;
    Pow2Values();
    if k < 4 {
      Pow2Grows(8 * k, 31);
      Half32();
    } else {
      ShiftedUp(8 * k - 32);
    }
  }

  lemma Half32()
    ensures Pow2(31) < W32
  {
    assert Pow2(32) == 2 * Pow2(31);
    Pow2Values();
  }

  lemma {:induction false} ShiftedUp(k: nat)
    ensures Pow2(k + 32) == W32 * Pow2(k)
  {
    if k == 0 {
      Pow2Values();
    } else {
      ShiftedUp(k - 1);
    }
  }

  /** Where byte `i` is read, and under which key: in its stripe, or in the last 64 bytes. */
  function WordPos(n: nat, i: nat): nat
    requires n > MIDSIZE_MAX && i < n
  {
    if i < n - STRIPE_LEN then i / 8 * 8 else n - STRIPE_LEN + (i - (n - STRIPE_LEN)) / 8 * 8
  }

  function WordLane(n: nat, i: nat): (w: nat)
    requires n > MIDSIZE_MAX && i < n
    ensures w < ACC_NB
  {
    if i < n - STRIPE_LEN then i / 8 % 8 else (i - (n - STRIPE_LEN)) / 8
  }

  function WordKey(n: nat, i: nat, secret: Secret): nat
    requires n > MIDSIZE_MAX && i < n
  {
    (if i < n - STRIPE_LEN then KeyAt(secret, i / STRIPE_LEN) else LastKeyAt(secret)) + 8 * WordLane(n, i)
  }

  /** The bytes that only one stripe reads. */
  predicate StripeReadOnce(n: nat, i: nat)
    requires n > MIDSIZE_MAX
  {
    i < n - STRIPE_LEN || STRIPE_LEN * ((n - 1) / STRIPE_LEN) <= i < n
  }

  lemma WordPlace(n: nat, i: nat)
    requires n > MIDSIZE_MAX && StripeReadOnce(n, i)
    ensures var q, w, nb := WordPos(n, i), WordLane(n, i), Neighbour(WordLane(n, i));
      q <= i < q + 8 <= n && nb < ACC_NB && Neighbour(nb) == w && (q + 8 <= 8 * nb || 8 * nb + 8 <= q)
      && if i < n - STRIPE_LEN then i / STRIPE_LEN < (n - 1) / STRIPE_LEN && q == STRIPE_LEN * (i / STRIPE_LEN) + 8 * w
         else (n - 1) / STRIPE_LEN <= i / STRIPE_LEN && q == n - STRIPE_LEN + 8 * w
  {
    assert i == 8 * (i / 8) + i % 8 && i / 8 == 8 * (i / 8 / 8) + i / 8 % 8;
    ModUnique(i, STRIPE_LEN, i / 8 / 8, 8 * (i / 8 % 8) + i % 8);
  }

  /** The last 64 bytes are a stripe under their own key. */
  lemma LastStripe(secret: Secret, data: seq<byte>, j: nat)
    requires |data| > MIDSIZE_MAX && j < ACC_NB
    ensures LongAcc(secret, data)[j] == LaneAdds(AfterStripes(secret, data, (|data| - 1) / STRIPE_LEN)[j], data, |data| - STRIPE_LEN,
                                                 secret, LastKeyAt(secret), j)
  {
    hide Accumulate512, LaneAdds, AfterStripes, Window;
    LaneOf(AfterStripes(secret, data, (|data| - 1) / STRIPE_LEN), data, |data| - STRIPE_LEN, secret, LastKeyAt(secret), j);
  }

  /** A text whose word around byte `i` is its key, and whose lane comes to any value one likes. */
  lemma Crafted(secret: Secret, n: nat, i: nat, y: u64) returns (a: seq<byte>)
    requires n > MIDSIZE_MAX && StripeReadOnce(n, i)
    ensures |a| == n && LongAcc(secret, a)[WordLane(n, i)] == y
    ensures WordPos(n, i) + 8 <= n && WordKey(n, i, secret) + 8 <= |secret|
            && ReadLE64(a, WordPos(n, i)) == ReadLE64(secret, WordKey(n, i, secret))
  {
    hide WithWord, ReadLE64, LaneAdds, AfterStripes, LongAcc, WordPos, WordLane, KeyAt;
    WordPlace(n, i);
    var q, w, stripes := WordPos(n, i), WordLane(n, i), (n - 1) / STRIPE_LEN;
    var nothing := seq(n, _ => 0);
    var key := ReadLE64(secret, WordKey(n, i, secret));
    var data := WithWord(nothing, q, key);
    WithWordReads(nothing, q, key, q);
    var x := LaneBefore(y, data, n - STRIPE_LEN, secret, LastKeyAt(secret), w);
    var s := Steer(secret, data, stripes, w, x);
    a := WithWord(data, 8 * Neighbour(w), s);
    SameAdds(data, 8 * Neighbour(w), s, x, n - STRIPE_LEN, secret, LastKeyAt(secret), w);
    WithWordReads(data, 8 * Neighbour(w), s, q);
    LastStripe(secret, a, w);
  }

  lemma FlippedOnce(a: seq<byte>, i: nat)
    requires i < |a|
    ensures OneByte(a, a[i := Flipped(a[i])], i)
  {
  }

  /** One bit of byte `i` changed: the keyed word has one bit, or none. */
  lemma BothEmpty(a: seq<byte>, i: nat, q: nat, secret: seq<byte>, kp: nat)
    requires q <= i < q + 8 <= |a| && kp + 8 <= |secret| && ReadLE64(a, q) == ReadLE64(secret, kp)
    ensures HalfEmpty(a, q, secret, kp) && HalfEmpty(a[i := Flipped(a[i])], q, secret, kp)
  {
    hide ReadLE64, Xor, KeyedProduct, Pow2;
    var key, b := ReadLE64(secret, kp), a[i := Flipped(a[i])];
    BytePowers(i - q);
    KeyedFlip(a, i, q, key);
    XorSelf(key);
    XorSwap(0, Pow2(8 * (i - q)));
    XorZero(Pow2(8 * (i - q)));
    KeyedToNothing(ReadLE64(a, q), key, i - q);
    KeyedToNothing(ReadLE64(b, q), key, i - q);
  }

  /** The lane next to the word's is another one, and no other lane is. */
  lemma LongLanes(secret: Secret, a: seq<byte>, b: seq<byte>, i: nat)
    requires OneByte(a, b, i) && |a| > MIDSIZE_MAX && StripeReadOnce(|a|, i)
    requires WordPos(|a|, i) + 8 <= |a| && WordKey(|a|, i, secret) + 8 <= |secret|
    requires HalfEmpty(a, WordPos(|a|, i), secret, WordKey(|a|, i, secret)) && HalfEmpty(b, WordPos(|a|, i), secret, WordKey(|a|, i, secret))
    ensures |b| == |a| && Neighbour(WordLane(|a|, i)) < ACC_NB && Lanes(LongAcc(secret, a), LongAcc(secret, b), Neighbour(WordLane(|a|, i)), true)
  {
    hide HalfEmpty, Accumulate512, AfterStripes, Window, Lanes, OneByte, Place, WordPos, WordLane;
    SameLength(a, b, i);
    WordPlace(|a|, i);
    var n, w, stripes, inLast := |a|, WordLane(|a|, i), (|a| - 1) / STRIPE_LEN, i >= |a| - STRIPE_LEN;
    var nb := Neighbour(w);
    StripesApart(secret, a, b, i, stripes, nb, inLast);
    StripeApart(AfterStripes(secret, a, stripes), AfterStripes(secret, b, stripes), a, b, i, n - STRIPE_LEN,
                secret, LastKeyAt(secret), nb, i / STRIPE_LEN < stripes);
  }

  lemma LongMatters(secret: Secret, n: nat, i: nat, start: u64) returns (a: seq<byte>, b: seq<byte>)
    requires n > MIDSIZE_MAX && StripeReadOnce(n, i)
    ensures |a| == n && OneByte(a, b, i)
    ensures MergeAccs(LongAcc(secret, a), secret, SECRET_MERGEACCS_START, start)
            != MergeAccs(LongAcc(secret, b), secret, SECRET_MERGEACCS_START, start)
  {
    hide LongAcc, WordPos, WordKey, WordLane, ReadLE64, Xor, HalfEmpty, Lanes, MergeRounds, Avalanche, OneByte, Flipped;
    var w, sp := WordLane(n, i), SECRET_MERGEACCS_START;
    var k := ReadLE64(secret, sp + 8 * w);
    var y := Xor64(1, k);
    XorTwice(1, k);
    a := Crafted(secret, n, i, y);
    b := a[i := Flipped(a[i])];
    FlippedOnce(a, i);
    WordPlace(n, i);
    BothEmpty(a, i, WordPos(n, i), secret, WordKey(n, i, secret));
    LongLanes(secret, a, b, i);
    var u, v := LongAcc(secret, a), LongAcc(secret, b);
    MergeApart(u, v, w, secret, sp, start, 4);
    if Avalanche(MergeRounds(u, secret, sp, start, 4)) == Avalanche(MergeRounds(v, secret, sp, start, 4)) {
      AvalancheInjective(MergeRounds(u, secret, sp, start, 4), MergeRounds(v, secret, sp, start, 4));
    }
  }

  /** Whatever the key, no byte that only one stripe reads is passed over by either hash. */
  lemma LongReadOnceMatters(key: Key, n: nat, i: nat) returns (a: seq<byte>, b: seq<byte>)
    requires n > MIDSIZE_MAX && StripeReadOnce(n, i)
    ensures |a| == n && OneByte(a, b, i) && Hash64(key, a) != Hash64(key, b) && Hash128(key, a) != Hash128(key, b)
  {
    hide LongAcc, LongSecret, MergeAccs, Mul64, OneByte;
    a, b := LongMatters(LongSecret(key), n, i, Mul64(n, PRIME64_1));
    SameLength(a, b, i);
  }

  // ----- a caller's secret -----

  /** Two secrets that differ in the last byte but seven, which only the last stripe's key has. */
  ghost predicate Twins(s: Secret, t: Secret)
  {
    |s| == |t| && OneByte(s, t, |s| - 8)
  }

  lemma TwinWords(s: Secret, t: Secret, pos: nat)
    requires Twins(s, t) && pos + 8 <= |s| - 8
    ensures ReadLE64(s, pos) == ReadLE64(t, pos)
  {
    WordsSame(s, t, |s| - 8, pos);
  }

  lemma TwinLanes(s: Secret, t: Secret, data: seq<byte>, n: nat, j: nat)
    requires Twins(s, t) && n <= 3 && STRIPE_LEN * n <= |data| && j < ACC_NB
    ensures AfterStripes(s, data, n)[j] == AfterStripes(t, data, n)[j]
    decreases n
  {
    hide ReadLE64, Accumulate512, Window, AfterStripes, ScrambleAcc, LaneAdds, KeyedProduct, Twins;
    Start(s, data);
    Start(t, data);
    if n > 0 {
      TwinLanes(s, t, data, n - 1, j);
      NextStripe(s, data, n);
      NextStripe(t, data, n);
      TwinKeys(s, t, n);
      LaneOf(AfterStripes(s, data, n - 1), data, STRIPE_LEN * (n - 1), s, 8 * (n - 1), j);
      LaneOf(AfterStripes(t, data, n - 1), data, STRIPE_LEN * (n - 1), t, 8 * (n - 1), j);
      TwinWords(s, t, 8 * (n - 1) + 8 * j);
      SameKey(AfterStripes(s, data, n - 1)[j], data, STRIPE_LEN * (n - 1), s, t, 8 * (n - 1), j);
    }
  }

  lemma TwinKeys(s: Secret, t: Secret, n: nat)
    requires Twins(s, t) && 0 < n <= 3
    ensures KeyAt(s, n - 1) == KeyAt(t, n - 1) == 8 * (n - 1) && n % StripesPerBlock(|s|) != 0 && |t| == |s|
  {
  }

  lemma SameKey(x: u64, data: seq<byte>, pos: nat, s: seq<byte>, t: seq<byte>, sp: nat, j: nat)
    requires j < ACC_NB && pos + STRIPE_LEN <= |data| && sp + STRIPE_LEN <= |s| && sp + STRIPE_LEN <= |t|
    requires ReadLE64(s, sp + 8 * j) == ReadLE64(t, sp + 8 * j)
    ensures LaneAdds(x, data, pos, s, sp, j) == LaneAdds(x, data, pos, t, sp, j)
  {
    hide ReadLE64, KeyedProduct;
  }

  lemma {:induction false} TwinFolds(acc: Acc, s: Secret, t: Secret, start: u64, m: nat)
    requires Twins(s, t) && m <= 4
    ensures MergeRounds(acc, s, SECRET_MERGEACCS_START, start, m) == MergeRounds(acc, t, SECRET_MERGEACCS_START, start, m)
    decreases m
  {
    hide ReadLE64, Mul128Fold64, Xor64, Twins;
    if m > 0 {
      TwinFolds(acc, s, t, start, m - 1);
      TwinWords(s, t, SECRET_MERGEACCS_START + 16 * m - 16);
      TwinWords(s, t, SECRET_MERGEACCS_START + 16 * m - 8);
    }
  }

  /** A keyed word of one and the same word but for its highest byte: the products are nothing and
      something. */
  lemma TwinProducts(k: u64, l: u64)
    requires Xor(k, Pow2(56)) == l
    ensures var w := Xor64(1, k); KeyedProduct(w, k) == 0 && KeyedProduct(w, l) != 0
  {
    hide Xor, And, Pow2, Mult32to64;
    Pow2Values();
    var w := Xor64(1, k);
    XorTwice(1, k);
    assert Xor(w, l) == 1 + Pow2(56) by {
      XorAssoc(w, k, Pow2(56));
      XorOfHigh();
    }
    PowerOf56();
    MaskIsMod(32, 1);
    MaskIsMod(32, 1 + Pow2(56));
    assert Pow2(32) - 1 == 0xFFFFFFFF;
    Product0(1, 0);
    OneTimes();
  }

  lemma PowerOf56()
    ensures Pow2(56) == 0x100_0000_0000_0000
  {
    assert Pow2(8) == 0x100;
    assert Pow2(16) == 0x1_0000;
    assert Pow2(24) == 0x100_0000;
    assert Pow2(32) == 0x1_0000_0000;
    assert Pow2(40) == 0x100_0000_0000;
    assert Pow2(48) == 0x1_0000_0000_0000;
  }

  lemma OneTimes()
    ensures Mult32to64(1, 0x100_0000) == 0x100_0000
  {
  }

  lemma XorOfHigh()
    ensures Xor(1, Pow2(56)) == 1 + Pow2(56)
  {
    hide Xor;
    XorPow2(1, 56);
    NoHighBit(1, 1, 56);
  }

  /** The secret that a caller gives keys a long text too, down to its last bytes: some text of 241
      bytes has other hashes under another secret. */
  lemma CallersSecretMatters(s: Secret, t: Secret) returns (data: seq<byte>)
    requires |s| == |t| && t == s[|s| - 8 := Flipped(s[|s| - 8])]
    ensures |data| == 241 && Hash64(WithSecret(s), data) != Hash64(WithSecret(t), data)
    ensures Hash128(WithSecret(s), data) != Hash128(WithSecret(t), data)
  {
    hide ReadLE64, Xor, Pow2, LaneAdds, AfterStripes, LongAcc, KeyedProduct, WithWord, MergeRounds, Avalanche, Mul64, Lanes, Twins, Flipped, LastKeyAt;
    FlippedOnce(s, |s| - 8);
    TwinsAre(s, t);
    var last := LastKeyAt(s);
    var k, l := ReadLE64(s, last + 56), ReadLE64(t, last + 56);
    TwinKeyWords(s, t, k, l);
    var nothing := seq(241, _ => 0);
    var w := Xor64(1, k);
    var base := WithWord(nothing, 233, w);
    WithWordReads(nothing, 233, w, 233);
    var mk := ReadLE64(s, SECRET_MERGEACCS_START + 48);
    var y := Xor64(1, mk);
    XorTwice(1, mk);
    var x := LaneBefore(y, base, 177, s, last, 6);
    var first := Steer(s, base, 3, 6, x);
    data := WithWord(base, 56, first);
    WithWordReads(base, 56, first, 233);
    SameAdds(base, 56, first, x, 177, s, last, 6);
    LastStripe(s, data, 6);
    TwinProducts(k, l);
    TwinEnds(s, t, data, w, k, l);
    var u, v, start := LongAcc(s, data), LongAcc(t, data), Mul64(241, PRIME64_1);
    MergeApart(u, v, 6, s, SECRET_MERGEACCS_START, start, 4);
    TwinFolds(v, s, t, start, 4);
    if Avalanche(MergeRounds(u, s, SECRET_MERGEACCS_START, start, 4)) == Avalanche(MergeRounds(v, s, SECRET_MERGEACCS_START, start, 4)) {
      AvalancheInjective(MergeRounds(u, s, SECRET_MERGEACCS_START, start, 4), MergeRounds(v, s, SECRET_MERGEACCS_START, start, 4));
    }
  }

  lemma TwinsAre(s: Secret, t: Secret)
    requires |s| == |t| && OneByte(s, t, |s| - 8)
    ensures Twins(s, t) && LastKeyAt(s) == LastKeyAt(t) == |s| - 71
  {
  }

  lemma TwinKeyWords(s: Secret, t: Secret, k: u64, l: u64)
    requires |s| == |t| && t == s[|s| - 8 := Flipped(s[|s| - 8])]
    requires k == ReadLE64(s, |s| - 15) && l == ReadLE64(t, |s| - 15)
    ensures Xor(k, Pow2(56)) == l
  {
    hide Xor, LE, Pow2;
    BytePowers(7);
    KeyedFlip(s, |s| - 8, |s| - 15, 0);
    XorZero(k);
    XorZero(l);
  }

  lemma TwinEnds(s: Secret, t: Secret, data: seq<byte>, w: u64, k: u64, l: u64)
    requires Twins(s, t) && |data| == 241 && ReadLE64(data, 233) == w && LastKeyAt(s) == LastKeyAt(t) == |s| - 71
    requires k == ReadLE64(s, |s| - 15) && l == ReadLE64(t, |s| - 15) && KeyedProduct(w, k) == 0 && KeyedProduct(w, l) != 0
    ensures Lanes(LongAcc(s, data), LongAcc(t, data), 7, true)
  {
    hide ReadLE64, AfterStripes, LongAcc, KeyedProduct, Twins, LastKeyAt;
    forall j | 0 <= j < ACC_NB ensures LongAcc(s, data)[j] == LongAcc(t, data)[j] <==> j != 7 {
      LastStripe(s, data, j);
      LastStripe(t, data, j);
      TwinLanes(s, t, data, 3, j);
      if j < 7 {
        TwinWords(s, t, |s| - 71 + 8 * j);
      } else {
        var x := AfterStripes(s, data, 3)[7];
        OtherProduct(x + ReadLE64(data, 177 + 48), KeyedProduct(w, k), KeyedProduct(w, l));
      }
    }
  }

  lemma OtherProduct(x: nat, p: u64, q: u64)
    requires p != q
    ensures Add64(x, p) != Add64(x, q)
  {
    AddModular(x, p);
    AddModular(x, q);
    AddSame(p, q, x % W64);
  }
}
