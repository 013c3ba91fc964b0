/** What XXH64 keeps of a text: its lanes tell all stripes apart, and the rest of the text reaches the
    hash without loss. */
module Xxh64Distinct {
  import opened Words
  import opened Bits
  import opened Xxh64

  // ----- single steps -----

  /** A round loses neither its lane nor its input. */
  lemma RoundTells(acc: u64, acc': u64, x: u64, y: u64)
    requires Round(acc, x) == Round(acc', y)
    ensures acc == acc' <==> x == y
  {
    hide Rotl64, Mul64;
    var s, t := Mul64(x, PRIME2), Mul64(y, PRIME2);
    var u, v := Add64(acc, s), Add64(acc', t);
    MulInjective64(Rotl64(u, 31), Rotl64(v, 31), PRIME1, 614540362697595703, 379806830464837242);
    Rotl64Injective(u, v, 31);
    if acc == acc' {
      AddInjective64(s, t, acc);
      MulInjective64(x, y, PRIME2, 839798700976720815, 638699622168397319);
    } else if x == y {
      AddInjective64(acc, acc', s);
    }
  }

  lemma AvalancheInjective(x: u64, y: u64)
    requires Avalanche(x) == Avalanche(y)
    ensures x == y
  {
    hide Xor64, Shr64, Mul64;
    var x0, y0 := Xor64(x, Shr64(x, 33)), Xor64(y, Shr64(y, 33));
    var x1, y1 := Mul64(x0, PRIME2), Mul64(y0, PRIME2);
    var x2, y2 := Xor64(x1, Shr64(x1, 29)), Xor64(y1, Shr64(y1, 29));
    XorShift64Injective(Mul64(x2, PRIME3), Mul64(y2, PRIME3), 32);
    MulInjective64(x2, y2, PRIME3, 16855272203555305545, 1470722560960728959);
    XorShift64Injective(x1, y1, 29);
    MulInjective64(x0, y0, PRIME2, 839798700976720815, 638699622168397319);
    XorShift64Injective(x, y, 33);
  }

  /** Exclusive or loses neither side. */
  lemma XorTells(h: u64, h': u64, x: u64, y: u64)
    requires Xor64(h, x) == Xor64(h', y)
    ensures h == h' <==> x == y
  {
    hide Xor;
    if h == h' {
      XorSwap(h, x);
      XorSwap(h, y);
      XorInjective(x, y, h);
    } else if x == y {
      XorInjective(h, h', x);
    }
  }

  lemma Process8Tells(h: u64, h': u64, p: seq<byte>, q: seq<byte>)
    requires |p| >= 8 && |q| >= 8 && Process8(h, p) == Process8(h', q)
    ensures h == h' <==> ReadLE64(p, 0) == ReadLE64(q, 0)
  {
    hide Rotl64, Mul64, ReadLE64, Xor64, Round;
    var s, t := Round(0, ReadLE64(p, 0)), Round(0, ReadLE64(q, 0));
    var u, v := Xor64(h, s), Xor64(h', t);
    AddInjective64(Mul64(Rotl64(u, 27), PRIME1), Mul64(Rotl64(v, 27), PRIME1), PRIME4);
    MulInjective64(Rotl64(u, 27), Rotl64(v, 27), PRIME1, 614540362697595703, 379806830464837242);
    Rotl64Injective(u, v, 27);
    XorTells(h, h', s, t);
    if s == t {
      RoundTells(0, 0, ReadLE64(p, 0), ReadLE64(q, 0));
    }
  }

  lemma Process4Tells(h: u64, h': u64, p: seq<byte>, q: seq<byte>)
    requires |p| >= 4 && |q| >= 4 && Process4(h, p) == Process4(h', q)
    ensures h == h' <==> ReadLE32(p, 0) == ReadLE32(q, 0)
  {
    hide Rotl64, Mul64, ReadLE32, Xor64;
    var s, t := Mul64(ReadLE32(p, 0), PRIME1), Mul64(ReadLE32(q, 0), PRIME1);
    var u, v := Xor64(h, s), Xor64(h', t);
    AddInjective64(Mul64(Rotl64(u, 23), PRIME2), Mul64(Rotl64(v, 23), PRIME2), PRIME3);
    MulInjective64(Rotl64(u, 23), Rotl64(v, 23), PRIME2, 839798700976720815, 638699622168397319);
    Rotl64Injective(u, v, 23);
    XorTells(h, h', s, t);
    if s == t {
      MulInjective64(ReadLE32(p, 0), ReadLE32(q, 0), PRIME1, 614540362697595703, 379806830464837242);
    }
  }

  lemma Process1Tells(h: u64, h': u64, x: byte, y: byte)
    requires Process1(h, x) == Process1(h', y)
    ensures h == h' <==> x == y
  {
    hide Rotl64, Mul64, Xor64;
    var s, t := Mul64(x, PRIME5), Mul64(y, PRIME5);
    var u, v := Xor64(h, s), Xor64(h', t);
    MulInjective64(Rotl64(u, 11), Rotl64(v, 11), PRIME1, 614540362697595703, 379806830464837242);
    Rotl64Injective(u, v, 11);
    XorTells(h, h', s, t);
    if s == t {
      MulInjective64(x, y, PRIME5, 14236653164957433613, 2215118327355546487);
    }
  }

  // ----- stripes -----

  function Lane(l: Lanes, k: nat): u64
    requires k < 4
  {
    if k == 0 then l.v1 else if k == 1 then l.v2 else if k == 2 then l.v3 else l.v4
  }

  lemma AbsorbLane(l: Lanes, data: seq<byte>, pos: nat, k: nat)
    requires k < 4 && pos + STRIPE <= |data|
    ensures Lane(Absorb(l, data, pos), k) == Round(Lane(l, k), ReadLE64(data, pos + 8 * k))
  {
  }

  /** Texts that are the same up to their last stripe have the same lanes after it if and only if their
      last stripes are the same. */
  lemma LastStripe(seed: u64, a: seq<byte>, b: seq<byte>, n: nat)
    requires STRIPE * n + STRIPE <= |a| && STRIPE * n + STRIPE <= |b| && a[..STRIPE * n] == b[..STRIPE * n]
    ensures AfterStripes(seed, a, n + 1) == AfterStripes(seed, b, n + 1)
            <==> a[STRIPE * n..STRIPE * n + STRIPE] == b[STRIPE * n..STRIPE * n + STRIPE]
  {
    hide Round, ReadLE64, AfterStripes;
    var pos := STRIPE * n;
    SameBefore(seed, a, b, n);
    var l := AfterStripes(seed, a, n);
    Next(seed, a, n);
    Next(seed, b, n);
    if AfterStripes(seed, a, n + 1) == AfterStripes(seed, b, n + 1) {
      forall k | 0 <= k < 4 ensures ReadLE64(a, pos + 8 * k) == ReadLE64(b, pos + 8 * k) {
        RoundTells(Lane(l, k), Lane(l, k), ReadLE64(a, pos + 8 * k), ReadLE64(b, pos + 8 * k));
      }
      WordsMakeStripe(a, b, pos);
    } else if a[pos..pos + STRIPE] == b[pos..pos + STRIPE] {
      SameStripe(l, a, b, pos);
    }
  }

  lemma Next(seed: u64, data: seq<byte>, n: nat)
    requires STRIPE * n + STRIPE <= |data|
    ensures AfterStripes(seed, data, n + 1) == Absorb(AfterStripes(seed, data, n), data, STRIPE * n)
  {
  }

  lemma SameBefore(seed: u64, a: seq<byte>, b: seq<byte>, n: nat)
    requires STRIPE * n <= |a| && STRIPE * n <= |b| && a[..STRIPE * n] == b[..STRIPE * n]
    ensures AfterStripes(seed, a, n) == AfterStripes(seed, b, n)
  {
    hide AfterStripes;
    var p := a[..STRIPE * n];
    assert a == p + a[STRIPE * n..] && b == p + b[STRIPE * n..];
    AfterStripesPrefix(seed, p, a[STRIPE * n..], n);
    AfterStripesPrefix(seed, p, b[STRIPE * n..], n);
  }

  lemma WordsMakeStripe(a: seq<byte>, b: seq<byte>, pos: nat)
    requires pos + STRIPE <= |a| && pos + STRIPE <= |b|
    requires forall k :: 0 <= k < 4 ==> ReadLE64(a, pos + 8 * k) == ReadLE64(b, pos + 8 * k)
    ensures a[pos..pos + STRIPE] == b[pos..pos + STRIPE]
  {
    hide LE;
    forall i | pos <= i < pos + STRIPE ensures a[i] == b[i] {
      var q := pos + 8 * ((i - pos) / 8);
      var s, t := a[q..q + 8], b[q..q + 8];
      assert ReadLE64(a, pos + 8 * ((i - pos) / 8)) == ReadLE64(b, q);
      LEInjective(s, t);
      assert a[i] == s[i - q] && b[i] == t[i - q];
    }
  }

  lemma SameStripe(l: Lanes, a: seq<byte>, b: seq<byte>, pos: nat)
    requires pos + STRIPE <= |a| && pos + STRIPE <= |b| && a[pos..pos + STRIPE] == b[pos..pos + STRIPE]
    ensures Absorb(l, a, pos) == Absorb(l, b, pos)
  {
    hide LE, Round, ReadLE64;
    SameWord(a, b, pos, 0);
    SameWord(a, b, pos, 16);
    SameWord(a, b, pos, 8);
    SameWord(a, b, pos, 24);
  }

  lemma SameWord(a: seq<byte>, b: seq<byte>, pos: nat, k: nat)
    requires pos + STRIPE <= |a| && pos + STRIPE <= |b| && a[pos..pos + STRIPE] == b[pos..pos + STRIPE] && k + 8 <= STRIPE
    ensures ReadLE64(a, pos + k) == ReadLE64(b, pos + k)
  {
    hide LE;
    var s, t := a[pos..pos + STRIPE], b[pos..pos + STRIPE];
    forall i | pos + k <= i < pos + k + 8 ensures a[i] == b[i] {
      assert a[i] == s[i - pos] && b[i] == t[i - pos];
    }
    assert a[pos + k..pos + k + 8] == b[pos + k..pos + k + 8];
  }

  /** Texts that differ in one byte have all lanes in common but that byte's, and that one exactly as
      long as the byte's stripe has not been absorbed. */
  lemma {:induction false} LanesApart(seed: u64, a: seq<byte>, b: seq<byte>, i: nat, n: nat, k: nat)
    requires OneByte(a, b, i) && STRIPE * n <= |a| && k < 4
    ensures |b| == |a|
    ensures Lane(AfterStripes(seed, a, n), k) == Lane(AfterStripes(seed, b, n), k) <==> !(i / STRIPE < n && k == i % STRIPE / 8)
    decreases n
  {
    hide Round, ReadLE64, Absorb, Lane, OneByte;
    SameLength(a, b, i);
    if n > 0 {
      LanesApart(seed, a, b, i, n - 1, k);
      var u, v, pos := AfterStripes(seed, a, n - 1), AfterStripes(seed, b, n - 1), STRIPE * (n - 1);
      var q := pos + 8 * k;
      AbsorbLane(u, a, pos, k);
      AbsorbLane(v, b, pos, k);
      InWord(i, n - 1, k);
      if q <= i < q + 8 {
        WordsDiffer(a, b, i, q);
      } else {
        WordsSame(a, b, i, q);
      }
      if Lane(Absorb(u, a, pos), k) == Lane(Absorb(v, b, pos), k) {
        RoundTells(Lane(u, k), Lane(v, k), ReadLE64(a, q), ReadLE64(b, q));
      }
    }
  }

  lemma InWord(i: nat, n: nat, k: nat)
    requires k < 4
    ensures STRIPE * n + 8 * k <= i < STRIPE * n + 8 * k + 8 <==> i / STRIPE == n && k == i % STRIPE / 8
  {
  }

  // ----- the tail -----

  lemma {:induction false} TailInjective(h: u64, h': u64, p: seq<byte>)
    requires Tail(h, p) == Tail(h', p)
    ensures h == h'
    decreases |p|
  {
    hide Process1, Process4, Process8;
    if |p| >= 8 {
      TailInjective(Process8(h, p), Process8(h', p), p[8..]);
      Process8Tells(h, h', p, p);
    } else if |p| >= 4 {
      TailInjective(Process4(h, p), Process4(h', p), p[4..]);
      Process4Tells(h, h', p, p);
    } else if |p| > 0 {
      TailInjective(Process1(h, p[0]), Process1(h', p[0]), p[1..]);
      Process1Tells(h, h', p[0], p[0]);
    }
  }

  /** How much the next step of the tail takes, and what it makes of the hash. */
  function StepSize(p: seq<byte>): nat
  {
    if |p| >= 8 then 8 else if |p| >= 4 then 4 else 1
  }

  function Step(h: u64, p: seq<byte>): u64
    requires p != []
  {
    hide Process1, Process4, Process8;
    if |p| >= 8 then Process8(h, p) else if |p| >= 4 then Process4(h, p) else Process1(h, p[0])
  }

  lemma TailStep(h: u64, p: seq<byte>)
    requires p != []
    ensures Tail(h, p) == Tail(Step(h, p), p[StepSize(p)..])
  {
    hide Process1, Process4, Process8;
  }

  lemma StepApart(h: u64, p: seq<byte>, q: seq<byte>, i: nat)
    requires OneByte(p, q, i)
    ensures |q| == |p| && (Step(h, p) == Step(h, q) <==> i >= StepSize(p))
  {
    hide Process1, Process4, Process8, ReadLE64, ReadLE32;
    if |p| >= 8 {
      if i < 8 {
        WordsDiffer(p, q, i, 0);
        if Process8(h, p) == Process8(h, q) {
          Process8Tells(h, h, p, q);
        }
      } else {
        WordsSame(p, q, i, 0);
        SameStep8(h, p, q);
      }
    } else if |p| >= 4 {
      if i < 4 {
        HalfWordsDiffer(p, q, i, 0);
        if Process4(h, p) == Process4(h, q) {
          Process4Tells(h, h, p, q);
        }
      } else {
        HalfWordsSame(p, q, i, 0);
        SameStep4(h, p, q);
      }
    } else if i == 0 && Process1(h, p[0]) == Process1(h, q[0]) {
      Process1Tells(h, h, p[0], q[0]);
    }
  }

  lemma SameStep8(h: u64, p: seq<byte>, q: seq<byte>)
    requires |p| >= 8 && |q| >= 8 && ReadLE64(p, 0) == ReadLE64(q, 0)
    ensures Process8(h, p) == Process8(h, q)
  {
  }

  lemma SameStep4(h: u64, p: seq<byte>, q: seq<byte>)
    requires |p| >= 4 && |q| >= 4 && ReadLE32(p, 0) == ReadLE32(q, 0)
    ensures Process4(h, p) == Process4(h, q)
  {
  }

  lemma {:induction false} TailApart(h: u64, p: seq<byte>, q: seq<byte>, i: nat)
    requires OneByte(p, q, i)
    ensures Tail(h, p) != Tail(h, q)
    decreases |p|
  {
    hide Step, Tail;
    var step := StepSize(p);
    StepApart(h, p, q, i);
    TailStep(h, p);
    TailStep(h, q);
    if i < step {
      assert p[step..] == q[step..];
      if Tail(h, p) == Tail(h, q) {
        TailInjective(Step(h, p), Step(h, q), p[step..]);
      }
    } else {
      assert OneByte(p[step..], q[step..], i - step);
      TailApart(Step(h, p), p[step..], q[step..], i - step);
    }
  }

  // ----- the hash -----

  /** Whatever the seed, two texts that differ in one byte behind their last whole stripe have different
      hashes. */
  lemma TailByteTold(seed: u64, a: seq<byte>, b: seq<byte>, i: nat)
    requires OneByte(a, b, i) && STRIPE * (|a| / STRIPE) <= i
    ensures Hash(seed, a) != Hash(seed, b)
  {
    hide Tail, Avalanche, Converge, AfterStripes;
    var n, m := |a|, |a| / STRIPE;
    var g := if n >= STRIPE then Converge(AfterStripes(seed, a, m)) else Add64(seed, PRIME5);
    var p, q := a[STRIPE * m..], b[STRIPE * m..];
    SameBefore(seed, a, b, m);
    assert OneByte(p, q, i - STRIPE * m);
    TailApart(Add64(g, n), p, q, i - STRIPE * m);
    if Hash(seed, a) == Hash(seed, b) {
      AvalancheInjective(Tail(Add64(g, n), p), Tail(Add64(g, n), q));
    }
  }
}
