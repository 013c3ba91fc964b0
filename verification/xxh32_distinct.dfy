/** XXH32 never gives two texts that differ in one byte the same hash. */
module Xxh32Distinct {
  import opened Words
  import opened Bits
  import opened Xxh32

  // ----- single steps -----

  /** A round loses neither its lane nor its input. */
  lemma RoundTells(acc: u32, acc': u32, x: u32, y: u32)
    requires Round(acc, x) == Round(acc', y)
    ensures acc == acc' <==> x == y
  {
    hide Rotl32, Mul32;
    var s, t := Mul32(x, PRIME2), Mul32(y, PRIME2);
    var u, v := Add32(acc, s), Add32(acc', t);
    MulInjective32(Rotl32(u, 13), Rotl32(v, 13), PRIME1, 244002641, 150801925);
    Rotl32Injective(u, v, 13);
    if acc == acc' {
      AddInjective32(s, t, acc);
      MulInjective32(x, y, PRIME2, 3066638151, 1604247758);
    } else if x == y {
      AddInjective32(acc, acc', s);
    }
  }

  lemma AvalancheInjective(x: u32, y: u32)
    requires Avalanche(x) == Avalanche(y)
    ensures x == y
  {
    hide Xor32, Shr32, Mul32;
    var x0, y0 := Xor32(x, Shr32(x, 15)), Xor32(y, Shr32(y, 15));
    var x1, y1 := Mul32(x0, PRIME2), Mul32(y0, PRIME2);
    var x2, y2 := Xor32(x1, Shr32(x1, 13)), Xor32(y1, Shr32(y1, 13));
    XorShift32Injective(Mul32(x2, PRIME3), Mul32(y2, PRIME3), 16);
    MulInjective32(x2, y2, PRIME3, 2828982549, 2151551417);
    XorShift32Injective(x1, y1, 13);
    MulInjective32(x0, y0, PRIME2, 3066638151, 1604247758);
    XorShift32Injective(x, y, 15);
  }

  lemma Process4Tells(h: u32, h': u32, p: seq<byte>, q: seq<byte>)
    requires |p| >= 4 && |q| >= 4 && Process4(h, p) == Process4(h', q)
    ensures h == h' <==> ReadLE32(p, 0) == ReadLE32(q, 0)
  {
    hide Rotl32, Mul32, ReadLE32;
    var s, t := Mul32(ReadLE32(p, 0), PRIME3), Mul32(ReadLE32(q, 0), PRIME3);
    var u, v := Add32(h, s), Add32(h', t);
    MulInjective32(Rotl32(u, 17), Rotl32(v, 17), PRIME4, 2701016015, 420258189);
    Rotl32Injective(u, v, 17);
    if h == h' {
      AddInjective32(s, t, h);
      MulInjective32(ReadLE32(p, 0), ReadLE32(q, 0), PRIME3, 2828982549, 2151551417);
    } else if s == t {
      AddInjective32(h, h', s);
    }
  }

  lemma Process1Tells(h: u32, h': u32, x: byte, y: byte)
    requires Process1(h, x) == Process1(h', y)
    ensures h == h' <==> x == y
  {
    hide Rotl32, Mul32;
    var s, t := Mul32(x, PRIME5), Mul32(y, PRIME5);
    var u, v := Add32(h, s), Add32(h', t);
    MulInjective32(Rotl32(u, 11), Rotl32(v, 11), PRIME1, 244002641, 150801925);
    Rotl32Injective(u, v, 11);
    if h == h' {
      AddInjective32(s, t, h);
      MulInjective32(x, y, PRIME5, 2923004241, 255049472);
    } else if s == t {
      AddInjective32(h, h', s);
    }
  }

  // ----- stripes -----

  function Lane(l: Lanes, k: nat): u32
    requires k < 4
  {
    if k == 0 then l.v1 else if k == 1 then l.v2 else if k == 2 then l.v3 else l.v4
  }

  lemma AbsorbLane(l: Lanes, data: seq<byte>, pos: nat, k: nat)
    requires k < 4 && pos + STRIPE <= |data|
    ensures Lane(Absorb(l, data, pos), k) == Round(Lane(l, k), ReadLE32(data, pos + 4 * k))
  {
  }

  /** Texts that are the same up to their last stripe have the same lanes after it if and only if their
      last stripes are the same. */
  lemma LastStripe(seed: u32, a: seq<byte>, b: seq<byte>, n: nat)
    requires STRIPE * n + STRIPE <= |a| && STRIPE * n + STRIPE <= |b| && a[..STRIPE * n] == b[..STRIPE * n]
    ensures AfterStripes(seed, a, n + 1) == AfterStripes(seed, b, n + 1)
            <==> a[STRIPE * n..STRIPE * n + STRIPE] == b[STRIPE * n..STRIPE * n + STRIPE]
  {
    hide Round, ReadLE32, AfterStripes;
    var pos := STRIPE * n;
    SameBefore(seed, a, b, n);
    var l := AfterStripes(seed, a, n);
    Next(seed, a, n);
    Next(seed, b, n);
    if AfterStripes(seed, a, n + 1) == AfterStripes(seed, b, n + 1) {
      forall k | 0 <= k < 4 ensures ReadLE32(a, pos + 4 * k) == ReadLE32(b, pos + 4 * k) {
        RoundTells(Lane(l, k), Lane(l, k), ReadLE32(a, pos + 4 * k), ReadLE32(b, pos + 4 * k));
      }
      WordsMakeStripe(a, b, pos);
    } else if a[pos..pos + STRIPE] == b[pos..pos + STRIPE] {
      SameStripe(l, a, b, pos);
    }
  }

  lemma Next(seed: u32, data: seq<byte>, n: nat)
    requires STRIPE * n + STRIPE <= |data|
    ensures AfterStripes(seed, data, n + 1) == Absorb(AfterStripes(seed, data, n), data, STRIPE * n)
  {
  }

  lemma SameBefore(seed: u32, a: seq<byte>, b: seq<byte>, n: nat)
    requires STRIPE * n <= |a| && STRIPE * n <= |b| && a[..STRIPE * n] == b[..STRIPE * n]
    ensures AfterStripes(seed, a, n) == AfterStripes(seed, b, n)
  {
    hide AfterStripes;
    var p := a[..STRIPE * n];
    assert a == p + a[STRIPE * n..] && b == p + b[STRIPE * n..];
    AfterStripesPrefix(seed, p, a[STRIPE * n..], n);
    AfterStripesPrefix(seed, p, b[STRIPE * n..], n);
  }

  lemma WordsMakeStripe(a: seq<byte>, b: seq<byte>, pos: nat)
    requires pos + STRIPE <= |a| && pos + STRIPE <= |b|
    requires forall k :: 0 <= k < 4 ==> ReadLE32(a, pos + 4 * k) == ReadLE32(b, pos + 4 * k)
    ensures a[pos..pos + STRIPE] == b[pos..pos + STRIPE]
  {
    hide LE;
    forall i | pos <= i < pos + STRIPE ensures a[i] == b[i] {
      var q := pos + 4 * ((i - pos) / 4);
      var s, t := a[q..q + 4], b[q..q + 4];
      assert ReadLE32(a, pos + 4 * ((i - pos) / 4)) == ReadLE32(b, q);
      LEInjective(s, t);
      assert a[i] == s[i - q] && b[i] == t[i - q];
    }
  }

  lemma SameStripe(l: Lanes, a: seq<byte>, b: seq<byte>, pos: nat)
    requires pos + STRIPE <= |a| && pos + STRIPE <= |b| && a[pos..pos + STRIPE] == b[pos..pos + STRIPE]
    ensures Absorb(l, a, pos) == Absorb(l, b, pos)
  {
    hide LE, Round, ReadLE32;
    SameWord(a, b, pos, 0);
    SameWord(a, b, pos, 4);
    SameWord(a, b, pos, 8);
    SameWord(a, b, pos, 12);
  }

  lemma SameWord(a: seq<byte>, b: seq<byte>, pos: nat, k: nat)
    requires pos + STRIPE <= |a| && pos + STRIPE <= |b| && a[pos..pos + STRIPE] == b[pos..pos + STRIPE] && k + 4 <= STRIPE
    ensures ReadLE32(a, pos + k) == ReadLE32(b, pos + k)
  {
    hide LE;
    var s, t := a[pos..pos + STRIPE], b[pos..pos + STRIPE];
    forall i | pos + k <= i < pos + k + 4 ensures a[i] == b[i] {
      assert a[i] == s[i - pos] && b[i] == t[i - pos];
    }
    assert a[pos + k..pos + k + 4] == b[pos + k..pos + k + 4];
  }

  /** Texts that differ in one byte have all lanes in common but that byte's, and that one exactly as
      long as the byte's stripe has not been absorbed. */
  lemma {:induction false} LanesApart(seed: u32, a: seq<byte>, b: seq<byte>, i: nat, n: nat, k: nat)
    requires OneByte(a, b, i) && STRIPE * n <= |a| && k < 4
    ensures |b| == |a|
    ensures Lane(AfterStripes(seed, a, n), k) == Lane(AfterStripes(seed, b, n), k) <==> !(i / STRIPE < n && k == i % STRIPE / 4)
    decreases n
  {
    hide Round, ReadLE32, Absorb, Lane, OneByte;
    SameLength(a, b, i);
    if n > 0 {
      LanesApart(seed, a, b, i, n - 1, k);
      var u, v, pos := AfterStripes(seed, a, n - 1), AfterStripes(seed, b, n - 1), STRIPE * (n - 1);
      var q := pos + 4 * k;
      AbsorbLane(u, a, pos, k);
      AbsorbLane(v, b, pos, k);
      InWord(i, n - 1, k);
      if q <= i < q + 4 {
        HalfWordsDiffer(a, b, i, q);
      } else {
        HalfWordsSame(a, b, i, q);
      }
      if Lane(Absorb(u, a, pos), k) == Lane(Absorb(v, b, pos), k) {
        RoundTells(Lane(u, k), Lane(v, k), ReadLE32(a, q), ReadLE32(b, q));
      }
    }
  }

  lemma InWord(i: nat, n: nat, k: nat)
    requires k < 4
    ensures STRIPE * n + 4 * k <= i < STRIPE * n + 4 * k + 4 <==> i / STRIPE == n && k == i % STRIPE / 4
  {
  }

  /** The four lanes are added up: one lane alone cannot change without changing the sum. */
  lemma ConvergeApart(u: Lanes, v: Lanes, w: nat)
    requires w < 4 && forall k :: 0 <= k < 4 ==> (Lane(u, k) == Lane(v, k) <==> k != w)
    ensures Converge(u) != Converge(v)
  {
    hide Rotl32;
    assert Lane(u, 0) == u.v1 && Lane(u, 1) == u.v2 && Lane(u, 2) == u.v3 && Lane(u, 3) == u.v4;
    assert Lane(v, 0) == v.v1 && Lane(v, 1) == v.v2 && Lane(v, 2) == v.v3 && Lane(v, 3) == v.v4;
    var s, t := Add32(Rotl32(u.v1, 1), Rotl32(u.v2, 7)), Add32(Rotl32(v.v1, 1), Rotl32(v.v2, 7));
    var x, y := Add32(Rotl32(u.v3, 12), Rotl32(u.v4, 18)), Add32(Rotl32(v.v3, 12), Rotl32(v.v4, 18));
    if Converge(u) == Converge(v) {
      if w < 2 {
        AddInjective32(s, t, x);
        if w == 0 {
          AddInjective32(Rotl32(u.v1, 1), Rotl32(v.v1, 1), Rotl32(u.v2, 7));
          Rotl32Injective(u.v1, v.v1, 1);
        } else {
          AddInjective32(Rotl32(u.v2, 7), Rotl32(v.v2, 7), Rotl32(u.v1, 1));
          Rotl32Injective(u.v2, v.v2, 7);
        }
      } else {
        AddInjective32(x, y, s);
        if w == 2 {
          AddInjective32(Rotl32(u.v3, 12), Rotl32(v.v3, 12), Rotl32(u.v4, 18));
          Rotl32Injective(u.v3, v.v3, 12);
        } else {
          AddInjective32(Rotl32(u.v4, 18), Rotl32(v.v4, 18), Rotl32(u.v3, 12));
          Rotl32Injective(u.v4, v.v4, 18);
        }
      }
    }
  }

  // ----- the tail -----

  lemma {:induction false} TailInjective(h: u32, h': u32, p: seq<byte>)
    requires Tail(h, p) == Tail(h', p)
    ensures h == h'
    decreases |p|
  {
    hide Process1, Process4;
    if |p| >= 4 {
      TailInjective(Process4(h, p), Process4(h', p), p[4..]);
      Process4Tells(h, h', p, p);
    } else if |p| > 0 {
      TailInjective(Process1(h, p[0]), Process1(h', p[0]), p[1..]);
      Process1Tells(h, h', p[0], p[0]);
    }
  }

  lemma {:induction false} TailApart(h: u32, p: seq<byte>, q: seq<byte>, i: nat)
    requires OneByte(p, q, i)
    ensures Tail(h, p) != Tail(h, q)
    decreases |p|
  {
    hide Process1, Process4, ReadLE32;
    var step := if |p| >= 4 then 4 else 1;
    if i < step {
      assert p[step..] == q[step..];
      if |p| >= 4 {
        HalfWordsDiffer(p, q, i, 0);
        if Tail(h, p) == Tail(h, q) {
          TailInjective(Process4(h, p), Process4(h, q), p[4..]);
          Process4Tells(h, h, p, q);
        }
      } else if Tail(h, p) == Tail(h, q) {
        TailInjective(Process1(h, p[0]), Process1(h, q[0]), p[1..]);
        Process1Tells(h, h, p[0], q[0]);
      }
    } else {
      assert OneByte(p[step..], q[step..], i - step);
      if |p| >= 4 {
        HalfWordsSame(p, q, i, 0);
        assert Process4(h, p) == Process4(h, q) by { SameStep(h, p, q); }
        TailApart(Process4(h, p), p[4..], q[4..], i - 4);
      } else {
        TailApart(Process1(h, p[0]), p[1..], q[1..], i - 1);
      }
    }
  }

  lemma SameStep(h: u32, p: seq<byte>, q: seq<byte>)
    requires |p| >= 4 && |q| >= 4 && ReadLE32(p, 0) == ReadLE32(q, 0)
    ensures Process4(h, p) == Process4(h, q)
  {
  }

  // ----- the hash -----

  /** Whatever the seed, two texts that differ in one byte have different hashes. */
  lemma OneByteTold(seed: u32, a: seq<byte>, b: seq<byte>, i: nat)
    requires OneByte(a, b, i)
    ensures Hash(seed, a) != Hash(seed, b)
  {
    hide Tail, Avalanche, Converge, AfterStripes;
    var n, m := |a|, |a| / STRIPE;
    var u, v := AfterStripes(seed, a, m), AfterStripes(seed, b, m);
    var g, g' := if n >= STRIPE then Converge(u) else Add32(seed, PRIME5), if n >= STRIPE then Converge(v) else Add32(seed, PRIME5);
    var h, h' := Add32(g, n), Add32(g', n);
    var p, q := a[STRIPE * m..], b[STRIPE * m..];
    forall k | 0 <= k < 4 ensures Lane(u, k) == Lane(v, k) <==> !(i / STRIPE < m && k == i % STRIPE / 4) {
      LanesApart(seed, a, b, i, m, k);
    }
    if Hash(seed, a) == Hash(seed, b) {
      AvalancheInjective(Tail(h, p), Tail(h', q));
      if i < STRIPE * m {
        assert p == q;
        TailInjective(h, h', p);
        AddInjective32(g, g', n);
        ConvergeApart(u, v, i % STRIPE / 4);
      } else {
        SameBefore(seed, a, b, m);
        assert OneByte(p, q, i - STRIPE * m);
        TailApart(h, p, q, i - STRIPE * m);
      }
    }
  }
}
