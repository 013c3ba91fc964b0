/** The avalanche that both the sample generator and the two-probe filter apply: it misses no value. */
module AvalancheOnto {
  import opened Words
  import opened Sampler
  import opened CandidateFilter

  lemma {:induction false} XorHalve(x: nat, y: nat, k: nat)
    ensures Halve(Xor(x, y), k) == Xor(Halve(x, k), Halve(y, k))
    decreases k
  {
    hide Xor;
    if k > 0 {
      XorHalves(x, y);
      XorHalve(x / 2, y / 2, k - 1);
    }
  }

  lemma {:induction false} HalveAgain(x: nat, j: nat, k: nat)
    ensures Halve(Halve(x, j), k) == Halve(x, j + k)
    decreases j
  {
    if j > 0 {
      HalveAgain(x / 2, j - 1, k);
    }
  }

  lemma {:induction false} HalveAll(x: nat, k: nat)
    requires x < Pow2(k)
    ensures Halve(x, k) == 0
    decreases k
  {
    if k > 0 {
      HalveAll(x / 2, k - 1);
    }
  }

  // ----- the inverse -----

  /** A shift by at least half the width is undone by doing it again. */
  lemma Unshift(y: u64, k: nat)
    requires 32 <= k < 64
    ensures var x := Xor64(y, Shr64(y, k)); Xor64(x, Shr64(x, k)) == y
  {
    hide Xor, Halve;
    var s := Shr64(y, k);
    var x := Xor64(y, s);
    ShiftIsHalve(y, k);
    ShiftIsHalve(x, k);
    XorHalve(y, s, k);
    HalveAgain(y, k, k);
    Pow2Values();
    HalveAgain(y, 64, 2 * k - 64);
    HalveAll(y, 64);
    HalveZero(2 * k - 64);
    XorZero(s);
    XorTwice(y, s);
  }

  lemma {:induction false} HalveZero(k: nat)
    ensures Halve(0, k) == 0
    decreases k
  {
    if k > 0 {
      HalveZero(k - 1);
    }
  }

  /** The shift by 29 takes two more rounds to undo. */
  lemma Unshift29(y: u64)
    ensures var x := Xor64(Xor64(y, Shr64(y, 29)), Shr64(y, 58)); Xor64(x, Shr64(x, 29)) == y
  {
    hide Xor, Halve;
    var s, t := Shr64(y, 29), Shr64(y, 58);
    var x := Xor64(Xor64(y, s), t);
    ShiftIsHalve(y, 29);
    ShiftIsHalve(y, 58);
    ShiftIsHalve(x, 29);
    XorHalve(Xor(y, s), t, 29);
    XorHalve(y, s, 29);
    HalveAgain(y, 29, 29);
    HalveAgain(y, 58, 29);
    HalveAgain(y, 64, 23);
    Pow2Values();
    HalveAll(y, 64);
    HalveZero(23);
    XorZero(Xor(s, t));
    XorRegroup(y, s, t);
  }

  lemma {:induction false} XorRegroup(y: nat, s: nat, t: nat)
    ensures Xor(Xor(Xor(y, s), t), Xor(s, t)) == y
    decreases y + s + t
  {
    hide Xor;
    if y > 0 || s > 0 || t > 0 {
      XorRegroup(y / 2, s / 2, t / 2);
      XorHalves(y, s);
      XorHalves(Xor(y, s), t);
      XorHalves(s, t);
      XorHalves(Xor(Xor(y, s), t), Xor(s, t));
    } else {
      XorZero(0);
    }
  }

  const INVERSE64_2: u64 := 839798700976720815
  const INVERSE64_3: u64 := 16855272203555305545

  lemma Unmultiply(y: u64, inverse: nat, prime: nat, q: nat)
    requires inverse * prime == q * W64 + 1
    ensures Mul64(Mul64(y, inverse), prime) == y
  {
    var m := y * inverse;
    var d, r := m / W64, m % W64;
    assert m == d * W64 + r;
    assert r * prime == (y * q - d * prime) * W64 + y by {
      assert r * prime == m * prime - (d * W64) * prime;
      assert m * prime == y * (inverse * prime) == y * (q * W64 + 1) == (y * q) * W64 + y;
      assert (d * W64) * prime == (d * prime) * W64;
    }
    ModUnique(r * prime, W64, y * q - d * prime, y);
  }

  /** Every 64-bit value is the avalanche of some 64-bit value. */
  lemma Preimage(a: u64) returns (h: u64)
    ensures Avalanche64(h) == a
  {
    hide Xor64, Shr64, Mul64;
    var h2 := Xor64(a, Shr64(a, 32));
    Unshift(a, 32);
    var m2 := Mul64(h2, INVERSE64_3);
    Unmultiply(h2, INVERSE64_3, PRIME64_3, 1470722560960728959);
    var h1 := Xor64(Xor64(m2, Shr64(m2, 29)), Shr64(m2, 58));
    Unshift29(m2);
    var m1 := Mul64(h1, INVERSE64_2);
    Unmultiply(h1, INVERSE64_2, PRIME64_2, 638699622168397319);
    h := Xor64(m1, Shr64(m1, 33));
    Unshift(m1, 33);
  }

  /** Any two counters of the first line are the probes of some hash. */
  lemma ProbesPreimage(c1: nat, c2: nat, bflog: nat) returns (h: u64)
    requires c1 < 256 && c2 < 256 && 6 <= bflog
    ensures ProbesOf(h, bflog) == Probes(c1, c2)
  {
    hide Avalanche64, And;
    h := Preimage(c1 + 256 * c2);
    var a := c1 + 256 * c2;
    assert Pow2(8) == 256;
    assert Shr64(a, 8) == c2;
    assert Shr64(c2, 8) == 0;
    MaskIsMod(bflog - 6, 0);
    ModOfZero(Pow2(bflog - 6));
  }

  lemma ModOfZero(m: nat)
    requires m > 0
    ensures 0 % m == 0
  {
  }
}
