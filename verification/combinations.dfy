/** The order in which the sparse generator visits bit combinations, and why it misses none. */
module Combinations {
  import opened Wrappers

  /** Binomial coefficient, by Pascal's rule. */
  function Choose(n: nat, k: nat): nat
  {
    if k == 0 then 1 else if n == 0 then 0 else Choose(n - 1, k - 1) + Choose(n - 1, k)
  }

  /** A combination of bits below `max`: strictly increasing positions. */
  ghost predicate IsCombo(c: seq<nat>, max: int)
  {
    c == [] || (c[|c| - 1] < max && IsCombo(c[..|c| - 1], c[|c| - 1]))
  }

  /** What `updateBit` does to `bitIdx[1..level]`: the last position moves up if it can; otherwise the
      shorter combination is advanced, one position lower, and the last one follows it. */
  function Succ(c: seq<nat>, max: int): (d: Option<seq<nat>>)
    ensures d.Some? ==> |d.value| == |c| > 0
    decreases |c|
  {
    if c == [] then None else
      var last := c[|c| - 1];
      var init := c[..|c| - 1];
      if last < max - 1 then Some(init + [last + 1])
      else
        var lower := Succ(init, max - 1);
        if lower.None? then None
        else Some(lower.value + [lower.value[|init| - 1] + 1])
  }

  /** The first combination of a level: bits 0 to level-1. */
  function First(level: nat): (c: seq<nat>)
    ensures |c| == level
  {
    seq(level, i => i)
  }

  /** The combination after `k` updates, starting from the empty one. */
  function Nth(n: nat, k: nat): seq<nat>
  {
    if k == 0 then [] else
      var c := Nth(n, k - 1);
      var d := Succ(c, n);
      if d.Some? then d.value else First(|c| + 1)
  }

  /** How many combinations have fewer than `level` bits. */
  function Below(n: nat, level: nat): nat
  {
    if level == 0 then 0 else Below(n, level - 1) + Choose(n, level - 1)
  }

  /** Combinatorial number of what is still to come at this level, when `m` more positions follow `c`. */
  function Coming(c: seq<nat>, n: nat, m: nat): nat
    decreases |c|
  {
    if c == [] then 0
    else Coming(c[..|c| - 1], n, m + 1) + (if c[|c| - 1] < n then Choose(n - 1 - c[|c| - 1], m + 1) else 0)
  }

  /** The place of a combination in the enumeration: by size, then in order. */
  function Index(c: seq<nat>, n: nat): int
  {
    Below(n, |c|) + Choose(n, |c|) - 1 - Coming(c, n, 0)
  }

  // ----- one step -----

  lemma {:induction false} ChooseZero(n: nat, k: nat)
    requires k > n
    ensures Choose(n, k) == 0
  {
    if n > 0 {
      ChooseZero(n - 1, k - 1);
      ChooseZero(n - 1, k);
    }
  }

  lemma {:induction false} ChoosePositive(n: nat, k: nat)
    requires k <= n
    ensures Choose(n, k) > 0
  {
    if k > 0 {
      ChoosePositive(n - 1, k - 1);
    }
  }

  /** The bounds of a combination hold for every position, and there is room above it. */
  lemma {:induction false} ComboRoom(c: seq<nat>, max: nat)
    requires IsCombo(c, max)
    ensures |c| <= max
    ensures forall i :: 0 <= i < |c| ==> c[i] < max
    decreases |c|
  {
    if c != [] {
      ComboRoom(c[..|c| - 1], c[|c| - 1]);
    }
  }

  lemma ComboSnoc(c: seq<nat>, x: nat, max: int)
    requires IsCombo(c, x) && x < max
    ensures IsCombo(c + [x], max)
  {
    assert (c + [x])[..|c|] == c;
  }

  lemma ComboInit(c: seq<nat>, max: int)
    requires IsCombo(c, max) && c != []
    ensures IsCombo(c[..|c| - 1], c[|c| - 1]) && c[|c| - 1] < max
  {
  }

  /** A successor is a combination of the same size. */
  lemma {:induction false} SuccIsCombo(c: seq<nat>, max: int)
    requires IsCombo(c, max)
    ensures var d := Succ(c, max);
            d.Some? ==> IsCombo(d.value, max) && d.value[|c| - 1] < max
    decreases |c|
  {
    hide IsCombo;
    if c != [] {
      ComboInit(c, max);
      var last, init := c[|c| - 1], c[..|c| - 1];
      if last < max - 1 {
        ComboWeaken(init, last, last + 1);
        ComboSnoc(init, last + 1, max);
      } else {
        ComboWeaken(init, last, max - 1);
        SuccIsCombo(init, max - 1);
        var lower := Succ(init, max - 1);
        if lower.Some? {
          var e := lower.value[|init| - 1];
          ComboTighten(lower.value, max - 1, e + 1);
          ComboSnoc(lower.value, e + 1, max);
        }
      }
    }
  }

  lemma ComboWeaken(c: seq<nat>, max: int, max': int)
    requires IsCombo(c, max) && max <= max'
    ensures IsCombo(c, max')
  {
  }

  lemma ComboTighten(c: seq<nat>, max: int, max': int)
    requires IsCombo(c, max) && (c == [] || c[|c| - 1] < max')
    ensures IsCombo(c, max')
  {
  }

  lemma ComingSnoc(c: seq<nat>, x: nat, n: nat, m: nat)
    requires x < n
    ensures Coming(c + [x], n, m) == Coming(c, n, m + 1) + Choose(n - 1 - x, m + 1)
  {
    assert (c + [x])[..|c|] == c;
  }

  lemma Pascal(r: nat, k: nat)
    requires r > 0
    ensures Choose(r, k + 1) == Choose(r - 1, k) + Choose(r - 1, k + 1)
  {
  }

  /** Advancing by one: the count of combinations to come drops by what the moved positions release. */
  lemma {:induction false} SuccComing(c: seq<nat>, n: nat, m: nat)
    requires m <= n && IsCombo(c, n - m)
    ensures var d := Succ(c, n - m);
            if d.Some? then
              d.value[|c| - 1] < n - m
              && Coming(c, n, m) == Coming(d.value, n, m) + Choose(n - 1 - d.value[|c| - 1], m)
            else Coming(c, n, m) == 0
    decreases |c|
  {
    hide IsCombo, Coming, Choose;
    if c == [] {
      NoneComing(n, m);
    } else {
      SuccIsCombo(c, n - m);
      ComboInit(c, n - m);
      var last, init := c[|c| - 1], c[..|c| - 1];
      assert c == init + [last];
      ComingSnoc(init, last, n, m);
      if last < n - m - 1 {
        ComingSnoc(init, last + 1, n, m);
        Pascal(n - 1 - last, m);
      } else {
        ComboTighten(init, last, n - (m + 1));
        SuccComing(init, n, m + 1);
        SuccIsCombo(init, n - (m + 1));
        ChooseZero(m, m + 1);
        var lower := Succ(init, n - (m + 1));
        if lower.Some? {
          var e := lower.value[|init| - 1];
          ComingSnoc(lower.value, e + 1, n, m);
          Pascal(n - 1 - e, m);
        }
      }
    }
  }

  lemma NoneComing(n: nat, m: nat)
    ensures Coming([], n, m) == 0
  {
  }

  /** A fresh level has all its combinations to come but one. */
  lemma {:induction false} FirstComing(n: nat, level: nat, m: nat)
    requires level + m <= n
    ensures IsCombo(First(level), level)
    ensures Coming(First(level), n, m) + Choose(n - level, m) == Choose(n, level + m)
    decreases level
  {
    if level > 0 {
      var c := First(level);
      assert c[..level - 1] == First(level - 1);
      FirstComing(n, level - 1, m + 1);
      assert Choose(n - level + 1, m + 1) == Choose(n - level, m) + Choose(n - level, m + 1);
    }
  }

  /** Each update advances the index by exactly one, across levels too. */
  lemma StepIndex(c: seq<nat>, n: nat)
    requires IsCombo(c, n) && (Succ(c, n).None? ==> |c| < n)
    ensures var d := Succ(c, n);
            var next := if d.Some? then d.value else First(|c| + 1);
            IsCombo(next, n) && Index(next, n) == Index(c, n) + 1
            && |next| == if d.Some? then |c| else |c| + 1
  {
    SuccIsCombo(c, n);
    SuccComing(c, n, 0);
    if Succ(c, n).None? {
      FirstComing(n, |c| + 1, 0);
      ComboWeaken(First(|c| + 1), |c| + 1, n);
    }
  }

  // ----- the order -----

  /** At any level at least one combination is current: no more are to come than the rest. */
  lemma {:induction false} ComingBound(c: seq<nat>, n: nat, m: nat)
    requires m <= n && IsCombo(c, n - m)
    ensures Coming(c, n, m) + Choose(if c == [] then n else n - 1 - c[|c| - 1], m) <= Choose(n, |c| + m)
    decreases |c|
  {
    if c != [] {
      var last, init := c[|c| - 1], c[..|c| - 1];
      ComboTighten(init, last, n - m - 1);
      ComingBound(init, n, m + 1);
      var r := if init == [] then n else n - 1 - init[|init| - 1];
      ChooseMonotone(n - last, r, m + 1);
      assert Choose(n - last, m + 1) == Choose(n - 1 - last, m) + Choose(n - 1 - last, m + 1);
    }
  }

  lemma {:induction false} ChooseMonotone(a: nat, b: nat, k: nat)
    requires a <= b
    ensures Choose(a, k) <= Choose(b, k)
    decreases b
  {
    if a < b && k > 0 {
      ChooseMonotone(a, b - 1, k);
    }
  }

  /** Every combination's index lies in its level's stretch. */
  lemma IndexInLevel(c: seq<nat>, n: nat)
    requires IsCombo(c, n)
    ensures Below(n, |c|) <= Index(c, n) < Below(n, |c| + 1)
  {
    ComingBound(c, n, 0);
  }

  /** Lexicographic order on combinations of one size, compared from the first difference on. */
  ghost predicate LexLess(c: seq<nat>, d: seq<nat>)
    requires |c| == |d|
  {
    exists i :: 0 <= i < |c| && c[..i] == d[..i] && c[i] < d[i]
  }

  /** Later in lexicographic order means fewer to come. */
  lemma {:induction false} LexComing(c: seq<nat>, d: seq<nat>, i: nat, n: nat, m: nat)
    requires m <= n && |c| == |d| && IsCombo(c, n - m) && IsCombo(d, n - m)
    requires i < |c| && c[..i] == d[..i] && c[i] < d[i]
    ensures Coming(d, n, m) + Choose(n - 1 - d[|d| - 1], m) <= Coming(c, n, m)
    decreases |c|
  {
    var l := |c| - 1;
    var c0, d0 := c[..l], d[..l];
    if i == l {
      assert c0 == d0;
      ChooseMonotone(n - d[l], n - 1 - c[l], m + 1);
      assert Choose(n - d[l], m + 1) == Choose(n - 1 - d[l], m) + Choose(n - 1 - d[l], m + 1);
    } else {
      ComboTighten(c0, c[l], n - m - 1);
      ComboTighten(d0, d[l], n - m - 1);
      assert c0[..i] == c[..i] == d[..i] == d0[..i];
      LexComing(c0, d0, i, n, m + 1);
      ChooseMonotone(n - d[l], n - 1 - d0[l - 1], m + 1);
      assert Choose(n - d[l], m + 1) == Choose(n - 1 - d[l], m) + Choose(n - 1 - d[l], m + 1);
    }
  }

  /** Within a level the index order is the lexicographic order. */
  lemma LexIndex(c: seq<nat>, d: seq<nat>, n: nat)
    requires |c| == |d| && IsCombo(c, n) && IsCombo(d, n) && LexLess(c, d)
    ensures Index(c, n) < Index(d, n)
  {
    var i :| 0 <= i < |c| && c[..i] == d[..i] && c[i] < d[i];
    LexComing(c, d, i, n, 0);
  }

  /** The first place where two combinations differ. */
  lemma {:induction false} LexTotal(c: seq<nat>, d: seq<nat>)
    requires |c| == |d| && c != d
    ensures LexLess(c, d) || LexLess(d, c)
    decreases |c|
  {
    var l := |c| - 1;
    if c[..l] == d[..l] {
      assert c == c[..l] + [c[l]] && d == d[..l] + [d[l]];
      assert c[l] != d[l];
    } else {
      LexTotal(c[..l], d[..l]);
      if LexLess(c[..l], d[..l]) {
        var i :| 0 <= i < l && c[..l][..i] == d[..l][..i] && c[..l][i] < d[..l][i];
        assert c[..i] == c[..l][..i] && d[..i] == d[..l][..i];
      } else {
        var i :| 0 <= i < l && d[..l][..i] == c[..l][..i] && d[..l][i] < c[..l][i];
        assert c[..i] == c[..l][..i] && d[..i] == d[..l][..i];
      }
    }
  }

  lemma {:induction false} BelowMonotone(n: nat, a: nat, b: nat)
    requires a <= b
    ensures Below(n, a) <= Below(n, b)
    decreases b
  {
    if a < b {
      BelowMonotone(n, a, b - 1);
    }
  }

  /** Different combinations have different indices. */
  lemma IndexInjective(c: seq<nat>, d: seq<nat>, n: nat)
    requires IsCombo(c, n) && IsCombo(d, n) && Index(c, n) == Index(d, n)
    ensures c == d
  {
    IndexInLevel(c, n);
    IndexInLevel(d, n);
    if |c| < |d| {
      BelowMonotone(n, |c| + 1, |d|);
    } else if |d| < |c| {
      BelowMonotone(n, |d| + 1, |c|);
    } else if c != d {
      LexTotal(c, d);
      if LexLess(c, d) {
        LexIndex(c, d, n);
      } else {
        LexIndex(d, c, n);
      }
    }
  }

  // ----- whole runs -----

  lemma EmptyCombo(n: nat)
    ensures IsCombo([], n) && Index([], n) == 0
  {
    assert Below(n, 0) == 0;
  }

  /** After `k` updates the generator stands at the combination of index `k`, as long as `k` does not
      exceed what levels 0 to n hold. */
  lemma {:induction false} NthIndex(n: nat, k: nat)
    requires k < Below(n, n + 1)
    ensures IsCombo(Nth(n, k), n) && Index(Nth(n, k), n) == k
  {
    hide IsCombo, Succ;
    if k == 0 {
      EmptyCombo(n);
    } else {
      NthIndex(n, k - 1);
      var c := Nth(n, k - 1);
      ComboRoom(c, n);
      IndexInLevel(c, n);
      SuccComing(c, n, 0);
      StepIndex(c, n);
    }
  }

  /** Level `level` lasts exactly Choose(n, level) updates: it is entered at Below(n, level) and left at
      Below(n, level + 1). */
  lemma LevelLength(n: nat, k: nat, level: nat)
    requires k < Below(n, n + 1)
    ensures |Nth(n, k)| == level <==> Below(n, level) <= k < Below(n, level) + Choose(n, level)
  {
    NthIndex(n, k);
    var l := |Nth(n, k)|;
    IndexInLevel(Nth(n, k), n);
    if level < l {
      BelowMonotone(n, level + 1, l);
    } else if l < level {
      BelowMonotone(n, l + 1, level);
    }
  }

  /** No combination is missed: each appears, at its index. */
  lemma EveryComboAppears(c: seq<nat>, n: nat)
    requires IsCombo(c, n)
    ensures 0 <= Index(c, n) < Below(n, n + 1) && Nth(n, Index(c, n)) == c
  {
    ComboRoom(c, n);
    IndexInLevel(c, n);
    BelowMonotone(n, |c| + 1, n + 1);
    NthIndex(n, Index(c, n));
    IndexInjective(Nth(n, Index(c, n)), c, n);
  }

  /** The enumeration order: by size, then lexicographic; no combination comes twice. */
  lemma NthOrdered(n: nat, j: nat, k: nat)
    requires j < k < Below(n, n + 1)
    ensures Nth(n, j) != Nth(n, k)
    ensures |Nth(n, j)| < |Nth(n, k)| || (|Nth(n, j)| == |Nth(n, k)| && LexLess(Nth(n, j), Nth(n, k)))
  {
    NthIndex(n, j);
    NthIndex(n, k);
    var c, d := Nth(n, j), Nth(n, k);
    IndexInLevel(c, n);
    IndexInLevel(d, n);
    if |d| < |c| {
      BelowMonotone(n, |d| + 1, |c|);
    } else if |c| == |d| {
      LexTotal(c, d);
      if LexLess(d, c) {
        LexIndex(d, c, n);
      }
    }
  }
}
