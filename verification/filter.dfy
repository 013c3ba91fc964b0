/** The candidate filter of the collision tester: 2-bit saturating counters, four to a byte. */
module CandidateFilter {
  import opened Words
  import opened Sampler

  type Cell = bv8

  // ----- counters inside a byte -----

  function Shift(slot: nat): bv3
    requires slot < 4
  {
    match slot
    case 0 => 0
    case 1 => 2
    case 2 => 4
    case _ => 6
  }

  /** `(cell >> shift) & 3`. */
  function Get(cell: Cell, slot: nat): Cell
    requires slot < 4
  {
    (cell >> Shift(slot)) & 3
  }

  /** `cell |= value << shift`. */
  function OrInto(cell: Cell, slot: nat, value: Cell): Cell
    requires slot < 4
  {
    cell | (value << Shift(slot))
  }

  /** `cell &= ~(3 << shift)`. */
  function Erase(cell: Cell, slot: nat): Cell
    requires slot < 4
  {
    cell & !(3 << Shift(slot))
  }

  lemma GetOr(cell: Cell, slot: nat, value: Cell, other: nat)
    requires slot < 4 && other < 4 && value <= 3
    ensures Get(OrInto(cell, slot, value), other) == if other == slot then Get(cell, slot) | value else Get(cell, other)
    ensures Get(cell, slot) <= Get(cell, slot) | value <= 3 && value <= Get(cell, slot) | value
  {
  }

  lemma GetErase(cell: Cell, slot: nat, other: nat)
    requires slot < 4 && other < 4
    ensures Get(Erase(cell, slot), other) == if other == slot then 0 else Get(cell, other)
  {
  }

  // ----- counters of the whole filter -----

  /** Counter `c` is slot `c % 4` of byte `c / 4`. */
  function Counter(bf: seq<Cell>, c: nat): Cell
    requires c < 4 * |bf|
  {
    Get(bf[c / 4], c % 4)
  }

  function OrAt(bf: seq<Cell>, c: nat, value: Cell): (r: seq<Cell>)
    requires c < 4 * |bf|
    ensures |r| == |bf|
  {
    bf[c / 4 := OrInto(bf[c / 4], c % 4, value)]
  }

  function EraseAt(bf: seq<Cell>, c: nat): (r: seq<Cell>)
    requires c < 4 * |bf|
    ensures |r| == |bf|
  {
    bf[c / 4 := Erase(bf[c / 4], c % 4)]
  }

  lemma CounterOr(bf: seq<Cell>, c: nat, value: Cell, d: nat)
    requires c < 4 * |bf| && d < 4 * |bf| && value <= 3
    ensures Counter(OrAt(bf, c, value), d) == if d == c then Counter(bf, c) | value else Counter(bf, d)
    ensures Counter(bf, c) <= Counter(bf, c) | value <= 3 && value <= Counter(bf, c) | value
  {
    hide Get, OrInto;
    GetOr(bf[c / 4], c % 4, value, d % 4);
  }

  lemma CounterErase(bf: seq<Cell>, c: nat, d: nat)
    requires c < 4 * |bf| && d < 4 * |bf|
    ensures Counter(EraseAt(bf, c), d) == if d == c then 0 else Counter(bf, d)
  {
    hide Get, Erase;
    GetErase(bf[c / 4], c % 4, d % 4);
  }

  lemma CounterSmall(bf: seq<Cell>, c: nat)
    requires c < 4 * |bf|
    ensures Counter(bf, c) <= 3
  {
  }

  /** The tables `addCandidates` and `nextValue`. */
  function AddCandidates(existing: Cell): nat
  {
    if existing == 0 then 0 else if existing == 1 then 2 else 1
  }

  function NextValue(existing: Cell): (v: Cell)
    ensures v <= 3
  {
    if existing == 0 then 1 else if existing == 1 then 2 else 3
  }

  function Min(a: Cell, b: Cell): Cell { if a < b then a else b }

  function Max(a: Cell, b: Cell): Cell { if a > b then a else b }

  // ----- two probes -----

  /** The two counters of a hash, in the same 64-byte line. */
  datatype Probes = Probes(c1: nat, c2: nat)

  function ProbesOf(hash: u64, bflog: nat): (p: Probes)
    requires 6 <= bflog
    ensures p.c1 < 4 * Pow2(bflog) && p.c2 < 4 * Pow2(bflog)
  {
    var a := Avalanche64(hash);
    var slot1 := a % 256;
    var slot2 := Shr64(a, 8) % 256;
    var line := And(Shr64(Shr64(a, 8), 8), Pow2(bflog - 6) - 1);
    LineInside(Shr64(Shr64(a, 8), 8), bflog);
    Probes(256 * line + slot1, 256 * line + slot2)
  }

  lemma LineInside(x: nat, bflog: nat)
    requires 6 <= bflog
    ensures 256 * And(x, Pow2(bflog - 6) - 1) + 255 < 4 * Pow2(bflog)
  {
    MaskIsMod(bflog - 6, x);
    assert Pow2(bflog) == 64 * Pow2(bflog - 6) by {
      assert Pow2(bflog) == 2 * Pow2(bflog - 1) == 4 * Pow2(bflog - 2) == 8 * Pow2(bflog - 3);
      assert Pow2(bflog - 3) == 2 * Pow2(bflog - 4) == 4 * Pow2(bflog - 5) == 8 * Pow2(bflog - 6);
    }
  }

  function Existing(bf: seq<Cell>, p: Probes): Cell
    requires p.c1 < 4 * |bf| && p.c2 < 4 * |bf|
  {
    Min(Counter(bf, p.c1), Counter(bf, p.c2))
  }

  /** `Filter_insert`: the first counter is overwritten, the second one only gains bits. */
  function Insert2(bf: seq<Cell>, p: Probes): (r: seq<Cell>)
    requires p.c1 < 4 * |bf| && p.c2 < 4 * |bf|
    ensures |r| == |bf|
  {
    var next := NextValue(Existing(bf, p));
    OrAt(OrAt(EraseAt(bf, p.c1), p.c1, Max(Counter(bf, p.c1), next)), p.c2, Max(Counter(bf, p.c2), next))
  }

  /** `Filter_check`. */
  predicate Check2(bf: seq<Cell>, p: Probes)
    requires p.c1 < 4 * |bf| && p.c2 < 4 * |bf|
  {
    Counter(bf, p.c1) >= 2 && Counter(bf, p.c2) >= 2
  }

  /** However the two probes of this and other hashes alias, an insertion lowers no counter and brings
      its own two counters at least to the next value. */
  lemma InsertRaises(bf: seq<Cell>, p: Probes, d: nat)
    requires p.c1 < 4 * |bf| && p.c2 < 4 * |bf| && d < 4 * |bf|
    ensures Counter(bf, d) <= Counter(Insert2(bf, p), d)
    ensures d == p.c1 || d == p.c2 ==> NextValue(Existing(bf, p)) <= Counter(Insert2(bf, p), d)
  {
    hide Counter, OrAt, EraseAt;
    var next := NextValue(Existing(bf, p));
    var v1, v2 := Max(Counter(bf, p.c1), next), Max(Counter(bf, p.c2), next);
    CounterSmall(bf, p.c1);
    CounterSmall(bf, p.c2);
    var bf1 := EraseAt(bf, p.c1);
    var bf2 := OrAt(bf1, p.c1, v1);
    CounterErase(bf, p.c1, d);
    CounterErase(bf, p.c1, p.c1);
    CounterOr(bf1, p.c1, v1, d);
    CounterOr(bf2, p.c2, v2, d);
    assert 0 | v1 == v1;
  }

  /** An empty filter. */
  function Empty(bflog: nat): (bf: seq<Cell>)
    ensures |bf| == Pow2(bflog)
  {
    seq(Pow2(bflog), _ => 0)
  }

  /** The filter after a sequence of insertions, and the sum of their return values. */
  function Filled(bflog: nat, hs: seq<u64>): (bf: seq<Cell>)
    requires 6 <= bflog
    ensures |bf| == Pow2(bflog)
  {
    if hs == [] then Empty(bflog)
    else Insert2(Filled(bflog, hs[..|hs| - 1]), ProbesOf(hs[|hs| - 1], bflog))
  }

  function Presents(bflog: nat, hs: seq<u64>): nat
    requires 6 <= bflog
  {
    if hs == [] then 0
    else Presents(bflog, hs[..|hs| - 1])
         + AddCandidates(Existing(Filled(bflog, hs[..|hs| - 1]), ProbesOf(hs[|hs| - 1], bflog)))
  }

  predicate Passes(bflog: nat, hs: seq<u64>, h: u64)
    requires 6 <= bflog
  {
    Check2(Filled(bflog, hs), ProbesOf(h, bflog))
  }

  /** Every hash inserted at least once has both its counters above zero. */
  lemma {:induction false} InsertedOnce(bflog: nat, hs: seq<u64>, i: nat)
    requires 6 <= bflog && i < |hs|
    ensures Existing(Filled(bflog, hs), ProbesOf(hs[i], bflog)) >= 1
    decreases |hs|
  {
    hide Counter, Insert2, ProbesOf, NextValue;
    var l := |hs| - 1;
    var before, p := Filled(bflog, hs[..l]), ProbesOf(hs[i], bflog);
    InsertRaises(before, ProbesOf(hs[l], bflog), p.c1);
    InsertRaises(before, ProbesOf(hs[l], bflog), p.c2);
    if i < l {
      InsertedOnce(bflog, hs[..l], i);
    } else {
      NextPositive(Existing(before, p));
    }
  }

  lemma NextPositive(e: Cell)
    ensures NextValue(e) >= 1
    ensures e >= 1 ==> NextValue(e) >= 2
    ensures AddCandidates(e) == 0 <==> e == 0
  {
  }

  /** Every hash inserted at least twice passes the check, and the insertions have announced it. */
  lemma {:induction false} InsertedTwice(bflog: nat, hs: seq<u64>, i: nat, j: nat)
    requires 6 <= bflog && i < j < |hs| && hs[i] == hs[j]
    ensures Passes(bflog, hs, hs[i])
    ensures Presents(bflog, hs) > 0
    decreases |hs|
  {
    hide Counter, Insert2, ProbesOf, NextValue, AddCandidates;
    var l := |hs| - 1;
    var before, p := Filled(bflog, hs[..l]), ProbesOf(hs[i], bflog);
    InsertRaises(before, ProbesOf(hs[l], bflog), p.c1);
    InsertRaises(before, ProbesOf(hs[l], bflog), p.c2);
    if j < l {
      InsertedTwice(bflog, hs[..l], i, j);
    } else {
      InsertedOnce(bflog, hs[..l], i);
      NextPositive(Existing(before, p));
    }
  }

  /** If anything was announced, something passes. */
  lemma {:induction false} AnnouncedPasses(bflog: nat, hs: seq<u64>)
    requires 6 <= bflog && Presents(bflog, hs) > 0
    ensures exists i :: 0 <= i < |hs| && Passes(bflog, hs, hs[i])
    decreases |hs|
  {
    hide Counter, Insert2, ProbesOf, NextValue, AddCandidates;
    var l := |hs| - 1;
    var before := Filled(bflog, hs[..l]);
    var i: nat;
    if Presents(bflog, hs[..l]) > 0 {
      AnnouncedPasses(bflog, hs[..l]);
      i :| 0 <= i < l && Passes(bflog, hs[..l], hs[..l][i]);
    } else {
      i := l;
      NextPositive(Existing(before, ProbesOf(hs[l], bflog)));
    }
    var p := ProbesOf(hs[i], bflog);
    InsertRaises(before, ProbesOf(hs[l], bflog), p.c1);
    InsertRaises(before, ProbesOf(hs[l], bflog), p.c2);
    assert Passes(bflog, hs, hs[i]);
  }

  /** `Filter_insert` of the two-probe build, in place. */
  method Insert2InPlace(bf: array<Cell>, bflog: nat, hash: u64, ghost inserted: seq<u64>) returns (added: nat)
    requires 6 <= bflog && bf[..] == Filled(bflog, inserted)
    modifies bf
    ensures bf[..] == Filled(bflog, inserted + [hash])
    ensures added == Presents(bflog, inserted + [hash]) - Presents(bflog, inserted)
  {
    hide ProbesOf, Get, OrInto, Erase, NextValue, AddCandidates;
    ghost var was := bf[..];
    var p := ProbesOf(hash, bflog);
    var pos1, s1, pos2, s2 := p.c1 / 4, p.c1 % 4, p.c2 / 4, p.c2 % 4;
    var ex1, ex2 := Get(bf[pos1], s1), Get(bf[pos2], s2);
    var existing := Min(ex1, ex2);
    bf[pos1] := Erase(bf[pos1], s1);
    bf[pos1] := OrInto(bf[pos1], s1, Max(ex1, NextValue(existing)));
    bf[pos2] := OrInto(bf[pos2], s2, Max(ex2, NextValue(existing)));
    added := AddCandidates(existing);
    assert bf[..] == Insert2(was, p);
    assert (inserted + [hash])[..|inserted|] == inserted;
  }

  // ----- one probe (FILTER_1_PROBE) -----

  function ProbeOf(hash: u64, bflog: nat): (c: nat)
    ensures c < 4 * Pow2(bflog)
  {
    MaskIsMod(bflog, Shr64(hash, 2));
    4 * And(Shr64(hash, 2), Pow2(bflog) - 1) + hash % 4
  }

  function Insert1(bf: seq<Cell>, c: nat): (r: seq<Cell>)
    requires c < 4 * |bf|
    ensures |r| == |bf|
  {
    OrAt(bf, c, NextValue(Counter(bf, c)))
  }

  /** The check reads the high bit of the counter. */
  predicate Check1(bf: seq<Cell>, c: nat)
    requires c < 4 * |bf|
  {
    (((bf[c / 4] >> Shift(c % 4)) >> 1) & 1) == 1
  }

  function Filled1(bflog: nat, hs: seq<u64>): (bf: seq<Cell>)
    ensures |bf| == Pow2(bflog)
  {
    if hs == [] then Empty(bflog)
    else Insert1(Filled1(bflog, hs[..|hs| - 1]), ProbeOf(hs[|hs| - 1], bflog))
  }

  function Presents1(bflog: nat, hs: seq<u64>): nat
  {
    if hs == [] then 0
    else Presents1(bflog, hs[..|hs| - 1])
         + AddCandidates(Counter(Filled1(bflog, hs[..|hs| - 1]), ProbeOf(hs[|hs| - 1], bflog)))
  }

  /** How many of `hs` fall on counter `c`. */
  ghost function Tally(bflog: nat, hs: seq<u64>, c: nat): nat
  {
    if hs == [] then 0
    else Tally(bflog, hs[..|hs| - 1], c) + if ProbeOf(hs[|hs| - 1], bflog) == c then 1 else 0
  }

  /** How many of `part` pass the check once `all` has been inserted. */
  ghost function Passing1(bflog: nat, part: seq<u64>, all: seq<u64>): nat
  {
    if part == [] then 0
    else Passing1(bflog, part[..|part| - 1], all)
         + if Check1(Filled1(bflog, all), ProbeOf(part[|part| - 1], bflog)) then 1 else 0
  }

  lemma CheckReadsHighBit(bf: seq<Cell>, c: nat)
    requires c < 4 * |bf|
    ensures Check1(bf, c) <==> Counter(bf, c) >= 2
  {
  }

  /** A counter goes 0, 1, 3 and stays. */
  lemma {:induction false} CounterTallies(bflog: nat, hs: seq<u64>, c: nat)
    requires c < 4 * Pow2(bflog)
    ensures Counter(Filled1(bflog, hs), c)
            == if Tally(bflog, hs, c) == 0 then 0 else if Tally(bflog, hs, c) == 1 then 1 else 3
    decreases |hs|
  {
    hide ProbeOf, OrAt;
    if hs != [] {
      var before, p := Filled1(bflog, hs[..|hs| - 1]), ProbeOf(hs[|hs| - 1], bflog);
      CounterTallies(bflog, hs[..|hs| - 1], c);
      CounterOr(before, p, NextValue(Counter(before, p)), c);
    }
  }

  /** One more insertion turns a counter's single occupant into a candidate, and nothing else. */
  lemma {:induction false} PassingGrows(bflog: nat, part: seq<u64>, all: seq<u64>, h: u64)
    ensures Passing1(bflog, part, all + [h])
            == Passing1(bflog, part, all)
               + if Tally(bflog, all, ProbeOf(h, bflog)) == 1 then Tally(bflog, part, ProbeOf(h, bflog)) else 0
    decreases |part|
  {
    hide ProbeOf, Counter, Check1, Filled1;
    if part != [] {
      PassingGrows(bflog, part[..|part| - 1], all, h);
      var c := ProbeOf(part[|part| - 1], bflog);
      assert (all + [h])[..|all|] == all;
      CheckReadsHighBit(Filled1(bflog, all), c);
      CheckReadsHighBit(Filled1(bflog, all + [h]), c);
      CounterTallies(bflog, all, c);
      CounterTallies(bflog, all + [h], c);
    }
  }

  /** The announced number of candidates is exact: the insertions' return values add up to the number
      of inserted hashes, repetitions included, for which the check holds afterwards. */
  lemma {:induction false} OneProbeExact(bflog: nat, hs: seq<u64>)
    ensures Presents1(bflog, hs) == Passing1(bflog, hs, hs)
    decreases |hs|
  {
    hide ProbeOf, Counter, Check1, Filled1;
    if hs != [] {
      var before, h := hs[..|hs| - 1], hs[|hs| - 1];
      var c := ProbeOf(h, bflog);
      assert hs == before + [h];
      OneProbeExact(bflog, before);
      PassingGrows(bflog, before, before, h);
      CheckReadsHighBit(Filled1(bflog, hs), c);
      CounterTallies(bflog, before, c);
      CounterTallies(bflog, hs, c);
    }
  }

  /** `Filter_insert` of the one-probe build, in place. */
  method Insert1InPlace(bf: array<Cell>, bflog: nat, hash: u64, ghost inserted: seq<u64>) returns (added: nat)
    requires bf[..] == Filled1(bflog, inserted)
    modifies bf
    ensures bf[..] == Filled1(bflog, inserted + [hash])
    ensures added == Presents1(bflog, inserted + [hash]) - Presents1(bflog, inserted)
  {
    hide ProbeOf, Get, OrInto, NextValue, AddCandidates;
    ghost var was := bf[..];
    var c := ProbeOf(hash, bflog);
    var existing := Get(bf[c / 4], c % 4);
    bf[c / 4] := OrInto(bf[c / 4], c % 4, NextValue(existing));
    added := AddCandidates(existing);
    assert bf[..] == Insert1(was, c);
    assert (inserted + [hash])[..|inserted|] == inserted;
  }

  // ----- either build -----

  datatype Build = OneProbe | TwoProbes

  /** The two-probe build keeps both counters in one line of 64 bytes. */
  predicate LogOk(build: Build, bflog: nat)
  {
    build.TwoProbes? ==> 6 <= bflog
  }

  function FilledBy(build: Build, bflog: nat, hs: seq<u64>): (bf: seq<Cell>)
    requires LogOk(build, bflog)
    ensures |bf| == Pow2(bflog)
  {
    if build.OneProbe? then Filled1(bflog, hs) else Filled(bflog, hs)
  }

  function PresentsBy(build: Build, bflog: nat, hs: seq<u64>): nat
    requires LogOk(build, bflog)
  {
    if build.OneProbe? then Presents1(bflog, hs) else Presents(bflog, hs)
  }

  predicate PassesBy(build: Build, bflog: nat, hs: seq<u64>, h: u64)
    requires LogOk(build, bflog)
  {
    if build.OneProbe? then Check1(Filled1(bflog, hs), ProbeOf(h, bflog)) else Passes(bflog, hs, h)
  }

  /** How many of `part` pass the check once `all` has been inserted. */
  ghost function PassingBy(build: Build, bflog: nat, part: seq<u64>, all: seq<u64>): nat
    requires LogOk(build, bflog)
  {
    if part == [] then 0
    else PassingBy(build, bflog, part[..|part| - 1], all) + if PassesBy(build, bflog, all, part[|part| - 1]) then 1 else 0
  }

  lemma {:induction false} PassingOne(bflog: nat, part: seq<u64>, all: seq<u64>)
    ensures PassingBy(OneProbe, bflog, part, all) == Passing1(bflog, part, all)
    decreases |part|
  {
    hide Check1, Filled1, ProbeOf;
    if part != [] {
      PassingOne(bflog, part[..|part| - 1], all);
    }
  }

  lemma {:induction false} SomePass(build: Build, bflog: nat, part: seq<u64>, all: seq<u64>)
    requires LogOk(build, bflog)
    ensures PassingBy(build, bflog, part, all) > 0 <==> exists i :: 0 <= i < |part| && PassesBy(build, bflog, all, part[i])
    decreases |part|
  {
    hide PassesBy;
    if part != [] {
      var init := part[..|part| - 1];
      SomePass(build, bflog, init, all);
      if i :| 0 <= i < |part| && PassesBy(build, bflog, all, part[i]) {
        assert i < |init| ==> init[i] == part[i];
      }
      if i :| 0 <= i < |init| && PassesBy(build, bflog, all, init[i]) {
        assert part[i] == init[i];
      }
    }
  }

  lemma {:induction false} TallyTwice(bflog: nat, hs: seq<u64>, i: nat, j: nat)
    requires i < j < |hs| && hs[i] == hs[j]
    ensures Tally(bflog, hs, ProbeOf(hs[i], bflog)) >= 2
    decreases |hs|
  {
    hide ProbeOf;
    if j < |hs| - 1 {
      TallyTwice(bflog, hs[..|hs| - 1], i, j);
    } else {
      TallyOnce(bflog, hs[..j], i);
    }
  }

  lemma {:induction false} TallyOnce(bflog: nat, hs: seq<u64>, i: nat)
    requires i < |hs|
    ensures Tally(bflog, hs, ProbeOf(hs[i], bflog)) >= 1
    decreases |hs|
  {
    hide ProbeOf;
    if i < |hs| - 1 {
      TallyOnce(bflog, hs[..|hs| - 1], i);
    }
  }

  /** Every hash inserted at least twice passes the check, and the insertions have announced it. */
  lemma RepeatedPasses(build: Build, bflog: nat, hs: seq<u64>, i: nat, j: nat)
    requires LogOk(build, bflog) && i < j < |hs| && hs[i] == hs[j]
    ensures PassesBy(build, bflog, hs, hs[i])
    ensures PresentsBy(build, bflog, hs) > 0
  {
    hide Counter, Check1, ProbeOf, Filled1, Passes, Presents, Presents1;
    if build.OneProbe? {
      var c := ProbeOf(hs[i], bflog);
      TallyTwice(bflog, hs, i, j);
      CounterTallies(bflog, hs, c);
      CheckReadsHighBit(Filled1(bflog, hs), c);
      OneProbeExact(bflog, hs);
      PassingOne(bflog, hs, hs);
      SomePass(build, bflog, hs, hs);
    } else {
      InsertedTwice(bflog, hs, i, j);
    }
  }

  /** If anything was announced, something passes. */
  lemma AnnouncedByPasses(build: Build, bflog: nat, hs: seq<u64>)
    requires LogOk(build, bflog) && PresentsBy(build, bflog, hs) > 0
    ensures exists i :: 0 <= i < |hs| && PassesBy(build, bflog, hs, hs[i])
  {
    hide Counter, Check1, ProbeOf, Filled1, Passes, Presents, Presents1;
    if build.OneProbe? {
      OneProbeExact(bflog, hs);
      PassingOne(bflog, hs, hs);
      SomePass(build, bflog, hs, hs);
    } else {
      AnnouncedPasses(bflog, hs);
      var i :| 0 <= i < |hs| && Passes(bflog, hs, hs[i]);
      assert PassesBy(build, bflog, hs, hs[i]);
    }
  }

  /** The filter object: an array of cells changed in place. */
  class Filter {
    const build: Build
    const bf: array<Cell>
    const bflog: nat
    ghost var inserted: seq<u64>

    ghost predicate Valid()
      reads this, bf
    {
      LogOk(build, bflog) && bf[..] == FilledBy(build, bflog, inserted)
    }

    /** `create_Filter`. */
    constructor (build: Build, bflog: nat)
      requires LogOk(build, bflog)
      ensures Valid() && inserted == [] && this.build == build && this.bflog == bflog && fresh(bf)
    {
      bf := new Cell[Pow2(bflog)](_ => 0);
      this.build, this.bflog, inserted := build, bflog, [];
      new;
      assert bf[..] == Empty(bflog);
    }

    method Insert(hash: u64) returns (added: nat)
      requires Valid()
      modifies this, bf
      ensures Valid() && inserted == old(inserted) + [hash]
      ensures added == PresentsBy(build, bflog, inserted) - PresentsBy(build, bflog, old(inserted))
    {
      hide ProbesOf, ProbeOf, Filled, Filled1, Presents, Presents1;
      if build.OneProbe? {
        added := Insert1InPlace(bf, bflog, hash, inserted);
      } else {
        added := Insert2InPlace(bf, bflog, hash, inserted);
      }
      inserted := inserted + [hash];
    }

    method Check(hash: u64) returns (candidate: bool)
      requires Valid()
      ensures candidate == PassesBy(build, bflog, inserted, hash)
    {
      hide ProbesOf, ProbeOf, Get;
      if build.OneProbe? {
        var c := ProbeOf(hash, bflog);
        candidate := (((bf[c / 4] >> Shift(c % 4)) >> 1) & 1) == 1;
      } else {
        var p := ProbesOf(hash, bflog);
        candidate := Get(bf[p.c1 / 4], p.c1 % 4) >= 2 && Get(bf[p.c2 / 4], p.c2 % 4) >= 2;
      }
    }
  }
}
