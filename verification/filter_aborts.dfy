/** When the collision search stops at its own check that no more candidates are stored than were
    announced: never with one probe; with two, only if hashes share one counter and not the other. */
module FilterAborts {
  import opened Wrappers
  import opened Words
  import opened Combinations
  import opened Sampler
  import opened AvalancheOnto
  import opened CandidateFilter
  import opened CollisionSearch

  // ----- what is stored is what passes -----

  lemma {:induction false} KeepCounts(build: Build, bflog: nat, part: seq<UniHash>, all: seq<UniHash>)
    requires LogOk(build, bflog)
    ensures |Keep(part, h => IsCandidate(build, bflog, all, h))| == PassingBy(build, bflog, H64s(part), H64s(all))
    decreases |part|
  {
    hide PassesBy;
    if part != [] {
      var init, last := part[..|part| - 1], part[|part| - 1];
      KeepCounts(build, bflog, init, all);
      assert H64s(part)[..|part| - 1] == H64s(init);
      assert H64s(part)[|part| - 1] == last.H64();
    }
  }

  /** With a filter, the search is exact when the announcements are. */
  lemma StoredIsPassing(p: Parameters, hf: HashFunction)
    requires p.nbH > 0 && EnoughSamples(p) && SizeDefined(p) && SizeAsserted(p) && p.filterLog.Some?
    ensures var log, hs := FilterLog(p).value, H64s(RunHashes(p, hf));
            StoredCount(p, hf) == PassingBy(p.build, log, hs, hs) && AnnouncedCount(p, hf) == PresentsBy(p.build, log, hs)
  {
    hide PassesBy, PresentsBy, RunHashes;
    KeepCounts(p.build, FilterLog(p).value, RunHashes(p, hf), RunHashes(p, hf));
  }

  /** In the one-probe build as many candidates are stored as were announced, so no search with a
      filter that can be made aborts. */
  lemma OneProbeNeverAborts(p: Parameters, hf: HashFunction, shrinksInPlace: bool)
    requires p.nbH > 0 && EnoughSamples(p) && SizeAsserted(p) && p.build.OneProbe? && p.filterLog.Some?
    ensures StoredCount(p, hf) == AnnouncedCount(p, hf) && !RunAborts(p, hf, shrinksInPlace)
  {
    hide PassingBy, Passing1, Presents1, RunHashes, StoredCount, AnnouncedCount;
    var log, hs := FilterLog(p).value, H64s(RunHashes(p, hf));
    StoredIsPassing(p, hf);
    OneProbeExact(log, hs);
    PassingOne(log, hs, hs);
  }

  // ----- two probes: hashes that share both counters or none -----

  ghost predicate Share(p: Probes, q: Probes)
  {
    p.c1 == q.c1 || p.c1 == q.c2 || p.c2 == q.c1 || p.c2 == q.c2
  }

  ghost predicate Same(p: Probes, q: Probes)
  {
    p == q || (p.c1 == q.c2 && p.c2 == q.c1)
  }

  ghost predicate Apart(bflog: nat, hs: seq<u64>, h: u64)
    requires 6 <= bflog
  {
    forall i :: 0 <= i < |hs| && Share(ProbesOf(hs[i], bflog), ProbesOf(h, bflog))
      ==> Same(ProbesOf(hs[i], bflog), ProbesOf(h, bflog))
  }

  /** No two of the hashes have just one counter in common. */
  ghost predicate Unmixed(bflog: nat, hs: seq<u64>)
    requires 6 <= bflog
  {
    forall j :: 0 <= j < |hs| ==> Apart(bflog, hs, hs[j])
  }

  /** How many of `hs` have the counters `p`. */
  ghost function Tally2(bflog: nat, hs: seq<u64>, p: Probes): nat
    requires 6 <= bflog
  {
    if hs == [] then 0
    else Tally2(bflog, hs[..|hs| - 1], p) + if Same(ProbesOf(hs[|hs| - 1], bflog), p) then 1 else 0
  }

  ghost predicate Level(v: Cell, n: nat)
  {
    if n == 0 then v == 0 else if n == 1 then v == 1 else 2 <= v <= 3
  }

  /** What an insertion makes of every counter. */
  lemma InsertExact(bf: seq<Cell>, p: Probes, d: nat)
    requires p.c1 < 4 * |bf| && p.c2 < 4 * |bf| && d < 4 * |bf|
    ensures var next := NextValue(Existing(bf, p));
            Counter(Insert2(bf, p), d) ==
            if d == p.c2 then (if p.c1 == p.c2 then Max(Counter(bf, d), next) else Counter(bf, d)) | Max(Counter(bf, d), next)
            else if d == p.c1 then Max(Counter(bf, d), next)
            else Counter(bf, d)
  {
    hide Counter, OrAt, EraseAt;
    var next := NextValue(Existing(bf, p));
    var v1, v2 := Max(Counter(bf, p.c1), next), Max(Counter(bf, p.c2), next);
    CounterSmall(bf, p.c1);
    CounterSmall(bf, p.c2);
    var bf1 := EraseAt(bf, p.c1);
    var bf2 := OrAt(bf1, p.c1, v1);
    CounterErase(bf, p.c1, d);
    CounterErase(bf, p.c1, p.c1);
    CounterOr(bf1, p.c1, v1, d);
    CounterOr(bf2, p.c2, v2, d);
    assert 0 | v1 == v1;
  }

  lemma LevelStep(v: Cell, w: Cell, n: nat)
    requires Level(v, n) && Level(w, n)
    ensures var m := Max(v, NextValue(Min(v, w)));
            Level(m, n + 1) && Level(v | m, n + 1) && Level(m | m, n + 1)
    ensures AddCandidates(Min(v, w)) == AddCandidates(Min(w, v)) == if n == 0 then 0 else if n == 1 then 2 else 1
  {
  }

  /** One more hash with two counters on the same level raises both by one. */
  lemma LevelInsert(bf: seq<Cell>, q: Probes, d: nat, n: nat)
    requires q.c1 < 4 * |bf| && q.c2 < 4 * |bf| && (d == q.c1 || d == q.c2)
    requires Level(Counter(bf, q.c1), n) && Level(Counter(bf, q.c2), n)
    ensures Level(Counter(Insert2(bf, q), d), n + 1)
    ensures AddCandidates(Existing(bf, q)) == if n == 0 then 0 else if n == 1 then 2 else 1
  {
    hide Counter, Insert2, NextValue, Level, AddCandidates;
    InsertExact(bf, q, d);
    LevelStep(Counter(bf, q.c1), Counter(bf, q.c2), n);
    LevelStep(Counter(bf, q.c2), Counter(bf, q.c1), n);
    MinEither(Counter(bf, q.c1), Counter(bf, q.c2));
  }

  lemma MinEither(v: Cell, w: Cell)
    ensures Min(v, w) == Min(w, v)
  {
  }

  /** The counters of a hash count the hashes that have them. */
  lemma {:induction false} Levels(bflog: nat, hs: seq<u64>, h: u64)
    requires 6 <= bflog && Apart(bflog, hs, h)
    ensures var bf, p := Filled(bflog, hs), ProbesOf(h, bflog);
            Level(Counter(bf, p.c1), Tally2(bflog, hs, p)) && Level(Counter(bf, p.c2), Tally2(bflog, hs, p))
    decreases |hs|
  {
    hide ProbesOf, Counter, Insert2, NextValue, Level, Existing;
    var p := ProbesOf(h, bflog);
    if hs == [] {
      NothingCounted(bflog, p);
    } else {
      var init, q := hs[..|hs| - 1], ProbesOf(hs[|hs| - 1], bflog);
      var bf, n := Filled(bflog, init), Tally2(bflog, init, p);
      assert Apart(bflog, init, h);
      Levels(bflog, init, h);
      if Same(q, p) {
        LevelInsert(bf, q, p.c1, n);
        LevelInsert(bf, q, p.c2, n);
      } else {
        assert !Share(q, p);
        InsertExact(bf, q, p.c1);
        InsertExact(bf, q, p.c2);
      }
    }
  }

  lemma NothingCounted(bflog: nat, p: Probes)
    requires p.c1 < 4 * Pow2(bflog) && p.c2 < 4 * Pow2(bflog)
    ensures Level(Counter(Empty(bflog), p.c1), 0) && Level(Counter(Empty(bflog), p.c2), 0)
  {
  }

  lemma {:induction false} TallySame(bflog: nat, hs: seq<u64>, p: Probes, q: Probes)
    requires 6 <= bflog && Same(p, q)
    ensures Tally2(bflog, hs, p) == Tally2(bflog, hs, q)
    decreases |hs|
  {
    hide ProbesOf;
    if hs != [] {
      TallySame(bflog, hs[..|hs| - 1], p, q);
    }
  }

  lemma PassesFromTwo(bflog: nat, hs: seq<u64>, h: u64)
    requires 6 <= bflog && Apart(bflog, hs, h)
    ensures PassesBy(TwoProbes, bflog, hs, h) <==> Tally2(bflog, hs, ProbesOf(h, bflog)) >= 2
  {
    hide ProbesOf, Counter, Filled;
    Levels(bflog, hs, h);
  }

  /** One more insertion turns the only hash with its counters into a candidate, and no other. */
  lemma {:induction false} PassingGrows2(bflog: nat, part: seq<u64>, all: seq<u64>, h: u64)
    requires 6 <= bflog && forall i :: 0 <= i < |part| ==> Apart(bflog, all, part[i]) && Apart(bflog, all + [h], part[i])
    ensures var p := ProbesOf(h, bflog);
            PassingBy(TwoProbes, bflog, part, all + [h])
            == PassingBy(TwoProbes, bflog, part, all) + if Tally2(bflog, all, p) == 1 then Tally2(bflog, part, p) else 0
    decreases |part|
  {
    hide ProbesOf, PassesBy, Apart, Same;
    if part != [] {
      var x, p := part[|part| - 1], ProbesOf(h, bflog);
      PassingGrows2(bflog, part[..|part| - 1], all, h);
      assert (all + [h])[..|all|] == all;
      PassesFromTwo(bflog, all, x);
      PassesFromTwo(bflog, all + [h], x);
      if Same(p, ProbesOf(x, bflog)) {
        TallySame(bflog, all, p, ProbesOf(x, bflog));
      }
      SameEither(p, ProbesOf(x, bflog));
    }
  }

  lemma SameEither(p: Probes, q: Probes)
    ensures Same(p, q) <==> Same(q, p)
  {
  }

  /** Without half-shared counters the two-probe announcements are exact as well. */
  lemma {:induction false} TwoProbesExact(bflog: nat, hs: seq<u64>)
    requires 6 <= bflog && Unmixed(bflog, hs)
    ensures Presents(bflog, hs) == PassingBy(TwoProbes, bflog, hs, hs)
    decreases |hs|
  {
    hide ProbesOf, PassesBy, Apart, Existing, Filled, Same, AddCandidates;
    if hs != [] {
      var l := |hs| - 1;
      var init, h := hs[..l], hs[l];
      var p := ProbesOf(h, bflog);
      assert hs == init + [h];
      UnmixedInit(bflog, hs);
      TwoProbesExact(bflog, init);
      PassingGrows2(bflog, init, init, h);
      PassesFromTwo(bflog, hs, h);
      Announces(bflog, init, h);
      SameSelf(p);
    }
  }

  lemma SameSelf(p: Probes)
    ensures Same(p, p)
  {
  }

  lemma UnmixedInit(bflog: nat, hs: seq<u64>)
    requires 6 <= bflog && hs != [] && Unmixed(bflog, hs)
    ensures var init := hs[..|hs| - 1];
            && Unmixed(bflog, init) && Apart(bflog, init, hs[|hs| - 1]) && Apart(bflog, hs, hs[|hs| - 1])
            && forall i :: 0 <= i < |init| ==> Apart(bflog, hs, init[i]) && Apart(bflog, init, init[i])
  {
    hide ProbesOf, Share, Same;
    assert forall j :: 0 <= j < |hs| ==> Apart(bflog, hs, hs[j]);
  }

  lemma Announces(bflog: nat, hs: seq<u64>, h: u64)
    requires 6 <= bflog && Apart(bflog, hs, h)
    ensures var p := ProbesOf(h, bflog); var n := Tally2(bflog, hs, p);
            AddCandidates(Existing(Filled(bflog, hs), p)) == if n == 0 then 0 else if n == 1 then 2 else 1
  {
    hide ProbesOf, Counter, Insert2, AddCandidates;
    var p := ProbesOf(h, bflog);
    Levels(bflog, hs, h);
    LevelInsert(Filled(bflog, hs), p, p.c1, Tally2(bflog, hs, p));
  }

  /** A two-probe search over such hashes stores what was announced and does not abort. */
  lemma UnmixedNeverAborts(p: Parameters, hf: HashFunction, shrinksInPlace: bool)
    requires p.nbH > 0 && EnoughSamples(p) && SizeDefined(p) && SizeAsserted(p) && p.build.TwoProbes? && p.filterLog.Some?
    requires Unmixed(FilterLog(p).value, H64s(RunHashes(p, hf)))
    ensures StoredCount(p, hf) == AnnouncedCount(p, hf) && !RunAborts(p, hf, shrinksInPlace)
  {
    hide PassingBy, Presents, RunHashes, StoredCount, AnnouncedCount, Unmixed;
    StoredIsPassing(p, hf);
    TwoProbesExact(FilterLog(p).value, H64s(RunHashes(p, hf)));
  }

  // ----- a search that aborts -----

  /** Seven hashes: four share the counter 5, the first of them comes again, and two hashes have
      counters of theirs that only belong together by chance. */
  const PROBES: seq<Probes> :=
    [Probes(5, 10), Probes(5, 11), Probes(5, 12), Probes(5, 13), Probes(5, 10), Probes(11, 12), Probes(13, 5)]

  /** The counters 5, 10, 11, 12 and 13 after each of them. */
  const COUNTERS: seq<seq<Cell>> :=
    [[0, 0, 0, 0, 0], [1, 1, 0, 0, 0], [1, 1, 1, 0, 0], [1, 1, 1, 1, 0], [1, 1, 1, 1, 1],
     [2, 3, 1, 1, 1], [2, 3, 2, 3, 1], [2, 3, 2, 3, 2]]

  ghost predicate At(bf: seq<Cell>, v: seq<Cell>)
    requires |v| == 5
  {
    && 256 <= 4 * |bf| && Counter(bf, 5) == v[0] && Counter(bf, 10) == v[1] && Counter(bf, 11) == v[2]
    && Counter(bf, 12) == v[3] && Counter(bf, 13) == v[4]
  }

  /** Each insertion takes the counters to the next row, announcing nothing four times and two
      candidates three times. */
  lemma NextRow(bf: seq<Cell>, k: nat)
    requires k < 7 && At(bf, COUNTERS[k])
    ensures At(Insert2(bf, PROBES[k]), COUNTERS[k + 1])
    ensures AddCandidates(Existing(bf, PROBES[k])) == if k < 4 then 0 else 2
  {
    hide Counter, Insert2, NextValue, AddCandidates;
    var p := PROBES[k];
    var v, w := Counter(bf, p.c1), Counter(bf, p.c2);
    OneInsertion(bf, p);
    if k < 4 {
      Bits(v, 0);
    } else {
      Bits(1, w);
    }
  }

  lemma Bits(v: Cell, w: Cell)
    requires (v <= 1 && w == 0) || (v == 1 && 1 <= w <= 2)
    ensures var n := NextValue(Min(v, w)); n == w + (if v == 1 && w == 2 then 0 else 1) && AddCandidates(Min(v, w)) == if w == 0 then 0 else 2
    ensures w == 0 ==> Max(v, 1) == 1 && w | Max(w, 1) == 1
    ensures w == 1 ==> Max(v, 2) == 2 && w | Max(w, 2) == 3
    ensures w == 2 ==> Max(v, 2) == 2 && w | Max(w, 2) == 2
  {
  }

  lemma OneInsertion(bf: seq<Cell>, p: Probes)
    requires p.c1 < 4 * |bf| && p.c2 < 4 * |bf| && p.c1 != p.c2
    ensures var v, w, r := Counter(bf, p.c1), Counter(bf, p.c2), Insert2(bf, p);
            var n := NextValue(Min(v, w));
            && Counter(r, p.c1) == Max(v, n) && Counter(r, p.c2) == w | Max(w, n)
            && forall d: nat :: d < 4 * |bf| && d != p.c1 && d != p.c2 ==> Counter(r, d) == Counter(bf, d)
  {
    hide Counter, Insert2, NextValue;
    forall d: nat | d < 4 * |bf| ensures d != p.c1 && d != p.c2 ==> Counter(Insert2(bf, p), d) == Counter(bf, d) {
      InsertExact(bf, p, d);
    }
    InsertExact(bf, p, p.c1);
    InsertExact(bf, p, p.c2);
  }

  ghost predicate Probed(bflog: nat, hs: seq<u64>)
    requires 6 <= bflog
  {
    |hs| == 7 && forall i :: 0 <= i < 7 ==> ProbesOf(hs[i], bflog) == PROBES[i]
  }

  lemma {:induction false} RowReached(bflog: nat, hs: seq<u64>, k: nat)
    requires 6 <= bflog && Probed(bflog, hs) && k <= 7
    ensures At(Filled(bflog, hs[..k]), COUNTERS[k])
    ensures Presents(bflog, hs[..k]) == if k < 4 then 0 else 2 * (k - 4)
    decreases k
  {
    hide ProbesOf, Counter, Insert2, AddCandidates, Existing;
    if k == 0 {
      EmptyRow(bflog);
    } else {
      RowReached(bflog, hs, k - 1);
      assert hs[..k][..k - 1] == hs[..k - 1];
      NextRow(Filled(bflog, hs[..k - 1]), k - 1);
    }
  }

  lemma EmptyRow(bflog: nat)
    requires 6 <= bflog
    ensures At(Empty(bflog), COUNTERS[0])
  {
    LineInside(0, bflog);
    MaskIsMod(bflog - 6, 0);
  }

  lemma {:induction false} AllPass(bflog: nat, hs: seq<u64>, k: nat)
    requires 6 <= bflog && Probed(bflog, hs) && k <= 7
    ensures PassingBy(TwoProbes, bflog, hs[..k], hs) == k
    decreases k
  {
    hide ProbesOf, Counter, Filled;
    if k > 0 {
      AllPass(bflog, hs, k - 1);
      assert hs[..k][..k - 1] == hs[..k - 1] && hs[..7] == hs;
      RowReached(bflog, hs, 7);
      assert PassesBy(TwoProbes, bflog, hs, hs[k - 1]);
    }
  }

  /** Hashes whose insertion announces six candidates, and which then all seven pass. */
  lemma MorePassThanAnnounced(bflog: nat) returns (hs: seq<u64>)
    requires 6 <= bflog
    ensures Probed(bflog, hs) && Presents(bflog, hs) == 6 && PassingBy(TwoProbes, bflog, hs, hs) == 7
  {
    hs := [];
    while |hs| < 7
      invariant |hs| <= 7 && forall i :: 0 <= i < |hs| ==> ProbesOf(hs[i], bflog) == PROBES[i]
    {
      var p := PROBES[|hs|];
      var h := ProbesPreimage(p.c1, p.c2, bflog);
      hs := hs + [h];
    }
    assert hs[..7] == hs;
    RowReached(bflog, hs, 7);
    AllPass(bflog, hs, 7);
  }

  function Lookup(samples: seq<seq<byte>>, hs: seq<u64>, s: seq<byte>): u64
    requires |samples| == |hs|
  {
    if samples == [] then 0 else if samples[0] == s then hs[0] else Lookup(samples[1..], hs[1..], s)
  }

  lemma {:induction false} LookupAt(samples: seq<seq<byte>>, hs: seq<u64>, i: nat)
    requires |samples| == |hs| && i < |samples| && forall j :: 0 <= j < i ==> samples[j] != samples[i]
    ensures Lookup(samples, hs, samples[i]) == hs[i]
  {
    if i > 0 {
      LookupAt(samples[1..], hs[1..], i - 1);
    }
  }

  /** A hash function that gives the samples 1, 2, ... of a run the hashes that one likes. */
  lemma ChosenHashes(base: seq<byte>, hs: seq<u64>) returns (hf: HashFunction)
    requires |hs| < Below(8 * |base|, SPARSE_LEVEL_MAX)
    ensures H64s(Hashes(hf, base, |hs|)) == hs
  {
    hide Sample, Below, Hashes;
    var samples: seq<seq<byte>> := seq(|hs|, i requires 0 <= i < |hs| => Sample(base, i + 1));
    hf := (s: seq<byte>) => Narrow(Lookup(samples, hs, s));
    forall i | 0 <= i < |hs| ensures hf(Sample(base, i + 1)).H64() == hs[i] {
      forall j | 0 <= j < i ensures samples[j] != samples[i] {
        SamplesDistinct(base, j + 1, i + 1);
      }
      LookupAt(samples, hs, i);
    }
    forall i | 0 <= i < |hs| ensures H64s(Hashes(hf, base, |hs|))[i] == hs[i] {
      HashesAt(hf, base, |hs|, i);
    }
  }

  lemma {:induction false} AllSelected(hs: seq<UniHash>)
    ensures Select(hs, 0, 0) == hs
  {
    if hs != [] {
      AllSelected(hs[..|hs| - 1]);
      AndZero(hs[|hs| - 1].H64());
    }
  }

  lemma AndZero(x: nat)
    ensures And(x, 0) == 0
  {
  }

  lemma {:induction false} ChooseOne(n: nat)
    ensures Choose(n, 1) == n
  {
    if n > 0 {
      ChooseOne(n - 1);
    }
  }

  lemma BelowTwo(n: nat)
    ensures Below(n, 2) == n + 1
  {
    ChooseOne(n);
    assert Below(n, 1) == Choose(n, 0) == 1;
  }

  lemma SixteenBits()
    ensures 7 < Below(16, SPARSE_LEVEL_MAX)
  {
    hide Below;
    BelowTwo(16);
    BelowMonotone(16, 2, SPARSE_LEVEL_MAX);
  }

  /** For every filter size there is a hash function with which a two-probe search over seven samples
      of two bytes stops at its check, the table staying in place or not. */
  lemma AbortingRun(bflog: nat) returns (p: Parameters, hf: HashFunction)
    requires 6 <= bflog < 64
    ensures p.nbH == 7 && p.build == TwoProbes && FilterLog(p) == Some(bflog)
    ensures EnoughSamples(p) && SizeDefined(p) && SizeAsserted(p)
    ensures AnnouncedCount(p, hf) == 6 && StoredCount(p, hf) == 7
    ensures forall shrinksInPlace :: RunAborts(p, hf, shrinksInPlace)
  {
    hide Below, PassingBy, Presents, Select, Hashes, ProbesOf;
    SixteenBits();
    p := Parameters(7, 0, 0, 2, 0, TwoProbes, Some(bflog));
    var hs := MorePassThanAnnounced(bflog);
    var base := BaseBuffer(2, 0);
    hf := ChosenHashes(base, hs);
    AllSelected(Hashes(hf, base, 7));
    assert H64s(RunHashes(p, hf)) == hs;
    StoredIsPassing(p, hf);
  }
}
