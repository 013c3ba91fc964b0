/** The collision search: generate, filter, store, sort, count. Neither the filter nor the split over
    threads changes the number of collisions reported. */
module CollisionSearch {
  import opened Wrappers
  import opened Words
  import opened Combinations
  import opened Sampler
  import opened CandidateFilter

  /** A hash of the table: 64 bits (or 32, widened), or 128 bits, whose `h64` view is the low word. */
  datatype UniHash = Narrow(value: u64) | Wide(low64: u64, high64: u64) {
    function H64(): u64
    {
      if Narrow? then value else low64
    }
  }

  type HashFunction = seq<byte> -> UniHash

  datatype Parameters = Parameters(nbH: nat, mask: u64, maskSelector: u64, sampleSize: nat, prngSeed: u64,
                                   build: Build, filterLog: Option<nat>)

  /** The program exits when there are not enough samples, and aborts when an assertion fails. */
  datatype Outcome = Exit | Abort | Collisions(count: nat)

  // ----- duplicates -----

  /** How many hashes repeat an earlier one. */
  ghost function Duplicates(hs: seq<UniHash>): nat
  {
    if hs == [] then 0
    else Duplicates(hs[..|hs| - 1]) + if hs[|hs| - 1] in hs[..|hs| - 1] then 1 else 0
  }

  ghost function Elements(hs: seq<UniHash>): set<UniHash>
  {
    set h | h in hs
  }

  /** Equivalently: how many hashes there are beyond the distinct ones. */
  lemma {:induction false} DuplicatesAreSurplus(hs: seq<UniHash>)
    ensures Duplicates(hs) == |hs| - |Elements(hs)|
    decreases |hs|
  {
    if hs != [] {
      var init, last := hs[..|hs| - 1], hs[|hs| - 1];
      DuplicatesAreSurplus(init);
      assert hs == init + [last];
      assert last in Elements(init) <==> last in init;
      assert Elements(hs) == Elements(init) + {last};
      if last in init {
        assert Elements(hs) == Elements(init);
      }
    } else {
      assert Elements(hs) == {};
    }
  }

  /** The count does not depend on the order. */
  lemma DuplicatesPermute(a: seq<UniHash>, b: seq<UniHash>)
    requires multiset(a) == multiset(b)
    ensures Duplicates(a) == Duplicates(b)
  {
    DuplicatesAreSurplus(a);
    DuplicatesAreSurplus(b);
    assert |a| == |multiset(a)| == |multiset(b)| == |b|;
    assert Elements(a) == Elements(b) by {
      forall h ensures h in Elements(a) <==> h in Elements(b) {
        assert h in a <==> h in multiset(a);
        assert h in b <==> h in multiset(b);
      }
    }
  }

  /** The hashes that satisfy `keep`, in order. */
  ghost function Keep(hs: seq<UniHash>, keep: UniHash -> bool): seq<UniHash>
  {
    if hs == [] then []
    else Keep(hs[..|hs| - 1], keep) + if keep(hs[|hs| - 1]) then [hs[|hs| - 1]] else []
  }

  lemma {:induction false} KeepMembers(hs: seq<UniHash>, keep: UniHash -> bool, h: UniHash)
    ensures h in Keep(hs, keep) <==> h in hs && keep(h)
    decreases |hs|
  {
    if hs != [] {
      KeepMembers(hs[..|hs| - 1], keep, h);
      assert hs == hs[..|hs| - 1] + [hs[|hs| - 1]];
    }
  }

  lemma {:induction false} KeepLength(hs: seq<UniHash>, keep: UniHash -> bool)
    ensures |Keep(hs, keep)| <= |hs|
    decreases |hs|
  {
    if hs != [] {
      KeepLength(hs[..|hs| - 1], keep);
    }
  }

  /** Dropping hashes that occur once changes no count. */
  lemma {:induction false} KeepDuplicates(hs: seq<UniHash>, keep: UniHash -> bool)
    requires forall i, j :: 0 <= i < j < |hs| && hs[i] == hs[j] ==> keep(hs[i])
    ensures Duplicates(Keep(hs, keep)) == Duplicates(hs)
    decreases |hs|
  {
    if hs != [] {
      var init, last := hs[..|hs| - 1], hs[|hs| - 1];
      KeepDuplicates(init, keep);
      KeepMembers(init, keep, last);
      if keep(last) {
        assert Keep(hs, keep)[..|Keep(init, keep)|] == Keep(init, keep);
      } else {
        assert Keep(hs, keep) == Keep(init, keep);
      }
    }
  }

  // ----- partition by selector -----

  ghost predicate Selected(h: UniHash, mask: u64, selector: u64)
  {
    And(h.H64(), mask) == selector
  }

  ghost function Select(hs: seq<UniHash>, mask: u64, selector: u64): seq<UniHash>
  {
    Keep(hs, h => Selected(h, mask, selector))
  }

  ghost function SumOverSelectors(hs: seq<UniHash>, mask: u64, n: nat): nat
    requires n <= W64
  {
    if n == 0 then 0 else SumOverSelectors(hs, mask, n - 1) + Duplicates(Select(hs, mask, n - 1))
  }

  lemma {:induction false} SumGrows(hs: seq<UniHash>, mask: u64, n: nat)
    requires hs != [] && n <= W64
    ensures var init, last := hs[..|hs| - 1], hs[|hs| - 1];
            SumOverSelectors(hs, mask, n)
            == SumOverSelectors(init, mask, n) + if And(last.H64(), mask) < n && last in init then 1 else 0
    decreases n
  {
    if n > 0 {
      hide Duplicates, Select;
      SumGrows(hs, mask, n - 1);
      OneSelector(hs, mask, n - 1);
    }
  }

  lemma OneSelector(hs: seq<UniHash>, mask: u64, selector: u64)
    requires hs != []
    ensures var init, last := hs[..|hs| - 1], hs[|hs| - 1];
            Duplicates(Select(hs, mask, selector))
            == Duplicates(Select(init, mask, selector)) + if Selected(last, mask, selector) && last in init then 1 else 0
  {
    var init, last := hs[..|hs| - 1], hs[|hs| - 1];
    var before, after := Select(init, mask, selector), Select(hs, mask, selector);
    KeepMembers(init, h => Selected(h, mask, selector), last);
    if Selected(last, mask, selector) {
      assert after == before + [last] && after[..|before|] == before;
    } else {
      assert after == before;
    }
  }

  /** With a mask of 2^t - 1, the counts of all 2^t selectors add up to the unpartitioned count. */
  lemma {:induction false} PartitionExact(hs: seq<UniHash>, t: nat)
    requires t <= 64
    ensures Pow2(t) <= W64 && SumOverSelectors(hs, Pow2(t) - 1, Pow2(t)) == Duplicates(hs)
    decreases |hs|
  {
    Pow2Fits(t);
    if hs == [] {
      SumEmpty(Pow2(t) - 1, Pow2(t));
    } else {
      PartitionExact(hs[..|hs| - 1], t);
      SumGrows(hs, Pow2(t) - 1, Pow2(t));
      MaskIsMod(t, hs[|hs| - 1].H64());
    }
  }

  lemma {:induction false} SumEmpty(mask: u64, n: nat)
    requires n <= W64
    ensures SumOverSelectors([], mask, n) == 0
    decreases n
  {
    if n > 0 {
      SumEmpty(mask, n - 1);
    }
  }

  lemma Pow2Fits(t: nat)
    requires t <= 64
    ensures Pow2(t) <= W64
    decreases 64 - t
  {
    Pow2Values();
    if t < 64 {
      Pow2Fits(t + 1);
    }
  }

  // ----- the table -----

  /** `XXH128_cmp`, and the order of 64-bit keys; tables never mix the two. */
  predicate LessEq(a: UniHash, b: UniHash)
  {
    match (a, b)
    case (Narrow(x), Narrow(y)) => x <= y
    case (Wide(la, ha), Wide(lb, hb)) => ha < hb || (ha == hb && la <= lb)
    case (Narrow(_), Wide(_, _)) => true
    case (Wide(_, _), Narrow(_)) => false
  }

  ghost predicate Sorted(s: seq<UniHash>)
  {
    forall i, j :: 0 <= i < j < |s| ==> LessEq(s[i], s[j])
  }

  /** In a sorted table a hash repeats an earlier one exactly when it equals its predecessor. */
  lemma SortedNeighbours(s: seq<UniHash>, n: nat)
    requires Sorted(s) && 0 < n < |s|
    ensures s[n] in s[..n] <==> s[n] == s[n - 1]
  {
    if s[n] in s[..n] {
      var i :| 0 <= i < n && s[..n][i] == s[n];
      assert LessEq(s[i], s[n - 1]) || i == n - 1;
      assert LessEq(s[n - 1], s[n]);
    } else {
      assert s[..n][n - 1] == s[n - 1];
    }
  }

  function InsertSorted(s: seq<UniHash>, h: UniHash): (r: seq<UniHash>)
    requires Sorted(s)
    ensures Sorted(r) && multiset(r) == multiset(s) + multiset{h}
  {
    if s == [] || LessEq(s[|s| - 1], h) then s + [h]
    else
      assert s == s[..|s| - 1] + [s[|s| - 1]];
      var r := InsertSorted(s[..|s| - 1], h);
      forall i | 0 <= i < |r| ensures LessEq(r[i], s[|s| - 1]) {
        assert r[i] in multiset(r);
        assert r[i] == h || r[i] in multiset(s[..|s| - 1]);
      }
      r + [s[|s| - 1]]
  }

  /** Stands for `std::sort` and `qsort`: the order is total, so every sort gives this table. */
  function SortTable(s: seq<UniHash>): (r: seq<UniHash>)
    ensures Sorted(r) && multiset(r) == multiset(s)
  {
    if s == [] then [] else
      assert s == s[..|s| - 1] + [s[|s| - 1]];
      InsertSorted(SortTable(s[..|s| - 1]), s[|s| - 1])
  }

  /** The scan for equal neighbours. */
  method CountDuplicates(table: array<UniHash>, nbCandidates: nat) returns (collisions: nat)
    requires nbCandidates <= table.Length && Sorted(table[..nbCandidates])
    ensures collisions == Duplicates(table[..nbCandidates])
  {
    collisions := 0;
    if nbCandidates == 0 {
      return;
    }
    ghost var s := table[..nbCandidates];
    assert s[..1][..0] == [];
    for n := 1 to nbCandidates
      invariant collisions == Duplicates(s[..n])
    {
      SortedNeighbours(s, n);
      assert s[..n + 1][..n] == s[..n];
      if table[n] == table[n - 1] {
        collisions := collisions + 1;
      }
    }
    assert s[..nbCandidates] == s;
  }

  // ----- the hashes of a run -----

  /** The hashes of samples 1 to `n`. */
  ghost function Hashes(hf: HashFunction, base: seq<byte>, n: nat): (hs: seq<UniHash>)
    requires n < Below(8 * |base|, SPARSE_LEVEL_MAX)
    ensures |hs| == n
  {
    if n == 0 then [] else Hashes(hf, base, n - 1) + [hf(Sample(base, n))]
  }

  lemma {:induction false} HashesAt(hf: HashFunction, base: seq<byte>, n: nat, i: nat)
    requires i < n < Below(8 * |base|, SPARSE_LEVEL_MAX)
    ensures Hashes(hf, base, n)[i] == hf(Sample(base, i + 1))
    decreases n
  {
    if i + 1 < n {
      HashesAt(hf, base, n - 1, i);
    }
  }

  /** Two different inputs of the run with the same hash. */
  ghost predicate Collide(hf: HashFunction, base: seq<byte>, j: nat, k: nat)
    requires k < Below(8 * |base|, SPARSE_LEVEL_MAX)
  {
    1 <= j < k && Sample(base, j) != Sample(base, k) && hf(Sample(base, j)) == hf(Sample(base, k))
  }

  /** A reported collision is a real one, and no pair of colliding inputs goes unreported. */
  lemma CollisionsAreReal(hf: HashFunction, base: seq<byte>, n: nat)
    requires n < Below(8 * |base|, SPARSE_LEVEL_MAX)
    ensures Duplicates(Hashes(hf, base, n)) > 0 <==> exists j, k :: 1 <= j < k <= n && Collide(hf, base, j, k)
  {
    hide Sample, Duplicates, Hashes, Below;
    var hs := Hashes(hf, base, n);
    if Duplicates(hs) > 0 {
      var i, j := DuplicatePair(hs);
      HashesAt(hf, base, n, i);
      HashesAt(hf, base, n, j);
      SamplesDistinct(base, i + 1, j + 1);
      assert Collide(hf, base, i + 1, j + 1);
    }
    forall j, k | 1 <= j < k <= n && Collide(hf, base, j, k) ensures Duplicates(hs) > 0 {
      HashesAt(hf, base, n, j - 1);
      HashesAt(hf, base, n, k - 1);
      PairCounts(hs, j - 1, k - 1);
    }
  }

  lemma {:induction false} DuplicatePair(hs: seq<UniHash>) returns (i: nat, j: nat)
    requires Duplicates(hs) > 0
    ensures i < j < |hs| && hs[i] == hs[j]
    decreases |hs|
  {
    var init, last := hs[..|hs| - 1], hs[|hs| - 1];
    if last in init {
      i :| i < |init| && init[i] == last;
      j := |hs| - 1;
    } else {
      i, j := DuplicatePair(init);
    }
  }

  lemma {:induction false} PairCounts(hs: seq<UniHash>, i: nat, j: nat)
    requires i < j < |hs| && hs[i] == hs[j]
    ensures Duplicates(hs) > 0
    decreases |hs|
  {
    var init := hs[..|hs| - 1];
    if j < |hs| - 1 {
      PairCounts(init, i, j);
    } else {
      assert init[i] == hs[j];
    }
  }

  // ----- one search -----

  ghost function H64s(hs: seq<UniHash>): seq<u64>
  {
    seq(|hs|, i requires 0 <= i < |hs| => hs[i].H64())
  }

  ghost predicate IsCandidate(build: Build, bflog: nat, inserted: seq<UniHash>, h: UniHash)
    requires LogOk(build, bflog)
  {
    PassesBy(build, bflog, H64s(inserted), h.H64())
  }

  /** A filter of this build and size, or none. */
  predicate FilterOk(build: Build, bflog: Option<nat>)
  {
    bflog.Some? ==> LogOk(build, bflog.value)
  }

  ghost function Candidates(build: Build, bflog: Option<nat>, hs: seq<UniHash>, inserted: seq<UniHash>): seq<UniHash>
    requires FilterOk(build, bflog)
  {
    if bflog.None? then hs else Keep(hs, h => IsCandidate(build, bflog.value, inserted, h))
  }

  /** The filter keeps the number of collisions, and announces at least one candidate if there is any. */
  lemma FilterExact(build: Build, bflog: nat, hs: seq<UniHash>)
    requires LogOk(build, bflog)
    ensures Duplicates(Candidates(build, Some(bflog), hs, hs)) == Duplicates(hs)
    ensures PresentsBy(build, bflog, H64s(hs)) == 0 ==> Duplicates(hs) == 0
  {
    hide PassesBy, PresentsBy;
    forall i, j | 0 <= i < j < |hs| && hs[i] == hs[j] ensures IsCandidate(build, bflog, hs, hs[i]) {
      RepeatedPasses(build, bflog, H64s(hs), i, j);
    }
    KeepDuplicates(hs, h => IsCandidate(build, bflog, hs, h));
    if Duplicates(hs) > 0 {
      var i, j := DuplicatePair(hs);
      RepeatedPasses(build, bflog, H64s(hs), i, j);
    }
  }

  function HighestBitSet(v: nat): nat
    requires v > 0
  {
    if v == 1 then 0 else 1 + HighestBitSet(v / 2)
  }

  /** `filterLog`, with 0 standing for auto-size. */
  function FilterLog(p: Parameters): Option<nat>
    requires p.nbH > 0
  {
    if p.filterLog == Some(0) then Some(HighestBitSet(p.nbH) + 1) else p.filterLog
  }

  ghost predicate EnoughSamples(p: Parameters)
  {
    p.sampleSize >= 2 && p.nbH < Below(8 * p.sampleSize, SPARSE_LEVEL_MAX)
  }

  /** The hashes this search is about: those of the run that match its selector. */
  ghost function RunHashes(p: Parameters, hf: HashFunction): seq<UniHash>
    requires EnoughSamples(p)
  {
    Select(Hashes(hf, BaseBuffer(p.sampleSize, p.prngSeed), p.nbH), p.mask, p.maskSelector)
  }

  /** First pass: every selected hash goes into the filter. */
  method FillFilter(sf: SampleFactory, bf: Filter, p: Parameters, hf: HashFunction) returns (nbPresents: nat)
    requires EnoughSamples(p) && sf.Valid() && sf.updates == 0
    requires sf.buffer.Length == p.sampleSize && sf.prngSeed == p.prngSeed
    requires bf.Valid() && bf.build == p.build && bf.inserted == [] && bf.bf as object != sf.buffer && bf.bf as object != sf.bitIdx
    modifies sf, sf.buffer, sf.bitIdx, bf, bf.bf
    ensures sf.maxBitIdx == 8 * sf.buffer.Length && sf.bitIdx.Length == SPARSE_LEVEL_MAX
    ensures bf.Valid() && bf.inserted == H64s(RunHashes(p, hf))
    ensures nbPresents == PresentsBy(p.build, bf.bflog, bf.inserted)
  {
    hide CandidateFilter.FilledBy, Below, BaseBuffer, Sample, PresentsBy, Select;
    nbPresents := 0;
    ghost var base, done := sf.Base(), [];
    NothingPresent(p.build, bf.bflog);
    NothingSelected(hf, base, p.mask, p.maskSelector);
    for n := 0 to p.nbH
      invariant sf.Valid() && sf.updates == n && bf.Valid()
      invariant done == Select(Hashes(hf, base, n), p.mask, p.maskSelector) && bf.inserted == H64s(done)
      invariant nbPresents == PresentsBy(p.build, bf.bflog, bf.inserted)
    {
      sf.Update();
      var h := hf(sf.buffer[..]);
      SelectNext(hf, base, n + 1, p.mask, p.maskSelector);
      if And(h.H64(), p.mask) != p.maskSelector {
        continue;
      }
      var added := bf.Insert(h.H64());
      nbPresents := nbPresents + added;
      assert H64s(done + [h]) == H64s(done) + [h.H64()];
      done := done + [h];
    }
  }

  lemma NothingPresent(build: Build, bflog: nat)
    requires LogOk(build, bflog)
    ensures PresentsBy(build, bflog, []) == 0
  {
  }

  /** One more sample: its hash joins the selection or not. */
  lemma SelectNext(hf: HashFunction, base: seq<byte>, n: nat, mask: u64, selector: u64)
    requires 0 < n < Below(8 * |base|, SPARSE_LEVEL_MAX)
    ensures var h := hf(Sample(base, n));
            Select(Hashes(hf, base, n), mask, selector)
            == Select(Hashes(hf, base, n - 1), mask, selector) + if Selected(h, mask, selector) then [h] else []
  {
    var hs := Hashes(hf, base, n);
    assert hs[..n - 1] == Hashes(hf, base, n - 1);
  }

  lemma {:induction false} SelectPrefix(hf: HashFunction, base: seq<byte>, m: nat, n: nat, mask: u64, selector: u64)
    requires m <= n < Below(8 * |base|, SPARSE_LEVEL_MAX)
    ensures Select(Hashes(hf, base, m), mask, selector) <= Select(Hashes(hf, base, n), mask, selector)
    decreases n
  {
    hide Select, Sample, Below, Hashes;
    if m < n {
      SelectPrefix(hf, base, m, n - 1, mask, selector);
      SelectNext(hf, base, n, mask, selector);
    }
  }

  lemma {:induction false} KeepPrefix(part: seq<UniHash>, whole: seq<UniHash>, keep: UniHash -> bool)
    requires part <= whole
    ensures |Keep(part, keep)| <= |Keep(whole, keep)|
    decreases |whole|
  {
    if |part| < |whole| {
      KeepPrefix(part, whole[..|whole| - 1], keep);
    } else {
      assert part == whole;
    }
  }

  lemma CandidatesPrefix(build: Build, log: Option<nat>, part: seq<UniHash>, whole: seq<UniHash>, inserted: seq<UniHash>)
    requires part <= whole && FilterOk(build, log)
    ensures |Candidates(build, log, part, inserted)| <= |Candidates(build, log, whole, inserted)|
  {
    if log.Some? {
      KeepPrefix(part, whole, h => IsCandidate(build, log.value, inserted, h));
    }
  }

  lemma CandidatesNext(build: Build, log: Option<nat>, done: seq<UniHash>, h: UniHash, inserted: seq<UniHash>)
    requires FilterOk(build, log)
    ensures Candidates(build, log, done + [h], inserted)
            == Candidates(build, log, done, inserted)
               + if log.None? || IsCandidate(build, log.value, inserted, h) then [h] else []
  {
    assert (done + [h])[..|done|] == done;
  }

  lemma NothingStored(build: Build, log: Option<nat>, inserted: seq<UniHash>)
    requires FilterOk(build, log)
    ensures Candidates(build, log, [], inserted) == []
  {
  }

  lemma NothingSelected(hf: HashFunction, base: seq<byte>, mask: u64, selector: u64)
    requires 0 < Below(8 * |base|, SPARSE_LEVEL_MAX)
    ensures Select(Hashes(hf, base, 0), mask, selector) == []
  {
  }

  /** Second pass: the hashes that pass are stored; running out of announced places is an abort. */
  method StoreCandidates(sf: SampleFactory, bf: Filter?, p: Parameters, hf: HashFunction, nbPresents: nat)
    returns (table: array<UniHash>, nbCandidates: nat, aborted: bool)
    requires EnoughSamples(p) && sf.Valid() && sf.updates == 0
    requires sf.buffer.Length == p.sampleSize && sf.prngSeed == p.prngSeed
    requires bf != null ==>
      && bf.Valid() && bf.build == p.build && bf.inserted == H64s(RunHashes(p, hf))
      && bf.bf as object != sf.buffer && bf.bf as object != sf.bitIdx
    modifies sf, sf.buffer, sf.bitIdx
    ensures var log := if bf == null then None else Some(bf.bflog);
            var candidates := Candidates(p.build, log, RunHashes(p, hf), RunHashes(p, hf));
            && aborted == (|candidates| > nbPresents)
            && (!aborted ==> nbCandidates == |candidates| <= table.Length && table[..nbCandidates] == candidates)
    ensures fresh(table)
  {
    hide CandidateFilter.FilledBy, Below, BaseBuffer, Sample, PassesBy, Candidates, Select;
    ghost var all := RunHashes(p, hf);
    ghost var log: Option<nat> := if bf == null then None else Some(bf.bflog);
    ghost var base, done := BaseBuffer(p.sampleSize, p.prngSeed), [];
    table := new UniHash[nbPresents + 1](_ => Narrow(0));
    nbCandidates, aborted := 0, false;
    NothingStored(p.build, log, all);
    NothingSelected(hf, base, p.mask, p.maskSelector);
    for n := 0 to p.nbH
      invariant sf.Valid() && sf.updates == n && fresh(table)
      invariant done == Select(Hashes(hf, base, n), p.mask, p.maskSelector)
      invariant nbCandidates <= nbPresents && table[..nbCandidates] == Candidates(p.build, log, done, all)
    {
      sf.Update();
      var h := hf(sf.buffer[..]);
      SelectNext(hf, base, n + 1, p.mask, p.maskSelector);
      if And(h.H64(), p.mask) != p.maskSelector {
        continue;
      }
      CandidatesNext(p.build, log, done, h, all);
      done := done + [h];
      var keep := true;
      if bf != null {
        keep := bf.Check(h.H64());
      }
      if keep {
        if nbCandidates >= nbPresents {
          SelectPrefix(hf, base, n + 1, p.nbH, p.mask, p.maskSelector);
          CandidatesPrefix(p.build, log, done, all, all);
          aborted := true;
          return;
        }
        table[nbCandidates] := h;
        nbCandidates := nbCandidates + 1;
      }
    }
  }

  lemma RunSelected(p: Parameters, hf: HashFunction)
    requires EnoughSamples(p)
    ensures |RunHashes(p, hf)| <= p.nbH
  {
    KeepLength(Hashes(hf, BaseBuffer(p.sampleSize, p.prngSeed), p.nbH), h => Selected(h, p.mask, p.maskSelector));
  }

  lemma NothingFiltered(build: Build, hs: seq<UniHash>)
    ensures Candidates(build, None, hs, hs) == hs
  {
  }

  /** Announced candidates include one that is stored. */
  lemma SomethingStored(build: Build, bflog: nat, hs: seq<UniHash>)
    requires LogOk(build, bflog) && PresentsBy(build, bflog, H64s(hs)) > 0
    ensures |Candidates(build, Some(bflog), hs, hs)| > 0
  {
    hide PassesBy, PresentsBy;
    AnnouncedByPasses(build, bflog, H64s(hs));
    var i :| 0 <= i < |H64s(hs)| && PassesBy(build, bflog, H64s(hs), H64s(hs)[i]);
    KeepMembers(hs, h => IsCandidate(build, bflog, hs, h), hs[i]);
  }

  /** The end of `search_collisions`: the stored candidates are sorted in place, and equal neighbours
      counted. */
  method SortAndCount(table: array<UniHash>, nbCandidates: nat) returns (count: nat)
    requires nbCandidates <= table.Length
    modifies table
    ensures count == Duplicates(old(table[..nbCandidates]))
  {
    hide Duplicates;
    var sorted := SortTable(table[..nbCandidates]);
    DuplicatesPermute(sorted, table[..nbCandidates]);
    assert |sorted| == |multiset(sorted)| == |multiset(table[..nbCandidates])| == nbCandidates;
    forall i | 0 <= i < nbCandidates {
      table[i] := sorted[i];
    }
    assert table[..nbCandidates] == sorted;
    count := CountDuplicates(table, nbCandidates);
  }

  /** The sizes that `create_Filter` accepts, but for two-probe filters below 64 bytes, for which the
      program shifts by a negative number. */
  predicate SizeDefined(p: Parameters)
    requires p.nbH > 0
  {
    FilterLog(p).Some? && p.build.TwoProbes? ==> FilterLog(p).value < 2 || 6 <= FilterLog(p).value
  }

  predicate SizeAsserted(p: Parameters)
    requires p.nbH > 0
  {
    FilterLog(p).Some? ==> 1 < FilterLog(p).value < 64
  }

  /** `search_collisions`. `shrinksInPlace` is the outcome of the `realloc` that trims the table, made
      only when fewer candidates than announced were stored. Whenever the search completes it reports
      the number of duplicates among its hashes, filter or no filter. */
  method SearchCollisions(p: Parameters, hf: HashFunction, shrinksInPlace: bool) returns (r: Outcome)
    requires p.nbH > 0 && SizeDefined(p)
    ensures r.Exit? <==> !EnoughSamples(p)
    ensures r.Collisions? ==> EnoughSamples(p) && r.count == Duplicates(RunHashes(p, hf))
    ensures r.Abort? <==> EnoughSamples(p) && RunAborts(p, hf, shrinksInPlace)
  {
    hide Select, PassesBy, Candidates, IsCandidate, Duplicates, PresentsBy, RunHashes;
    var sf := new SampleFactory(p.sampleSize, p.prngSeed);
    var ok := sf.Init(p.nbH);
    if !ok {
      return Exit;
    }
    var bflog := FilterLog(p);
    var nbPresents, bf: Filter? := p.nbH, null;
    if bflog.Some? {
      if !(1 < bflog.value < 64) {
        return Abort;
      }
      bf := new Filter(p.build, bflog.value);
      nbPresents := FillFilter(sf, bf, p, hf);
      FilterExact(p.build, bflog.value, RunHashes(p, hf));
      if nbPresents == 0 {
        return Collisions(0);
      }
      SomethingStored(p.build, bflog.value, RunHashes(p, hf));
    } else {
      RunSelected(p, hf);
      NothingFiltered(p.build, RunHashes(p, hf));
    }
    ok := sf.Init(p.nbH);
    var table, nbCandidates, aborted := StoreCandidates(sf, bf, p, hf, nbPresents);
    if aborted {
      return Abort;
    }
    if nbCandidates < nbPresents && !shrinksInPlace {
      return Abort;
    }
    var count := SortAndCount(table, nbCandidates);
    return Collisions(count);
  }

  ghost function AnnouncedCount(p: Parameters, hf: HashFunction): nat
    requires p.nbH > 0 && EnoughSamples(p) && SizeDefined(p) && SizeAsserted(p)
  {
    var log := FilterLog(p);
    if log.Some? then PresentsBy(p.build, log.value, H64s(RunHashes(p, hf))) else p.nbH
  }

  ghost function StoredCount(p: Parameters, hf: HashFunction): nat
    requires p.nbH > 0 && EnoughSamples(p) && SizeDefined(p) && SizeAsserted(p)
  {
    |Candidates(p.build, FilterLog(p), RunHashes(p, hf), RunHashes(p, hf))|
  }

  /** When a search with enough samples aborts: no such filter, more candidates than announced, or
      fewer and the table moved when it was trimmed. */
  ghost predicate RunAborts(p: Parameters, hf: HashFunction, shrinksInPlace: bool)
    requires p.nbH > 0 && EnoughSamples(p) && SizeDefined(p)
  {
    !SizeAsserted(p) ||
    (AnnouncedCount(p, hf) > 0 &&
      (StoredCount(p, hf) > AnnouncedCount(p, hf) || (StoredCount(p, hf) < AnnouncedCount(p, hf) && !shrinksInPlace)))
  }

  // ----- the split over threads -----

  /** The parameters of job `tnb` out of 2^threadlog. */
  function Job(p: Parameters, threadlog: nat, tnb: nat): Parameters
    requires threadlog < 30 && tnb < Pow2(threadlog)
    requires p.filterLog.Some? ==> threadlog + 10 <= p.filterLog.value
  {
    Pow2Fits(threadlog);
    p.(mask := Pow2(threadlog) - 1, maskSelector := tnb,
       filterLog := if p.filterLog.Some? then Some(p.filterLog.value - threadlog) else None)
  }

  /** The multi-threaded `main`: one search per selector, in whatever order the pool takes them, each
      with its own place for the result, and the sum over these places once all are done. Every job
      completes exactly when none aborts and there are enough samples; then the sum is the number of
      duplicates of the whole run. */
  method SearchInParallel(p: Parameters, hf: HashFunction, threadlog: nat, order: seq<nat>, shrinksInPlace: seq<bool>)
    returns (completed: bool, nbCollisions: nat)
    requires p.nbH > 0 && threadlog < 30 && |shrinksInPlace| == Pow2(threadlog)
    requires p.filterLog.Some? ==> threadlog + 10 <= p.filterLog.value
    requires forall k :: 0 <= k < |order| ==> order[k] < Pow2(threadlog)
    requires forall tnb :: 0 <= tnb < Pow2(threadlog) ==> tnb in order
    ensures completed <==>
              (EnoughSamples(p) &&
               forall tnb :: 0 <= tnb < Pow2(threadlog) ==> !JobAborts(p, hf, threadlog, tnb, shrinksInPlace[tnb]))
    ensures completed ==> nbCollisions == Duplicates(Hashes(hf, BaseBuffer(p.sampleSize, p.prngSeed), p.nbH))
  {
    hide Duplicates, RunAborts, BaseBuffer, RunHashes, EnoughSamples, JobAborts, JobCount, PartialSum;
    var results := new nat[Pow2(threadlog)](_ => 0);
    completed := RunJobs(p, hf, threadlog, order, shrinksInPlace, results);
    nbCollisions := 0;
    if !completed {
      return;
    }
    NoneCounted(p, hf, threadlog);
    for tnb := 0 to Pow2(threadlog)
      invariant tnb <= W64 && nbCollisions == PartialSum(p, hf, threadlog, tnb)
      invariant forall k :: 0 <= k < Pow2(threadlog) ==> results[k] == JobCount(p, hf, threadlog, k)
    {
      OneMore(p, hf, threadlog, tnb);
      nbCollisions := nbCollisions + results[tnb];
    }
    AllCounted(p, hf, threadlog);
  }

  /** The jobs, each storing its result in its own place. */
  method RunJobs(p: Parameters, hf: HashFunction, threadlog: nat, order: seq<nat>, shrinksInPlace: seq<bool>, results: array<nat>)
    returns (completed: bool)
    requires p.nbH > 0 && threadlog < 30 && |shrinksInPlace| == results.Length == Pow2(threadlog)
    requires p.filterLog.Some? ==> threadlog + 10 <= p.filterLog.value
    requires forall k :: 0 <= k < |order| ==> order[k] < Pow2(threadlog)
    requires forall tnb :: 0 <= tnb < Pow2(threadlog) ==> tnb in order
    modifies results
    ensures completed <==>
              (EnoughSamples(p) &&
               forall tnb :: 0 <= tnb < Pow2(threadlog) ==> !JobAborts(p, hf, threadlog, tnb, shrinksInPlace[tnb]))
    ensures completed ==> forall tnb :: 0 <= tnb < Pow2(threadlog) ==> results[tnb] == JobCount(p, hf, threadlog, tnb)
  {
    hide Duplicates, RunAborts, BaseBuffer, RunHashes, EnoughSamples, JobAborts, JobCount;
    var i := 0;
    while i < |order|
      invariant i <= |order| && (i > 0 ==> EnoughSamples(p))
      invariant EnoughSamples(p) ==>
        forall k :: 0 <= k < i ==>
          !JobAborts(p, hf, threadlog, order[k], shrinksInPlace[order[k]]) &&
          results[order[k]] == JobCount(p, hf, threadlog, order[k])
    {
      var tnb := order[i];
      var r := RunJob(p, hf, threadlog, tnb, shrinksInPlace[tnb]);
      if !r.Collisions? {
        return false;
      }
      results[tnb] := r.count;
      i := i + 1;
    }
    completed := true;
    assert 0 in order;
    forall tnb | 0 <= tnb < Pow2(threadlog)
      ensures !JobAborts(p, hf, threadlog, tnb, shrinksInPlace[tnb]) && results[tnb] == JobCount(p, hf, threadlog, tnb)
    {
      assert tnb in order;
    }
  }

  method RunJob(p: Parameters, hf: HashFunction, threadlog: nat, tnb: nat, shrinksInPlace: bool) returns (r: Outcome)
    requires p.nbH > 0 && threadlog < 30 && tnb < Pow2(threadlog)
    requires p.filterLog.Some? ==> threadlog + 10 <= p.filterLog.value
    ensures r.Collisions? <==> EnoughSamples(p) && !JobAborts(p, hf, threadlog, tnb, shrinksInPlace)
    ensures r.Collisions? ==> r.count == JobCount(p, hf, threadlog, tnb)
  {
    hide Duplicates, Select, BaseBuffer, RunAborts;
    if EnoughSamples(p) {
      JobHashes(p, hf, threadlog, tnb);
    }
    r := SearchCollisions(Job(p, threadlog, tnb), hf, shrinksInPlace);
  }

  lemma NoneCounted(p: Parameters, hf: HashFunction, threadlog: nat)
    requires EnoughSamples(p) && threadlog < 30
    ensures Pow2(threadlog) <= W64 && PartialSum(p, hf, threadlog, 0) == 0
  {
    Pow2Fits(threadlog);
  }

  lemma OneMore(p: Parameters, hf: HashFunction, threadlog: nat, tnb: nat)
    requires EnoughSamples(p) && threadlog < 30 && tnb < Pow2(threadlog)
    ensures tnb < W64
    ensures PartialSum(p, hf, threadlog, tnb + 1) == PartialSum(p, hf, threadlog, tnb) + JobCount(p, hf, threadlog, tnb)
  {
    Pow2Fits(threadlog);
  }

  lemma AllCounted(p: Parameters, hf: HashFunction, threadlog: nat)
    requires EnoughSamples(p) && threadlog < 30
    ensures Pow2(threadlog) <= W64
    ensures PartialSum(p, hf, threadlog, Pow2(threadlog)) ==
      Duplicates(Hashes(hf, BaseBuffer(p.sampleSize, p.prngSeed), p.nbH))
  {
    hide Duplicates, Select;
    Pow2Fits(threadlog);
    PartitionExact(Hashes(hf, BaseBuffer(p.sampleSize, p.prngSeed), p.nbH), threadlog);
  }

  /** What one job does and counts: it searches with its own selector. */
  ghost predicate JobAborts(p: Parameters, hf: HashFunction, threadlog: nat, tnb: nat, shrinksInPlace: bool)
    requires p.nbH > 0 && EnoughSamples(p) && threadlog < 30 && tnb < Pow2(threadlog)
    requires p.filterLog.Some? ==> threadlog + 10 <= p.filterLog.value
  {
    JobHashes(p, hf, threadlog, tnb);
    RunAborts(Job(p, threadlog, tnb), hf, shrinksInPlace)
  }

  ghost function JobCount(p: Parameters, hf: HashFunction, threadlog: nat, tnb: nat): nat
    requires EnoughSamples(p) && threadlog < 30 && tnb < Pow2(threadlog)
  {
    Pow2Fits(threadlog);
    Duplicates(Select(Hashes(hf, BaseBuffer(p.sampleSize, p.prngSeed), p.nbH), Pow2(threadlog) - 1, tnb))
  }

  lemma JobHashes(p: Parameters, hf: HashFunction, threadlog: nat, tnb: nat)
    requires EnoughSamples(p) && threadlog < 30 && tnb < Pow2(threadlog)
    requires p.filterLog.Some? ==> threadlog + 10 <= p.filterLog.value
    ensures EnoughSamples(Job(p, threadlog, tnb)) && tnb < W64 && Pow2(threadlog) - 1 < W64
    ensures RunHashes(Job(p, threadlog, tnb), hf) ==
      Select(Hashes(hf, BaseBuffer(p.sampleSize, p.prngSeed), p.nbH), Pow2(threadlog) - 1, tnb)
  {
    Pow2Fits(threadlog);
  }

  ghost function PartialSum(p: Parameters, hf: HashFunction, threadlog: nat, n: nat): nat
    requires EnoughSamples(p) && threadlog < 30 && n <= W64
  {
    Pow2Fits(threadlog);
    SumOverSelectors(Hashes(hf, BaseBuffer(p.sampleSize, p.prngSeed), p.nbH), Pow2(threadlog) - 1, n)
  }
}
