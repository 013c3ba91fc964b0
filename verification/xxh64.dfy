/** XXH64: one-shot, streaming, and the two forms of its finalisation. */
module Xxh64 {
  import opened Wrappers
  import opened Words

  const STRIPE := 32
  const PRIME1 := 0x9E3779B185EBCA87
  const PRIME2 := 0xC2B2AE3D27D4EB4F
  const PRIME3 := 0x165667B19E3779F9
  const PRIME4 := 0x85EBCA77C2B2AE63
  const PRIME5 := 0x27D4EB2F165667C5

  datatype Lanes = Lanes(v1: u64, v2: u64, v3: u64, v4: u64)

  function Round(acc: u64, input: u64): u64
  {
    Mul64(Rotl64(Add64(acc, Mul64(input, PRIME2)), 31), PRIME1)
  }

  function MergeRound(acc: u64, val: u64): u64
  {
    Add64(Mul64(Xor64(acc, Round(0, val)), PRIME1), PRIME4)
  }

  function Avalanche(h: u64): u64
  {
    var h1 := Mul64(Xor64(h, Shr64(h, 33)), PRIME2);
    var h2 := Mul64(Xor64(h1, Shr64(h1, 29)), PRIME3);
    Xor64(h2, Shr64(h2, 32))
  }

  function InitLanes(seed: u64): Lanes
  {
    Lanes(Add64(seed + PRIME1, PRIME2), Add64(seed, PRIME2), seed, Sub64(seed, PRIME1))
  }

  /** One 32-byte stripe. */
  function Absorb(l: Lanes, data: seq<byte>, pos: nat): Lanes
    requires pos + STRIPE <= |data|
  {
    Lanes(Round(l.v1, ReadLE64(data, pos)), Round(l.v2, ReadLE64(data, pos + 8)),
          Round(l.v3, ReadLE64(data, pos + 16)), Round(l.v4, ReadLE64(data, pos + 24)))
  }

  function Converge(l: Lanes): u64
  {
    hide Rotl64, MergeRound;
    var h := Add64(Add64(Rotl64(l.v1, 1), Rotl64(l.v2, 7)), Add64(Rotl64(l.v3, 12), Rotl64(l.v4, 18)));
    MergeRound(MergeRound(MergeRound(MergeRound(h, l.v1), l.v2), l.v3), l.v4)
  }

  function Process1(h: u64, b: byte): u64
  {
    Mul64(Rotl64(Xor64(h, Mul64(b, PRIME5)), 11), PRIME1)
  }

  function Process4(h: u64, p: seq<byte>): u64
    requires |p| >= 4
  {
    Add64(Mul64(Rotl64(Xor64(h, Mul64(ReadLE32(p, 0), PRIME1)), 23), PRIME2), PRIME3)
  }

  function Process8(h: u64, p: seq<byte>): u64
    requires |p| >= 8
  {
    Add64(Mul64(Rotl64(Xor64(h, Round(0, ReadLE64(p, 0))), 27), PRIME1), PRIME4)
  }

  // ----- what the hash is -----

  /** The lanes after the first `n` stripes. */
  ghost function AfterStripes(seed: u64, data: seq<byte>, n: nat): Lanes
    requires STRIPE * n <= |data|
  {
    if n == 0 then InitLanes(seed) else Absorb(AfterStripes(seed, data, n - 1), data, STRIPE * (n - 1))
  }

  /** The tail: words of eight bytes, one of four, then single bytes. */
  ghost function Tail(h: u64, p: seq<byte>): u64
    decreases |p|
  {
    hide Process1, Process4, Process8;
    if |p| >= 8 then Tail(Process8(h, p), p[8..])
    else if |p| >= 4 then Tail(Process4(h, p), p[4..])
    else if |p| > 0 then Tail(Process1(h, p[0]), p[1..])
    else h
  }

  ghost function Hash(seed: u64, data: seq<byte>): u64
  {
    var n := |data| / STRIPE;
    var h := if |data| >= STRIPE then Converge(AfterStripes(seed, data, n)) else Add64(seed, PRIME5);
    Avalanche(Tail(Add64(h, |data|), data[STRIPE * n..]))
  }

  // ----- finalisation -----

  /** The unrolled switch, one arm per group of case labels; an arm that ends in a call falls through. */
  function Switch(h: u64, p: seq<byte>): u64
    requires |p| < STRIPE
    decreases |p|
  {
    hide Process1, Process4, Process8;
    match |p|
    case 0 => h
    case 1 => Switch(Process1(h, p[0]), p[1..])
    case 2 => Switch(Process1(h, p[0]), p[1..])
    case 3 => Switch(Process1(h, p[0]), p[1..])
    case 4 => Process4(h, p)
    case 5 => Process1(Process4(h, p), p[4])
    case 6 => Process1(Process1(Process4(h, p), p[4]), p[5])
    case 7 => Switch(Process4(h, p), p[4..])
    case 8 => Process8(h, p)
    case 9 => Process1(Process8(h, p), p[8])
    case 10 => Process1(Process1(Process8(h, p), p[8]), p[9])
    case 11 => Process1(Process1(Process1(Process8(h, p), p[8]), p[9]), p[10])
    case _ => Switch(Process8(h, p), p[8..])
  }

  /** Up to three single bytes after `p[..n]`, as the switch arms write them out. */
  lemma FewBytes(h: u64, p: seq<byte>, n: nat)
    requires n <= |p| <= n + 3
    ensures Tail(h, p[n..]) ==
            if |p| == n then h
            else if |p| == n + 1 then Process1(h, p[n])
            else if |p| == n + 2 then Process1(Process1(h, p[n]), p[n + 1])
            else Process1(Process1(Process1(h, p[n]), p[n + 1]), p[n + 2])
  {
    hide Process1, Process4, Process8;
    var q := p[n..];
    if |q| >= 1 {
      assert Tail(h, q) == Tail(Process1(h, p[n]), q[1..]);
      if |q| >= 2 {
        assert Tail(Process1(h, p[n]), q[1..]) == Tail(Process1(Process1(h, p[n]), p[n + 1]), q[1..][1..]);
        if |q| == 3 {
          var h2 := Process1(Process1(h, p[n]), p[n + 1]);
          assert Tail(h2, q[1..][1..]) == Tail(Process1(h2, p[n + 2]), q[1..][1..][1..]);
        }
      }
    }
  }

  /** For every tail the switch computes what the loops do. */
  lemma {:induction false} SwitchIsTail(h: u64, p: seq<byte>)
    requires |p| < STRIPE
    ensures Switch(h, p) == Tail(h, p)
    decreases |p|
  {
    hide Process1, Process4, Process8;
    if |p| >= 12 {
      SwitchIsTail(Process8(h, p), p[8..]);
    } else if |p| >= 8 {
      FewBytes(Process8(h, p), p, 8);
    } else if |p| == 7 {
      SwitchIsTail(Process4(h, p), p[4..]);
    } else if |p| >= 4 {
      FewBytes(Process4(h, p), p, 4);
    } else if |p| > 0 {
      SwitchIsTail(Process1(h, p[0]), p[1..]);
    }
  }

  /** `XXH64_finalize`, rerolled or unrolled as configured. */
  method Finalize(h64: u64, p: seq<byte>, reroll: bool) returns (h: u64)
    requires |p| < STRIPE
    ensures h == Avalanche(Tail(h64, p))
  {
    hide Process1, Process4, Process8, Avalanche;
    if reroll {
      h := h64;
      var pos := 0;
      while |p| - pos >= 8
        invariant pos <= |p| && Tail(h, p[pos..]) == Tail(h64, p)
      {
        assert p[pos..][8..] == p[pos + 8..];
        h := Process8(h, p[pos..]);
        pos := pos + 8;
      }
      if |p| - pos >= 4 {
        assert p[pos..][4..] == p[pos + 4..];
        h := Process4(h, p[pos..]);
        pos := pos + 4;
      }
      while pos < |p|
        invariant pos <= |p| < pos + 4 && Tail(h, p[pos..]) == Tail(h64, p)
      {
        assert p[pos..][1..] == p[pos + 1..];
        h := Process1(h, p[pos]);
        pos := pos + 1;
      }
      h := Avalanche(h);
    } else {
      SwitchIsTail(h64, p);
      h := Avalanche(Switch(h64, p));
    }
  }

  // ----- one-shot -----

  /** `XXH64_endian_align`. */
  method ComputeHash(input: seq<byte>, seed: u64, reroll: bool) returns (h: u64)
    ensures h == Hash(seed, input)
  {
    hide Absorb, Converge, Avalanche, InitLanes, Tail;
    var h64, pos := 0, 0;
    if |input| >= STRIPE {
      var limit := |input| - STRIPE;
      var l := InitLanes(seed);
      while pos <= limit
        invariant pos % STRIPE == 0 && pos <= |input| && l == AfterStripes(seed, input, pos / STRIPE)
      {
        l := Absorb(l, input, pos);
        pos := pos + STRIPE;
      }
      h64 := Converge(l);
    } else {
      h64 := Add64(seed, PRIME5);
    }
    h := Finalize(Add64(h64, |input|), input[pos..], reroll);
  }

  // ----- streaming -----

  lemma {:induction false} AfterStripesPrefix(seed: u64, data: seq<byte>, more: seq<byte>, n: nat)
    requires STRIPE * n <= |data|
    ensures AfterStripes(seed, data + more, n) == AfterStripes(seed, data, n)
  {
    hide Absorb;
    if n > 0 {
      AfterStripesPrefix(seed, data, more, n - 1);
      SameStripe(AfterStripes(seed, data, n - 1), data + more, data, STRIPE * (n - 1), STRIPE * (n - 1));
    }
  }

  lemma SameStripe(l: Lanes, a: seq<byte>, b: seq<byte>, i: nat, j: nat)
    requires i + STRIPE <= |a| && j + STRIPE <= |b| && a[i..i + STRIPE] == b[j..j + STRIPE]
    ensures Absorb(l, a, i) == Absorb(l, b, j)
  {
    hide Round;
    var w := a[i..i + STRIPE];
    assert a[i..i + 8] == w[..8] == b[j..j + 8];
    assert a[i + 8..i + 16] == w[8..16] == b[j + 8..j + 16];
    assert a[i + 16..i + 24] == w[16..24] == b[j + 16..j + 24];
    assert a[i + 24..i + 32] == w[24..32] == b[j + 24..j + 32];
  }

  /** The lanes hold the whole stripes of the first `n` bytes. */
  ghost predicate Absorbed(seed: u64, data: seq<byte>, l: Lanes, n: nat)
  {
    n <= |data| && l == AfterStripes(seed, data, n / STRIPE)
  }

  lemma AbsorbedMore(seed: u64, data: seq<byte>, l: Lanes, bytes: seq<byte>)
    requires Absorbed(seed, data, l, |data|)
    ensures Absorbed(seed, data + bytes, l, |data|)
  {
    hide Absorb, InitLanes;
    AfterStripesPrefix(seed, data, bytes, |data| / STRIPE);
  }

  /** The bytes after the last whole stripe are in the buffer. */
  ghost predicate Buffered(data: seq<byte>, mem: seq<byte>, size: nat)
  {
    |mem| == STRIPE && size == |data| % STRIPE && mem[..size] == data[|data| - size..]
  }

  lemma BufferSize(data: seq<byte>, mem: seq<byte>, size: nat)
    requires Buffered(data, mem, size)
    ensures |mem| == STRIPE && size == |data| % STRIPE < STRIPE
  {
  }

  /** The stripe completed from the buffer and the input is one of the whole text. */
  lemma StripeAcross(before: seq<byte>, bytes: seq<byte>, start: nat, fill: nat)
    requires start <= |before| && fill <= |bytes| && |before| - start + fill == STRIPE
    ensures before[start..] + bytes[..fill] == (before + bytes)[start..start + STRIPE]
  {
  }

  lemma BufferAppend(seed: u64, data: seq<byte>, l: Lanes, mem: seq<byte>, size: nat, bytes: seq<byte>)
    requires Buffered(data, mem, size) && size + |bytes| < STRIPE && Absorbed(seed, data + bytes, l, |data|)
    ensures |mem| == STRIPE
    ensures Buffered(data + bytes, mem[..size] + bytes + mem[size + |bytes|..], size + |bytes|)
    ensures Absorbed(seed, data + bytes, l, |data + bytes|)
  {
    hide AfterStripes;
    var mem' := mem[..size] + bytes + mem[size + |bytes|..];
    assert mem'[..size + |bytes|] == (data + bytes)[|data| - size..];
  }

  lemma BufferRestart(data: seq<byte>, bytes: seq<byte>, pos: nat, mem: seq<byte>)
    requires pos <= |bytes| < pos + STRIPE && (|data| + pos) % STRIPE == 0 && |mem| == STRIPE
    ensures Buffered(data + bytes, bytes[pos..] + mem[|bytes| - pos..], |bytes| - pos)
  {
    var mem' := bytes[pos..] + mem[|bytes| - pos..];
    assert mem'[..|bytes| - pos] == (data + bytes)[|data| + pos..];
  }

  /** `XXH64_state_t`; `data` is everything fed in since the reset. */
  class State {
    var totalLen: u64
    var v1: u64
    var v2: u64
    var v3: u64
    var v4: u64
    const mem64: array<byte>
    var memsize: nat
    ghost var seed: u64
    ghost var data: seq<byte>

    ghost predicate Valid()
      reads this, mem64
    {
      && mem64.Length == STRIPE
      && totalLen == |data| % W64
      && Buffered(data, mem64[..], memsize)
      && Absorbed(seed, data, Lanes(v1, v2, v3, v4), |data|)
    }

    constructor (seed: u64)
      ensures Valid() && this.seed == seed && data == [] && fresh(mem64)
    {
      mem64 := new byte[STRIPE](_ => 0);
      totalLen, memsize := 0, 0;
      var l := InitLanes(seed);
      v1, v2, v3, v4 := l.v1, l.v2, l.v3, l.v4;
      this.seed, data := seed, [];
    }

    /** `XXH64_update`. */
    method Update(input: Option<seq<byte>>) returns (ok: bool)
      requires Valid()
      modifies this, mem64
      ensures Valid() && seed == old(seed)
      ensures ok <==> input.Some?
      ensures data == if ok then old(data) + input.value else old(data)
    {
      hide Absorb, AfterStripes, Absorbed, Add64, InitLanes, Buffered;
      if input.None? {
        return false;
      }
      ok := true;
      var bytes, len := input.value, |input.value|;
      ghost var before := data;
      TotalWraps(|before|, len);
      AbsorbedMore(seed, before, Lanes(v1, v2, v3, v4), bytes);
      totalLen := Add64(totalLen, len);
      data := data + bytes;

      if memsize + len < STRIPE {
        BufferAppend(seed, before, Lanes(v1, v2, v3, v4), mem64[..], memsize, bytes);
        Store(mem64, memsize, bytes);
        memsize := memsize + len;
        return;
      }
      UpdateLong(bytes, before);
    }

    /** The path taken when the input completes a stripe. */
    method UpdateLong(bytes: seq<byte>, ghost before: seq<byte>)
      requires Buffered(before, mem64[..], memsize) && memsize + |bytes| >= STRIPE
      requires Absorbed(seed, before + bytes, Lanes(v1, v2, v3, v4), |before|)
      modifies this`v1, this`v2, this`v3, this`v4, this`memsize, mem64
      ensures Buffered(before + bytes, mem64[..], memsize)
      ensures Absorbed(seed, before + bytes, Lanes(v1, v2, v3, v4), |before + bytes|)
    {
      hide Absorb, AfterStripes, Absorbed, InitLanes, Buffered;
      BufferSize(before, mem64[..], memsize);
      var pos := Drain(bytes, before);
      ghost var mem := mem64[..];
      BufferRestart(before, bytes, pos, mem);
      if pos < |bytes| {
        Store(mem64, 0, bytes[pos..]);
        memsize := |bytes| - pos;
      }
      assert mem64[..] == bytes[pos..] + mem[|bytes| - pos..];
    }

    /** The buffered stripe, if any, and then every whole stripe of the input. */
    method Drain(bytes: seq<byte>, ghost before: seq<byte>) returns (pos: nat)
      requires Buffered(before, mem64[..], memsize) && memsize + |bytes| >= STRIPE
      requires Absorbed(seed, before + bytes, Lanes(v1, v2, v3, v4), |before|)
      modifies this`v1, this`v2, this`v3, this`v4, this`memsize, mem64
      ensures memsize == 0 && pos <= |bytes| < pos + STRIPE && (|before| + pos) % STRIPE == 0
      ensures Absorbed(seed, before + bytes, Lanes(v1, v2, v3, v4), |before + bytes|)
    {
      hide Absorb, InitLanes;
      ghost var all, n := before + bytes, |before| / STRIPE;
      var len := |bytes|;
      pos := 0;
      if memsize > 0 {
        var fill := STRIPE - memsize;
        Store(mem64, memsize, bytes[..fill]);
        StripeAcross(before, bytes, STRIPE * n, fill);
        assert mem64[..] == before[STRIPE * n..] + bytes[..fill];
        assert mem64[0..0 + STRIPE] == mem64[..];
        SameStripe(Lanes(v1, v2, v3, v4), mem64[..], all, 0, STRIPE * n);
        var l := Absorb(Lanes(v1, v2, v3, v4), mem64[..], 0);
        v1, v2, v3, v4 := l.v1, l.v2, l.v3, l.v4;
        pos, n := fill, n + 1;
        memsize := 0;
      }
      if pos + STRIPE <= len {
        var limit := len - STRIPE;
        var l := Lanes(v1, v2, v3, v4);
        l, pos, n := AbsorbInput(l, bytes, pos, limit, all, |before|, n);
        v1, v2, v3, v4 := l.v1, l.v2, l.v3, l.v4;
      }
      assert |all| / STRIPE == n;
    }

    method AbsorbInput(l0: Lanes, bytes: seq<byte>, start: nat, limit: nat, ghost all: seq<byte>, ghost offset: nat, ghost n0: nat)
      returns (l: Lanes, pos: nat, ghost n: nat)
      requires limit == |bytes| - STRIPE && start <= |bytes|
      requires offset + |bytes| == |all| && bytes == all[offset..]
      requires offset + start == STRIPE * n0 && l0 == AfterStripes(seed, all, n0)
      ensures start <= pos <= |bytes| && limit < pos
      ensures offset + pos == STRIPE * n && l == AfterStripes(seed, all, n)
    {
      hide Absorb, InitLanes;
      l, pos, n := l0, start, n0;
      while pos <= limit
        invariant start <= pos <= |bytes|
        invariant offset + pos == STRIPE * n && l == AfterStripes(seed, all, n)
      {
        assert bytes[pos..pos + STRIPE] == all[offset + pos..offset + pos + STRIPE];
        SameStripe(l, bytes, all, pos, offset + pos);
        l := Absorb(l, bytes, pos);
        pos, n := pos + STRIPE, n + 1;
      }
    }

    /** `XXH64_digest`: the one-shot hash of everything since the reset. */
    method Digest(reroll: bool) returns (h: u64)
      requires Valid()
      ensures |data| < W64 ==> h == Hash(seed, data)
    {
      hide Absorb, Converge, Avalanche, Tail;
      var h64 := if totalLen >= STRIPE then Converge(Lanes(v1, v2, v3, v4)) else Add64(v3, PRIME5);
      h := Finalize(Add64(h64, totalLen), mem64[..totalLen % STRIPE], reroll);
    }
  }

  /** Hashing a text in pieces, however it is cut, hashes the text: the XXH64 path of `XSUM_hashStream`. */
  method HashStream(blocks: seq<seq<byte>>, seed: u64, reroll: bool) returns (h: u64)
    requires |Flatten(blocks)| < W64
    ensures h == Hash(seed, Flatten(blocks))
  {
    hide Hash;
    var state := new State(seed);
    for i := 0 to |blocks|
      invariant state.Valid() && fresh(state) && fresh(state.mem64) && state.seed == seed
      invariant state.data == Flatten(blocks[..i])
    {
      assert blocks[..i + 1][..i] == blocks[..i];
      var _ := state.Update(Some(blocks[i]));
    }
    assert blocks[..|blocks|] == blocks;
    h := state.Digest(reroll);
  }
}
