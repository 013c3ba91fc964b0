/** XXH32: one-shot, streaming, and the two forms of its finalisation. */
module Xxh32 {
  import opened Wrappers
  import opened Words

  const STRIPE := 16
  const PRIME1 := 0x9E3779B1
  const PRIME2 := 0x85EBCA77
  const PRIME3 := 0xC2B2AE3D
  const PRIME4 := 0x27D4EB2F
  const PRIME5 := 0x165667B1

  datatype Lanes = Lanes(v1: u32, v2: u32, v3: u32, v4: u32)

  function Round(acc: u32, input: u32): u32
  {
    Mul32(Rotl32(Add32(acc, Mul32(input, PRIME2)), 13), PRIME1)
  }

  function Avalanche(h: u32): u32
  {
    var h1 := Mul32(Xor32(h, Shr32(h, 15)), PRIME2);
    var h2 := Mul32(Xor32(h1, Shr32(h1, 13)), PRIME3);
    Xor32(h2, Shr32(h2, 16))
  }

  function InitLanes(seed: u32): Lanes
  {
    Lanes(Add32(seed + PRIME1, PRIME2), Add32(seed, PRIME2), seed, Sub32(seed, PRIME1))
  }

  /** One 16-byte stripe. */
  function Absorb(l: Lanes, data: seq<byte>, pos: nat): Lanes
    requires pos + STRIPE <= |data|
  {
    Lanes(Round(l.v1, ReadLE32(data, pos)), Round(l.v2, ReadLE32(data, pos + 4)),
          Round(l.v3, ReadLE32(data, pos + 8)), Round(l.v4, ReadLE32(data, pos + 12)))
  }

  function Converge(l: Lanes): u32
  {
    Add32(Add32(Rotl32(l.v1, 1), Rotl32(l.v2, 7)), Add32(Rotl32(l.v3, 12), Rotl32(l.v4, 18)))
  }

  function Process1(h: u32, b: byte): u32
  {
    Mul32(Rotl32(Add32(h, Mul32(b, PRIME5)), 11), PRIME1)
  }

  function Process4(h: u32, p: seq<byte>): u32
    requires |p| >= 4
  {
    Mul32(Rotl32(Add32(h, Mul32(ReadLE32(p, 0), PRIME3)), 17), PRIME4)
  }

  // ----- what the hash is -----

  /** The lanes after the first `n` stripes. */
  ghost function AfterStripes(seed: u32, data: seq<byte>, n: nat): Lanes
    requires STRIPE * n <= |data|
  {
    if n == 0 then InitLanes(seed) else Absorb(AfterStripes(seed, data, n - 1), data, STRIPE * (n - 1))
  }

  /** The tail: words of four bytes, then single bytes. */
  ghost function Tail(h: u32, p: seq<byte>): u32
    decreases |p|
  {
    hide Process1, Process4;
    if |p| >= 4 then Tail(Process4(h, p), p[4..])
    else if |p| > 0 then Tail(Process1(h, p[0]), p[1..])
    else h
  }

  ghost function Hash(seed: u32, data: seq<byte>): u32
  {
    var n := |data| / STRIPE;
    var h := if |data| >= STRIPE then Converge(AfterStripes(seed, data, n)) else Add32(seed, PRIME5);
    Avalanche(Tail(Add32(h, |data|), data[STRIPE * n..]))
  }

  // ----- finalisation -----

  /** The unrolled switch, one arm per case label; an arm that ends in a call falls through. */
  function Switch(h: u32, p: seq<byte>): u32
    requires |p| < STRIPE
    decreases |p|
  {
    match |p|
    case 0 => h
    case 1 => Switch(Process1(h, p[0]), p[1..])
    case 2 => Switch(Process1(h, p[0]), p[1..])
    case 3 => Switch(Process1(h, p[0]), p[1..])
    case 4 => Process4(h, p)
    case 5 => Process1(Process4(h, p), p[4])
    case 6 => Process1(Process1(Process4(h, p), p[4]), p[5])
    case _ => Switch(Process4(h, p), p[4..])
  }

  /** For every tail the switch computes what the loops do. */
  lemma {:induction false} SwitchIsTail(h: u32, p: seq<byte>)
    requires |p| < STRIPE
    ensures Switch(h, p) == Tail(h, p)
    decreases |p|
  {
    hide Process1, Process4;
    if |p| >= 7 {
      SwitchIsTail(Process4(h, p), p[4..]);
    } else if |p| >= 4 {
      var h4, q := Process4(h, p), p[4..];
      assert Tail(h, p) == Tail(h4, q);
      if |p| > 4 {
        assert Tail(h4, q) == Tail(Process1(h4, q[0]), q[1..]);
        if |p| > 5 {
          assert Tail(Process1(h4, q[0]), q[1..]) == Tail(Process1(Process1(h4, q[0]), q[1]), q[1..][1..]);
        }
      }
    } else if |p| > 0 {
      SwitchIsTail(Process1(h, p[0]), p[1..]);
    }
  }

  /** `XXH32_finalize`, rerolled or unrolled as configured. */
  method Finalize(h32: u32, p: seq<byte>, reroll: bool) returns (h: u32)
    requires |p| < STRIPE
    ensures h == Avalanche(Tail(h32, p))
  {
    hide Process1, Process4, Avalanche;
    if reroll {
      h := h32;
      var pos := 0;
      while |p| - pos >= 4
        invariant pos <= |p| && Tail(h, p[pos..]) == Tail(h32, p)
      {
        assert p[pos..][4..] == p[pos + 4..];
        h := Process4(h, p[pos..]);
        pos := pos + 4;
      }
      while pos < |p|
        invariant pos <= |p| < pos + 4 && Tail(h, p[pos..]) == Tail(h32, p)
      {
        assert p[pos..][1..] == p[pos + 1..];
        h := Process1(h, p[pos]);
        pos := pos + 1;
      }
      h := Avalanche(h);
    } else {
      SwitchIsTail(h32, p);
      h := Avalanche(Switch(h32, p));
    }
  }

  // ----- one-shot -----

  /** `XXH32_endian_align`. */
  method ComputeHash(input: seq<byte>, seed: u32, reroll: bool) returns (h: u32)
    ensures h == Hash(seed, input)
  {
    hide Absorb, Converge, Avalanche, InitLanes, Tail;
    var h32, pos := 0, 0;
    if |input| >= STRIPE {
      var limit := |input| - 15;
      var l := InitLanes(seed);
      while pos < limit
        invariant pos % STRIPE == 0 && pos <= |input| && l == AfterStripes(seed, input, pos / STRIPE)
      {
        l := Absorb(l, input, pos);
        pos := pos + STRIPE;
      }
      h32 := Converge(l);
    } else {
      h32 := Add32(seed, PRIME5);
    }
    h := Finalize(Add32(h32, |input|), input[pos..], reroll);
  }

  // ----- streaming -----

  lemma {:induction false} AfterStripesPrefix(seed: u32, data: seq<byte>, more: seq<byte>, n: nat)
    requires STRIPE * n <= |data|
    ensures AfterStripes(seed, data + more, n) == AfterStripes(seed, data, n)
  {
    hide Absorb;
    if n > 0 {
      AfterStripesPrefix(seed, data, more, n - 1);
      SameStripe(AfterStripes(seed, data, n - 1), data + more, data, STRIPE * (n - 1), STRIPE * (n - 1));
    }
  }

  lemma SameStripe(l: Lanes, a: seq<byte>, b: seq<byte>, i: nat, j: nat)
    requires i + STRIPE <= |a| && j + STRIPE <= |b| && a[i..i + STRIPE] == b[j..j + STRIPE]
    ensures Absorb(l, a, i) == Absorb(l, b, j)
  {
    hide Round;
    var w := a[i..i + STRIPE];
    assert a[i..i + 4] == w[..4] == b[j..j + 4];
    assert a[i + 4..i + 8] == w[4..8] == b[j + 4..j + 8];
    assert a[i + 8..i + 12] == w[8..12] == b[j + 8..j + 12];
    assert a[i + 12..i + 16] == w[12..16] == b[j + 12..j + 16];
  }

  /** The lanes hold the whole stripes of the first `n` bytes. */
  ghost predicate Absorbed(seed: u32, data: seq<byte>, l: Lanes, n: nat)
  {
    n <= |data| && l == AfterStripes(seed, data, n / STRIPE)
  }

  lemma AbsorbedMore(seed: u32, data: seq<byte>, l: Lanes, bytes: seq<byte>)
    requires Absorbed(seed, data, l, |data|)
    ensures Absorbed(seed, data + bytes, l, |data|)
  {
    hide Absorb, InitLanes;
    AfterStripesPrefix(seed, data, bytes, |data| / STRIPE);
  }

  /** The bytes after the last whole stripe are in the buffer. */
  ghost predicate Buffered(data: seq<byte>, mem: seq<byte>, size: nat)
  {
    |mem| == STRIPE && size == |data| % STRIPE && mem[..size] == data[|data| - size..]
  }

  /** The length is kept modulo 2^32, with a sticky flag for "at least one stripe". */
  ghost predicate Counted(total: u32, large: bool, length: nat)
  {
    total == length % W32 && (large <==> length >= STRIPE)
  }

  /** The wrapped length reaches 16 exactly when the real one does, or the flag is already set. */
  lemma CountMore(total: u32, large: bool, length: nat, more: nat)
    requires Counted(total, large, length)
    ensures var total' := Add32(total, more);
            Counted(total', large || more >= STRIPE || total' >= STRIPE, length + more)
  {
    AddModular32(length, more);
  }

  lemma BufferSize(data: seq<byte>, mem: seq<byte>, size: nat)
    requires Buffered(data, mem, size)
    ensures |mem| == STRIPE && size == |data| % STRIPE < STRIPE
  {
  }

  /** The stripe completed from the buffer and the input is one of the whole text. */
  lemma StripeAcross(before: seq<byte>, bytes: seq<byte>, start: nat, fill: nat)
    requires start <= |before| && fill <= |bytes| && |before| - start + fill == STRIPE
    ensures before[start..] + bytes[..fill] == (before + bytes)[start..start + STRIPE]
  {
  }

  lemma BufferAppend(seed: u32, data: seq<byte>, l: Lanes, mem: seq<byte>, size: nat, bytes: seq<byte>)
    requires Buffered(data, mem, size) && size + |bytes| < STRIPE && Absorbed(seed, data + bytes, l, |data|)
    ensures |mem| == STRIPE
    ensures Buffered(data + bytes, mem[..size] + bytes + mem[size + |bytes|..], size + |bytes|)
    ensures Absorbed(seed, data + bytes, l, |data + bytes|)
  {
    hide AfterStripes;
    var mem' := mem[..size] + bytes + mem[size + |bytes|..];
    assert mem'[..size + |bytes|] == (data + bytes)[|data| - size..];
  }

  lemma BufferRestart(data: seq<byte>, bytes: seq<byte>, pos: nat, mem: seq<byte>)
    requires pos <= |bytes| < pos + STRIPE && (|data| + pos) % STRIPE == 0 && |mem| == STRIPE
    ensures Buffered(data + bytes, bytes[pos..] + mem[|bytes| - pos..], |bytes| - pos)
  {
    var mem' := bytes[pos..] + mem[|bytes| - pos..];
    assert mem'[..|bytes| - pos] == (data + bytes)[|data| + pos..];
  }

  /** `XXH32_state_t`; `data` is everything fed in since the reset. */
  class State {
    var totalLen32: u32
    var largeLen: bool
    var v1: u32
    var v2: u32
    var v3: u32
    var v4: u32
    const mem32: array<byte>
    var memsize: nat
    ghost var seed: u32
    ghost var data: seq<byte>

    ghost predicate Valid()
      reads this, mem32
    {
      && mem32.Length == STRIPE
      && Counted(totalLen32, largeLen, |data|)
      && Buffered(data, mem32[..], memsize)
      && Absorbed(seed, data, Lanes(v1, v2, v3, v4), |data|)
    }

    constructor (seed: u32)
      ensures Valid() && this.seed == seed && data == [] && fresh(mem32)
    {
      mem32 := new byte[STRIPE](_ => 0);
      totalLen32, largeLen, memsize := 0, false, 0;
      var l := InitLanes(seed);
      v1, v2, v3, v4 := l.v1, l.v2, l.v3, l.v4;
      this.seed, data := seed, [];
    }

    /** `XXH32_update`. */
    method Update(input: Option<seq<byte>>) returns (ok: bool)
      requires Valid()
      modifies this, mem32
      ensures Valid() && seed == old(seed)
      ensures ok <==> input.Some?
      ensures data == if ok then old(data) + input.value else old(data)
    {
      hide Absorb, AfterStripes, Absorbed, Add32, InitLanes, Buffered, Counted;
      if input.None? {
        return false;
      }
      ok := true;
      var bytes, len := input.value, |input.value|;
      ghost var before := data;
      CountMore(totalLen32, largeLen, |before|, len);
      AbsorbedMore(seed, before, Lanes(v1, v2, v3, v4), bytes);
      totalLen32 := Add32(totalLen32, len);
      largeLen := largeLen || len >= STRIPE || totalLen32 >= STRIPE;
      data := data + bytes;

      if memsize + len < STRIPE {
        BufferAppend(seed, before, Lanes(v1, v2, v3, v4), mem32[..], memsize, bytes);
        Store(mem32, memsize, bytes);
        memsize := memsize + len;
        return;
      }
      UpdateLong(bytes, before);
    }

    /** The path taken when the input completes a stripe. */
    method UpdateLong(bytes: seq<byte>, ghost before: seq<byte>)
      requires Buffered(before, mem32[..], memsize) && memsize + |bytes| >= STRIPE
      requires Absorbed(seed, before + bytes, Lanes(v1, v2, v3, v4), |before|)
      modifies this`v1, this`v2, this`v3, this`v4, this`memsize, mem32
      ensures Buffered(before + bytes, mem32[..], memsize)
      ensures Absorbed(seed, before + bytes, Lanes(v1, v2, v3, v4), |before + bytes|)
    {
      hide Absorb, AfterStripes, Absorbed, InitLanes, Buffered;
      BufferSize(before, mem32[..], memsize);
      var pos := Drain(bytes, before);
      ghost var mem := mem32[..];
      BufferRestart(before, bytes, pos, mem);
      if pos < |bytes| {
        Store(mem32, 0, bytes[pos..]);
        memsize := |bytes| - pos;
      }
      assert mem32[..] == bytes[pos..] + mem[|bytes| - pos..];
    }

    /** The buffered stripe, if any, and then every whole stripe of the input. */
    method Drain(bytes: seq<byte>, ghost before: seq<byte>) returns (pos: nat)
      requires Buffered(before, mem32[..], memsize) && memsize + |bytes| >= STRIPE
      requires Absorbed(seed, before + bytes, Lanes(v1, v2, v3, v4), |before|)
      modifies this`v1, this`v2, this`v3, this`v4, this`memsize, mem32
      ensures memsize == 0 && pos <= |bytes| < pos + STRIPE && (|before| + pos) % STRIPE == 0
      ensures Absorbed(seed, before + bytes, Lanes(v1, v2, v3, v4), |before + bytes|)
    {
      hide Absorb, InitLanes;
      ghost var all, n := before + bytes, |before| / STRIPE;
      var len := |bytes|;
      pos := 0;
      if memsize > 0 {
        var fill := STRIPE - memsize;
        Store(mem32, memsize, bytes[..fill]);
        StripeAcross(before, bytes, STRIPE * n, fill);
        assert mem32[..] == before[STRIPE * n..] + bytes[..fill];
        assert mem32[0..0 + STRIPE] == mem32[..];
        SameStripe(Lanes(v1, v2, v3, v4), mem32[..], all, 0, STRIPE * n);
        var l := Absorb(Lanes(v1, v2, v3, v4), mem32[..], 0);
        v1, v2, v3, v4 := l.v1, l.v2, l.v3, l.v4;
        pos, n := fill, n + 1;
        memsize := 0;
      }
      if pos + STRIPE <= len {
        var limit := len - STRIPE;
        var l := Lanes(v1, v2, v3, v4);
        l, pos, n := AbsorbInput(l, bytes, pos, limit, all, |before|, n);
        v1, v2, v3, v4 := l.v1, l.v2, l.v3, l.v4;
      }
      assert |all| / STRIPE == n;
    }

    method AbsorbInput(l0: Lanes, bytes: seq<byte>, start: nat, limit: nat, ghost all: seq<byte>, ghost offset: nat, ghost n0: nat)
      returns (l: Lanes, pos: nat, ghost n: nat)
      requires limit == |bytes| - STRIPE && start <= |bytes|
      requires offset + |bytes| == |all| && bytes == all[offset..]
      requires offset + start == STRIPE * n0 && l0 == AfterStripes(seed, all, n0)
      ensures start <= pos <= |bytes| && limit < pos
      ensures offset + pos == STRIPE * n && l == AfterStripes(seed, all, n)
    {
      hide Absorb, InitLanes;
      l, pos, n := l0, start, n0;
      while pos <= limit
        invariant start <= pos <= |bytes|
        invariant offset + pos == STRIPE * n && l == AfterStripes(seed, all, n)
      {
        assert bytes[pos..pos + STRIPE] == all[offset + pos..offset + pos + STRIPE];
        SameStripe(l, bytes, all, pos, offset + pos);
        l := Absorb(l, bytes, pos);
        pos, n := pos + STRIPE, n + 1;
      }
    }

    /** `XXH32_digest`: the one-shot hash of everything since the reset, at any length. */
    method Digest(reroll: bool) returns (h: u32)
      requires Valid()
      ensures h == Hash(seed, data)
    {
      hide Absorb, Converge, Avalanche, Tail;
      var h32 := if largeLen then Converge(Lanes(v1, v2, v3, v4)) else Add32(v3, PRIME5);
      LengthAdds(h32, |data|);
      h := Finalize(Add32(h32, totalLen32), mem32[..memsize], reroll);
    }
  }

  lemma LengthAdds(h: u32, len: nat)
    ensures Add32(h, len % W32) == Add32(h, len)
  {
    AddModular32(len, h);
  }

  lemma AddModular32(x: nat, y: nat)
    ensures Add32(x % W32, y) == Add32(x, y) == Add32(y, x % W32)
  {
    var q, r := x / W32, x % W32;
    var q', r' := (r + y) / W32, (r + y) % W32;
    ModUnique(x + y, W32, q + q', r');
  }

  /** Hashing a text in pieces, however it is cut, hashes the text: the XXH32 path of `XSUM_hashStream`. */
  method HashStream(blocks: seq<seq<byte>>, seed: u32, reroll: bool) returns (h: u32)
    ensures h == Hash(seed, Flatten(blocks))
  {
    hide Hash;
    var state := new State(seed);
    for i := 0 to |blocks|
      invariant state.Valid() && fresh(state) && fresh(state.mem32) && state.seed == seed
      invariant state.data == Flatten(blocks[..i])
    {
      assert blocks[..i + 1][..i] == blocks[..i];
      var _ := state.Update(Some(blocks[i]));
    }
    assert blocks[..|blocks|] == blocks;
    h := state.Digest(reroll);
  }
}
