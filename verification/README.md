# Verification of the caching proxy's core algorithms

Dafny models of five parts of this repository, each an algorithm with a simple meaning and a
harder implementation, and proofs that the two agree.

**xxHash** (`xxHash/xxhash.h`). `xxh3_hash.dfy` says what an XXH3 hash of a text is, stripe by
stripe; `xxh3_kernel.dfy` has the scalar and the SIMD kernels as in-place loops over the
accumulators, `xxh3_short.dfy` the inputs of up to 240 bytes, `xxh3_stream.dfy` the streaming state
with its 256-byte buffer. The main result, `RunSession`, is about every sequence of calls on a state
object: each digest is the one-shot hash, under the last reset's key, of everything fed since. The
flat cache's file names depend on it (`FlatCacheName`). `xxh32.dfy` and `xxh64.dfy` do the same for
the older hashes, with both forms of their finalisation, and with the 32-bit length of XXH32 that
wraps around. `mult64.dfy` proves the portable 64x64 multiplication exact. Words are bounded
integers (`words.dfy`); every wrap-around is written out. All loads are bounds-checked, so the proofs
also say that no offset leaves the input, the buffer or a secret of at least 136 bytes.

What these hashes are is fixed from outside in two ways. `xxh3_distinct.dfy`, `xxh3_reads.dfy`,
`xxh3_long_reads.dfy`, `xxh64_distinct.dfy` and `xxh32_distinct.dfy` say which texts they tell apart,
for every key or seed and without reference to how they compute: XXH32 any two texts that differ in
one byte (`OneByteTold`), XXH3 any two of one length of up to 8 bytes, or 16 at 128 bits
(`Distinct64`, `Distinct128`), and no byte that is read once is ever passed over
(`EveryByteMatters64`, `ReadOnceMatters64`, `LongReadOnceMatters`). They rest on `bits.dfy`, where no
step of the hashes makes two words one. And the files `known_*.dfy` work out, with all carries, the
hashes that the program's own self-test states for texts of up to 2048 bytes (`Known64`, `Known128`,
`Known403`, `Known2048`, `KnownHashes`), which fixes every constant, offset and order of lanes.

**The collision tester** (`xxHash/tests/collisions/main.c`). `combinations.dfy` and `sampler.dfy`
show that the in-place sample generator enumerates bit combinations by size and then
lexicographically, misses none and repeats none. `filter.dfy` has the 2-bit counters of both builds,
`search.dfy` the whole search: neither the lossy filter nor the split over threads changes the
number of collisions that is reported. `filter_aborts.dfy` says which searches stop at their own
check, for which `avalanche.dfy` inverts the avalanche that turns a hash into its probes.

**The thread pool** (`xxHash/tests/collisions/pool.c`). `pool_machine.dfy` is the monitor as a state
machine over its critical sections, with any interleaving, any choice of woken sleepers and spurious
wake-ups; over all runs, jobs leave in order and once each, and no job waits while the limit leaves
room for it and no worker is about to take it (but for a resize after the shutdown,
`ResizeAfterShutDown`); a pool without a queue takes a job only for a free worker (`NoQueueNoWait`). `pool.dfy` is the object with its circular buffer; each critical section is
proved to be one step of the machine.

**Backend connections and DNS tables** (`Backend.cpp`, `Http.cpp`, `Dns.cpp`). `backend_pool.dfy` has
the connection and download objects with their mutual pointers and the three vectors of an address;
each callback keeps `Valid`, from which `PoolSafety` reads off the promises. `backend_run.dfy` has
the table of addresses and every run from the program's start, in which callbacks name connections by
number: each run goes through snapshots of all lists, and each callback's effect on them is exact.
`dns_tables.dfy` has the three tables of queries, the cache and its expiry index, the reply's answers
byte by byte, and an account of clients: whoever asked is told, waits or was cancelled, exactly once.
`dns_records.dfy` encodes replies as a name server writes them, in network byte order, and says what
is found in them (`ReplyFound`) and who is told what, and where (`GoodReply`, `SameFromCache`).
Callbacks into clients are recorded as notices. The clock never goes back and is read again wherever
the program reads it.

**Two parsers** (`xxHash/xxhsum.c`, `Http.cpp`). `xxhsum_line.dfy` prints and parses checksum lines,
on the character buffer that the parser cuts in place, and `xxhsum_file.dfy` reads whole files of
them. `http_chunk.dfy` is the decoder of chunked bodies of section 7.1 of RFC 9112, for size lines
in digits of either case and with extensions (`StatedSize`, `ReceiveSent`); `http_cuts.dfy`
and `http_many_cuts.dfy` say what becomes of a body that is cut anywhere.

The code is modelled as compiled without its debugging macros.

Where the code does not do what it is meant to do, the code is kept and the limits are exact:

- `Backend.cpp:172-191`: the loop that is to drop every waiting download drops every other one
  (`AbortPending`, `EveryOtherAt`), which is all of them exactly when at most one waits. That is one
  of the ways in which a ready download comes to wait although no connection is left. `Handle`
  gives the condition for every callback, as a predicate of the state before it (`Strands`): the only
  connection is lost before it answered while the second, fourth or another even-numbered waiting
  download is ready (`StrandedUnanswered`); it is lost after it answered while one is ready and no
  new connection opens (`Backend.cpp:237-242`, `StrandedRedial`); it times out in that case and two
  are ready; it is deleted while one is ready; or a first client joins a download that waits for no
  connection already. `NobodyStranded` says so of whole runs, and `RunToRedial` is a run that ends so.
- `Backend.cpp:254-304`: the code that takes an empty list out of the table is never reached, since
  it asks for a busy connection without a download, and every busy connection carries one between
  callbacks (`Carrying`, which `Handle` keeps). An address keeps its list for good (`ListsStay`).
- `Dns.cpp:784-789`: a new query under an id still in use breaks the tables, and only then
  (`AddKeepsIndex`, `AddBreaks`); ids come round after 65534 queries, which brings the clash about
  when a forgotten query is still live (`IdsComeRound`). `Run` stops there.
- `Dns.cpp:795`: removing a query unschedules every query due at the same second, and only those
  (`RemoveKeepsIndex`, `ForgottenLookup`); over any run they are neither sent again nor given up,
  and only a reply for them tells their clients (`DnsTables.Run`).
- `Dns.cpp:334-349` and `416-433`: a record without data, and an address record of another class than
  IN, which is passed over in its first six bytes only, stop the scan (`Stopped`), so that an address
  behind them is not found; no other whole record does (`AllPassed`). The data of one that is cut off
  are read as records (`DataCutOff`).
- `xxHash/tests/collisions/pool.c:253`: without a queue, a pool whose limit was lowered below the
  number of running workers takes a job that has to wait, since the two numbers differ (`TakenWhen`).
- `Http.cpp:1798-1818` and `1860-1870`: section 7.1 of RFC 9112 lets a chunked body arrive in any
  pieces. `ReceiveChunked` is for buffers that end between size lines, bodies and breaks. For two
  buffers and every other cut: `CutChunk` says exactly when the chunk that is cut arrives (inside a
  line or a body never, for plain hexadecimal lines; between a line's CR and LF only if the body is
  all LF), `CutAnywhere` exactly when a whole delivery does, for cuts outside bodies, and
  `CutsAnywhere` the same for any number of buffers. A delivery that is cut inside a body has lost
  that body when its last byte has come (`CutIsTimely`, `NeverInBody`); by accident of its bytes it
  can still come out whole (`CutByAccident`), so no condition on the cut alone decides that.
- `xxHash/xxhsum.c:1858-1864`: the comment gives two separating spaces before a file name; the parser
  takes any character but an opening parenthesis for the second, and nothing else
  (`AcceptedExactly`).
- `xxHash/tests/collisions/main.c:736`: with the two-probe filter more candidates can pass than were
  announced, whatever the filter's size (`AbortingRun`), and the program then aborts;
  `SearchCollisions` says exactly when. It never happens with one probe (`OneProbeNeverAborts`), nor
  with two if no two hashes have just one counter in common (`UnmixedNeverAborts`).

## Model

| member | source | states |
|---|---|---|
| Words.MaskIsMod | xxHash/xxhash.h:2666-2671 | masking a word with 2^n - 1 is its remainder modulo 2^n: the 32-bit halves the multiply works on |
| Words.OrIsSum | xxHash/xxhsum.c:1841 | a shifted digit joined by bitwise or to a smaller one is their sum |
| Words.BitwiseBound | xxHash/xxhash.h:2696-2700 | and, or and xor of n-bit words stay n-bit words |
| Words.ShiftIsHalve | xxHash/xxhash.h:2666-2671 | a shift is as many halvings |
| Words.AndDoubled | xxHash/xxhash.h:4332 | a mask with zeros below looks at what is left of the other word above |
| Words.LoadStore | xxHash/xxhash.h:2983-2987 | storing an integer little endian and loading it back gives the integer |
| Words.StoreLoad | xxHash/xxhash.h:1690-1693 | loading bytes little endian and storing the integer gives the bytes back |
| Words.LESplit | xxHash/xxhash.h:1690-1693 | a text cut in two: the number it stands for is that of its first part and, above it, that of the rest |
| Bits.Rotl64Injective | xxHash/xxhash.h:1111 | a rotation makes no two words one |
| Bits.Rotl32Injective | xxHash/xxhash.h:1110 | the same for 32 bits |
| Bits.XorShiftInjective | xxHash/xxhash.h:2696-2700 | neither does a shift of a word into itself, by any distance |
| Bits.RotationsInjective | xxHash/xxhash.h:2723 | nor the exclusive or of a word with two rotations of it |
| Bits.MulInverse | xxHash/xxhash.h:1723 | nor multiplication by a number that has an inverse modulo the word |
| Bits.LEInjective | xxHash/xxhash.h:1690-1693 | two texts of one length with one little-endian value are the same |
| Bits.LEFlipped | xxHash/xxhash.h:1690-1693 | changing one bit of a byte in memory changes that bit of the word loaded |
| Words.Store | xxHash/xxhash.h:4074 | memcpy writes exactly its stretch of the buffer and leaves the rest |
| LongMultiply.Mult64to128Exact | xxHash/xxhash.h:2664-2680 | for all 64-bit operands the portable multiply gives the exact 128-bit product, and neither its cross nor its upper sum overflows |
| LongMultiply.Carries | xxHash/xxhash.h:2670-2675 | the cross and upper sums of four 32x32 products fit 64 bits and add up to the product |
| Xxh3Kernel.AccumulateScalar | xxHash/xxhash.h:3502-3518 | the in-place scalar loop, which adds to lane i^1 in the middle of an iteration, leaves every lane with the whole-stripe formula |
| Xxh3Kernel.AccumulateVector | xxHash/xxhash.h:3032-3058 | the SIMD loops (register width 2, 4 or 8 lanes; also 3138-3170 and 3244-3277) leave the same accumulators as the scalar loop, for every stripe and secret |
| Xxh3Kernel.ScrambleScalar | xxHash/xxhash.h:3520-3535 | the scalar scramble loop applies the scramble formula to every lane |
| Xxh3Kernel.ScrambleVector | xxHash/xxhash.h:3081-3103 | the SIMD scrambles (also 3172-3199 and 3279-3306), which multiply through two half products, give the scalar result |
| Xxh3Kernel.SplitMultiply | xxHash/xxhash.h:3299-3303 | low product plus shifted high product is multiplication by the 32-bit prime modulo 2^64 |
| Xxh3Kernel.VectorMultiply | xxHash/xxhash.h:3299-3303 | the vector form of that split multiplies every lane of a register |
| Xxh3Kernel.VectorLane | xxHash/xxhash.h:3259-3276 | shuffle, 32x32 multiply and swapped add produce, lane by lane, the scalar accumulation |
| Xxh3Kernel.InitCustomSecretScalar | xxHash/xxhash.h:3537-3599 | the secret derived from a seed: seed added to even and subtracted from odd lanes of the default secret, byte for byte |
| Xxh3Kernel.InitCustomSecretVector | xxHash/xxhash.h:3105-3128 | the SIMD derivations (also 3201-3234 and 3308-3337) write the same 192 bytes |
| Xxh3Kernel.DerivedRound | xxHash/xxhash.h:3334-3336 | one vector round of the derivation writes its lanes of the derived secret |
| Xxh3Kernel.Accumulate512InPlace | xxHash/xxhash.h:3607-3645 | whichever kernel the build selects, one stripe has one effect |
| Xxh3Kernel.ScrambleInPlace | xxHash/xxhash.h:3607-3645 | whichever kernel the build selects, the scramble has one effect |
| Xxh3Kernel.InitCustomSecret | xxHash/xxhash.h:3607-3645 | whichever kernel the build selects, the derived secret is the same |
| Xxh3Kernel.WriteLE64 | xxHash/xxhash.h:2983-2987 | the eight bytes written are the value's little-endian bytes, whatever else the buffer holds |
| Xxh3Short.ComputeLen129To240 | xxHash/xxhash.h:2918-2969 | the two loops over rounds, with their different secret offsets, compute the mid-size hash; every offset lies inside the input and any secret of at least 136 bytes |
| Xxh3Short.ComputeLen129To240_128 | xxHash/xxhash.h:4441-4488 | the same for the 128-bit hash |
| Xxh3Short.MiddleForms | xxHash/xxhash.h:4326-4359 | the form for 32-bit machines and the form for 64-bit machines add the same to the middle of the 9-to-16-byte hash |
| Xxh3Hash.RunContinues | xxHash/xxhash.h:3664-3679 | a run of stripes inside a block continues the stripe-by-stripe meaning; at the block's end only the scramble is missing |
| Xxh3Hash.RunAgree | xxHash/xxhash.h:3664-3679 | a run depends only on the bytes it reads |
| Xxh3Hash.AfterStripesPrefix | xxHash/xxhash.h:4029-4050 | what has been accumulated does not depend on bytes that come later |
| Xxh3Hash.BlockContinues | xxHash/xxhash.h:3696-3699 | one full block of the one-shot loop, scramble included, advances the meaning by a block |
| Xxh3Hash.BlocksFit | xxHash/xxhash.h:3688-3712 | block count, partial block and last stripe of the one-shot loop cover the input and stay inside it |
| Xxh3Hash.Accumulate | xxHash/xxhash.h:3664-3679 | the stripe loop computes the run, reading inside input and secret |
| Xxh3Hash.HashLongLoop | xxHash/xxhash.h:3681-3712 | the block-structured loop leaves the accumulators of the stripe-by-stripe meaning, for every input over 240 bytes and every secret of at least 136 |
| Xxh3Hash.ComputeMergeAccs | xxHash/xxhash.h:3722-3747 | the merge loop computes the fold of the eight accumulators |
| Xxh3Hash.ComputeLongSecret | xxHash/xxhash.h:3807-3826 | seed 0 uses the default secret, any other seed its derived one, a caller's secret is used as given |
| Xxh3Hash.ComputeHash64 | xxHash/xxhash.h:3841-3880 | the one-shot 64-bit entry points compute the specified hash for all lengths, keys and kernels |
| Xxh3Hash.ComputeHash128 | xxHash/xxhash.h:4574-4619 | the same for 128 bits |
| Xxh3Hash.DefaultKeys | xxHash/xxhash.h:3866-3880 | no key, seed 0 and the default secret are one hash |
| Xxh3Distinct.AvalancheInjective | xxHash/xxhash.h:2706-2712 | the avalanche makes no two words one |
| Xxh3Distinct.Xxh64AvalancheInjective | xxHash/xxhash.h:1743-1751 | nor does that of XXH64 |
| Xxh3Distinct.RrmxmxInjective | xxHash/xxhash.h:2719-2727 | nor the stronger one, for any length it is given |
| Xxh3Distinct.CombinedInjective | xxHash/xxhash.h:2764-2782 | the word made of one to three bytes and their number tells all such texts apart, also of different lengths |
| Xxh3Distinct.FoldInjective | xxHash/xxhash.h:2689-2693 | a product with a power of two, folded, keeps the other factor |
| Xxh3Distinct.MattersFirst | xxHash/xxhash.h:2802-2815 | of 9 to 16 bytes, one that only the first word has: under any key two texts that differ in it alone have different hashes |
| Xxh3Distinct.MattersLast | xxHash/xxhash.h:2802-2815 | the same for one that only the last word has |
| Xxh3Distinct.MattersBoth | xxHash/xxhash.h:2802-2815 | and for one that both words have, which could hide its change from one of two texts but not from both |
| Xxh3Distinct.Distinct64 | xxHash/xxhash.h:2764-2798 | whatever the key, two texts of one length of up to 8 bytes never have the same 64-bit hash |
| Xxh3Distinct.EveryByteMatters64 | xxHash/xxhash.h:2764-2827 | whatever the key, the length of up to 16 bytes and the position, two texts that differ in that byte alone have different 64-bit hashes |
| Xxh3Distinct.Wide4To8 | xxHash/xxhash.h:4276-4299 | under any secret and seed, texts of 4 to 8 bytes with one 128-bit hash are the same |
| Xxh3Distinct.Wide9To16 | xxHash/xxhash.h:4303-4373 | and so are texts of 9 to 16 bytes |
| Xxh3Distinct.Distinct128 | xxHash/xxhash.h:4247-4390 | whatever the key, two texts of one length of up to 16 bytes never have the same 128-bit hash |
| Xxh3Reads.InwardIs | xxHash/xxhash.h:2889-2915 | the hash of 17 to 128 bytes mixes pairs of windows from both ends, the innermost first |
| Xxh3Reads.ReadOnceMatters64 | xxHash/xxhash.h:2889-2969 | whatever the key, no byte of 17 to 240 that one window alone covers is passed over by the 64-bit hash |
| Xxh3Reads.ReadOnceMatters128 | xxHash/xxhash.h:4409-4488 | nor by the 128-bit hash |
| Xxh3LongReads.ScrambleInjective | xxHash/xxhash.h:3520-3535 | the scramble makes no two lane values one |
| Xxh3LongReads.Steer | xxHash/xxhash.h:3681-3712 | any lane can be brought to any value after any number of stripes, scrambles between them included, by a word of the first stripe |
| Xxh3LongReads.StripesApart | xxHash/xxhash.h:3502-3518 | of two texts that differ in one byte of a word that is its key, exactly the lane next to the word's is another one, from that stripe on |
| Xxh3LongReads.MergeApart | xxHash/xxhash.h:3714-3747 | folding the accumulators keeps a difference in one lane where its neighbour meets 1 |
| Xxh3LongReads.LongReadOnceMatters | xxHash/xxhash.h:3681-3747 | whatever the key, no byte of a text of more than 240 that one stripe alone reads is passed over by either hash |
| Xxh3LongReads.CallersSecretMatters | xxHash/xxhash.h:3708-3710 | the secret that a caller gives keys a long text too: with one bit of its last key changed, some text has other hashes |
| KnownWords.XorIs | xxHash/xxhash.h:2696-2700 | on words given byte by byte, exclusive or is that of the machine |
| KnownWords.Made | xxHash/xxhsum.c:585-596 | eight bytes of the self-test's buffer and the generator behind them |
| KnownXxh3.Known64 | xxHash/xxhsum.c:1247-1261 | the 64-bit hashes that the self-test states for 0, 1, 6, 12, 80 and 195 bytes of its buffer, worked out from the specification |
| KnownXxh3.Known64WithSecret | xxHash/xxhsum.c:1276-1281 | and for 12 bytes under a caller's secret |
| KnownXxh3.Known128 | xxHash/xxhsum.c:1299-1343 | the 128-bit hashes that it states for 0, 1, 6, 12, 81 and 222 bytes under a seed |
| KnownXxh3Long.Known403 | xxHash/xxhsum.c:1264 | both hashes that it states for 403 bytes under a seed: one block whose last stripe overlaps, keyed by a derived secret |
| KnownXxh3Blocks.Known2048 | xxHash/xxhsum.c:1267 | both hashes that it states for 2048 bytes without a seed: two blocks with the scramble between them |
| Xxh3Stream.ConsumeStripes | xxHash/xxhash.h:4028-4050 | a call with at most one block's stripes advances the accumulators and the stripe counter across at most one block end |
| Xxh3Stream.BufferAppend | xxHash/xxhash.h:4073-4077 | input that fits in the buffer is appended, nothing lost |
| Xxh3Stream.BufferFill | xxHash/xxhash.h:4087-4090 | a completed buffer is the next 256 bytes of the text |
| Xxh3Stream.BufferRestart | xxHash/xxhash.h:4111-4118 | the remainder restarts the buffer, and the tail behind it still holds the last stripe consumed |
| Xxh3Stream.LastStripes | xxHash/xxhash.h:4142-4153 | with 64 bytes or more buffered, the digest's stripes and last stripe are those of the whole text |
| Xxh3Stream.CaughtUp | xxHash/xxhash.h:4154-4163 | with fewer, the stripe rebuilt from the buffer's tail and head is the text's last 64 bytes |
| Xxh3Stream.AllBuffered | xxHash/xxhash.h:4166-4181 | a text of at most 240 bytes is still whole in the buffer |
| Xxh3Stream.Xxh3State.constructor | xxHash/xxhash.h:3951-3957 | a created state keeps its invariant and needs a reset before use |
| Xxh3Stream.Xxh3State.ResetInternal | xxHash/xxhash.h:3971-3995 | nothing hashed, counters at zero, parameters stored, the buffer contents irrelevant |
| Xxh3Stream.Xxh3State.Reset | xxHash/xxhash.h:3997-4003 | the state stands for the empty text under the default key |
| Xxh3Stream.Xxh3State.ResetWithSecret | xxHash/xxhash.h:4005-4013 | refused exactly when the secret is absent or shorter than 136 bytes; accepted, the state stands for the empty text under it |
| Xxh3Stream.Xxh3State.ResetWithSeed | xxHash/xxhash.h:4015-4023 | the state stands for the empty text under the seed; a non-zero stored seed always has its derived secret, so rebuilding only on change is right |
| Xxh3Stream.Xxh3State.Update | xxHash/xxhash.h:4055-4122 | exactly the input is appended to the hashed text; a null input is an error that changes nothing |
| Xxh3Stream.Xxh3State.UpdateLong | xxHash/xxhash.h:4078-4121 | the path through the buffer keeps the state of the longer text, with at least one byte held back |
| Xxh3Stream.Xxh3State.RestartBuffer | xxHash/xxhash.h:4111-4118 | in place: the remainder restarts the buffer and the tail keeps the last stripe consumed |
| Xxh3Stream.Xxh3State.CompleteBuffer | xxHash/xxhash.h:4087-4097 | the filled buffer is consumed, and the buffer's tail holds the last stripe consumed |
| Xxh3Stream.Xxh3State.ConsumeInput | xxHash/xxhash.h:4100-4113 | whole buffers are consumed from the input, at least one and at most 256 bytes stay |
| Xxh3Stream.Xxh3State.ConsumeBuffer | xxHash/xxhash.h:4091-4095 | 256 bytes, wherever they lie, advance the accumulators by four stripes of the text |
| Xxh3Stream.Xxh3State.DigestLong | xxHash/xxhash.h:4132-4164 | a copy of the accumulators becomes the one-shot accumulators of the whole text; the state is untouched |
| Xxh3Stream.Xxh3State.Digest64 | xxHash/xxhash.h:4166-4181 | the one-shot 64-bit hash of everything fed since the reset |
| Xxh3Stream.Xxh3State.Digest128 | xxHash/xxhash.h:4678-4701 | the one-shot 128-bit hash of everything fed since the reset |
| Xxh3Stream.RunSession | xxHash/xxhash.h:3951-4181 | every sequence of create, reset, update and digest calls, on any mix of kernels, returns what the one-shot functions return for the last reset's key and the text fed since |
| Xxh3Stream.Call | xxHash/xxhash.h:4124-4130 | each single call moves the object as it moves the session |
| Xxh3Stream.HashStream128 | xxHash/xxhsum.c:1470-1524 | hashing a file block by block is hashing the file |
| Xxh3Stream.FlatCacheName | Client.cpp:712-716 | the flat cache's file name is the one-shot hash of host and URI joined |
| Xxh32.SwitchIsTail | xxHash/xxhash.h:1301-1341 | for every tail the unrolled fall-through switch equals the rerolled loops |
| Xxh32.Finalize | xxHash/xxhash.h:1274-1343 | both finalisations compute the tail of the specification |
| Xxh32.ComputeHash | xxHash/xxhash.h:1353-1389 | the one-shot loop computes the specified hash of any input |
| Xxh32.AfterStripesPrefix | xxHash/xxhash.h:1445-1506 | the lanes after n stripes do not depend on later bytes |
| Xxh32.BufferAppend | xxHash/xxhash.h:1445-1506 | short input is appended to the buffer and keeps lanes and buffer in step with the text |
| Xxh32.BufferRestart | xxHash/xxhash.h:1445-1506 | the rest after the last whole stripe restarts the buffer |
| Xxh32.State.constructor | xxHash/xxhash.h:1431-1442 | a reset state stands for the empty text under its seed |
| Xxh32.State.Update | xxHash/xxhash.h:1445-1506 | exactly the input is appended to the hashed text; a null input is an error that changes nothing |
| Xxh32.State.UpdateLong | xxHash/xxhash.h:1445-1506 | the path that completes a stripe keeps the state of the longer text |
| Xxh32.State.Drain | xxHash/xxhash.h:1445-1506 | the buffered stripe and every whole stripe of the input are absorbed, fewer than a stripe's bytes stay |
| Xxh32.State.AbsorbInput | xxHash/xxhash.h:1445-1506 | the stripe loop absorbs the input's whole stripes in order |
| Xxh32.State.Digest | xxHash/xxhash.h:1509-1525 | the one-shot hash of everything fed since the reset |
| Xxh32.HashStream | xxHash/xxhsum.c:1470-1524 | however a text is cut into blocks, hashing the blocks is hashing the text |
| Xxh64.SwitchIsTail | xxHash/xxhash.h:1794-1874 | for every tail the unrolled fall-through switch equals the rerolled loops |
| Xxh64.Finalize | xxHash/xxhash.h:1756-1879 | both finalisations compute the tail of the specification |
| Xxh64.ComputeHash | xxHash/xxhash.h:1891-1931 | the one-shot loop computes the specified hash of any input |
| Xxh64.AfterStripesPrefix | xxHash/xxhash.h:1985-2043 | the lanes after n stripes do not depend on later bytes |
| Xxh64.BufferAppend | xxHash/xxhash.h:1985-2043 | short input is appended to the buffer and keeps lanes and buffer in step with the text |
| Xxh64.BufferRestart | xxHash/xxhash.h:1985-2043 | the rest after the last whole stripe restarts the buffer |
| Xxh64.State.constructor | xxHash/xxhash.h:1972-1983 | a reset state stands for the empty text under its seed |
| Xxh64.State.Update | xxHash/xxhash.h:1985-2043 | exactly the input is appended to the hashed text; a null input is an error that changes nothing |
| Xxh64.State.UpdateLong | xxHash/xxhash.h:1985-2043 | the path that completes a stripe keeps the state of the longer text |
| Xxh64.State.Drain | xxHash/xxhash.h:1985-2043 | the buffered stripe and every whole stripe of the input are absorbed, fewer than a stripe's bytes stay |
| Xxh64.State.AbsorbInput | xxHash/xxhash.h:1985-2043 | the stripe loop absorbs the input's whole stripes in order |
| Xxh64.State.Digest | xxHash/xxhash.h:2046-2068 | the one-shot hash of everything fed since the reset |
| Xxh64.HashStream | xxHash/xxhsum.c:1470-1524 | however a text is cut into blocks, hashing the blocks is hashing the text |
| Xxh32.CountMore | xxHash/xxhash.h:1458-1459 | the 32-bit length with its sticky flag tells whether a stripe was seen for every real length, also past 2^32 bytes |
| Xxh32.LengthAdds | xxHash/xxhash.h:1509-1525 | adding the wrapped length or the real one to the hash is the same modulo 2^32 |
| Xxh64.FewBytes | xxHash/xxhash.h:1849-1873 | the arms for up to three trailing bytes equal the byte loop |
| Xxh32Distinct.RoundTells | xxHash/xxhash.h:1205-1210 | a round loses neither its lane nor its input |
| Xxh32Distinct.LastStripe | xxHash/xxhash.h:1374-1377 | texts that are the same up to their last stripe have the same lanes after it if and only if the stripes are the same |
| Xxh32Distinct.LanesApart | xxHash/xxhash.h:1374-1377 | of two texts that differ in one byte, all lanes agree but the one of that byte's word, and that one differs exactly once its stripe is absorbed |
| Xxh32Distinct.ConvergeApart | xxHash/xxhash.h:1380-1381 | one lane alone cannot change without changing the sum of the rotated lanes |
| Xxh32Distinct.TailApart | xxHash/xxhash.h:1274-1343 | two tails that differ in one byte lead to different hashes, whatever came before |
| Xxh32Distinct.AvalancheInjective | xxHash/xxhash.h:1262-1270 | the avalanche makes no two words one |
| Xxh32Distinct.OneByteTold | xxHash/xxhash.h:1353-1389 | whatever the seed, two texts of any length that differ in one byte never have the same hash |
| Xxh64Distinct.RoundTells | xxHash/xxhash.h:1727-1733 | a round loses neither its lane nor its input |
| Xxh64Distinct.LastStripe | xxHash/xxhash.h:1912-1915 | texts that are the same up to their last stripe have the same lanes after it if and only if the stripes are the same |
| Xxh64Distinct.LanesApart | xxHash/xxhash.h:1912-1915 | of two texts that differ in one byte, all lanes agree but the one of that byte's word, and that one differs exactly once its stripe is absorbed |
| Xxh64Distinct.TailApart | xxHash/xxhash.h:1756-1879 | two tails that differ in one byte lead to different hashes, whatever came before |
| Xxh64Distinct.AvalancheInjective | xxHash/xxhash.h:1743-1751 | the avalanche makes no two words one |
| Xxh64Distinct.TailByteTold | xxHash/xxhash.h:1891-1931 | whatever the seed, two texts that differ in one byte behind their last whole stripe never have the same hash |
| KnownXxh32.KnownHashes | xxHash/xxhsum.c:1231-1234 | the hashes that the self-test states for 14 and 222 bytes of its buffer, worked out from the specification |
| KnownXxh64.KnownHashes | xxHash/xxhsum.c:1241-1244 | the same for XXH64, with and without a seed |
| Combinations.SuccIsCombo | xxHash/tests/collisions/main.c:297-314 | an advanced combination is strictly increasing and in range |
| Combinations.SuccComing | xxHash/tests/collisions/main.c:303-313 | an advance uses up exactly one of the combinations still to come; it fails exactly when none is |
| Combinations.FirstComing | xxHash/tests/collisions/main.c:320-327 | a new level starts with all of its C(n, level) combinations ahead but one |
| Combinations.StepIndex | xxHash/tests/collisions/main.c:316-329 | every update advances the combinatorial index by one, also across levels |
| Combinations.IndexInLevel | xxHash/tests/collisions/main.c:316-329 | the index of a combination lies in its level's stretch of binomial length |
| Combinations.LexIndex | xxHash/tests/collisions/main.c:297-314 | inside a level the index order is the lexicographic order |
| Combinations.IndexInjective | xxHash/tests/collisions/main.c:316-329 | two combinations with one index are equal |
| Combinations.NthIndex | xxHash/tests/collisions/main.c:316-329 | after k updates the generator stands at the combination of index k |
| Combinations.LevelLength | xxHash/tests/collisions/main.c:316-329 | level L is current for exactly C(n, L) updates |
| Combinations.EveryComboAppears | xxHash/tests/collisions/main.c:316-329 | no combination is missed |
| Combinations.NthOrdered | xxHash/tests/collisions/main.c:316-329 | the order is by size, then lexicographic, and no combination comes twice |
| Sampler.FlipTwice | xxHash/tests/collisions/main.c:289-295 | flipping a bit twice restores the buffer |
| Sampler.FlipAllBitAt | xxHash/tests/collisions/main.c:289-295 | flipping a combination changes exactly its bits |
| Sampler.ComboElements | xxHash/tests/collisions/main.c:297-314 | a combination is determined by its bits |
| Sampler.FlipBit | xxHash/tests/collisions/main.c:289-295 | one bit of one byte changes, in place |
| Sampler.UpdateBit | xxHash/tests/collisions/main.c:297-314 | on success buffer and positions hold the next combination; on failure the combination is erased from the buffer and the positions are as before |
| Sampler.SamplesDistinct | xxHash/tests/collisions/main.c:316-329 | within the 14 levels no sample is ever repeated |
| Sampler.SampleInjective | xxHash/tests/collisions/main.c:316-329 | equal samples come from equal update counts |
| Sampler.EnoughCombos | xxHash/tests/collisions/main.c:224-236 | true exactly when the sample has at least 16 bits and htotal samples exist in levels 1 to 14 (exact binomials) |
| AvalancheOnto.Unshift | xxHash/tests/collisions/main.c:105-113 | a shift by at least half the width, exclusive-or-ed in, is undone by doing it again |
| AvalancheOnto.Unmultiply | xxHash/tests/collisions/main.c:105-113 | the multiplications by odd primes are undone modulo 2^64 |
| AvalancheOnto.Preimage | xxHash/tests/collisions/main.c:105-113 | every 64-bit value is the avalanche of some value |
| AvalancheOnto.ProbesPreimage | xxHash/tests/collisions/main.c:418-427 | any two counters of the filter's first line are the probes of some hash |
| Sampler.SampleFactory.constructor | xxHash/tests/collisions/main.c:266-280 | sizes and seed are stored |
| Sampler.SampleFactory.Init | xxHash/tests/collisions/main.c:252-264 | refuses exactly when there are not enough samples, else starts over from the seeded base buffer |
| Sampler.SampleFactory.Update | xxHash/tests/collisions/main.c:316-329 | after k updates the buffer is the base buffer with the k-th combination flipped |
| Sampler.SampleFactory.SetFirstBits | xxHash/tests/collisions/main.c:323-327 | a new level's first combination is set in a clean buffer |
| CandidateFilter.CounterOr | xxHash/tests/collisions/main.c:440-442 | or-ing into one 2-bit counter leaves the others |
| CandidateFilter.CounterErase | xxHash/tests/collisions/main.c:440 | erasing one 2-bit counter leaves the others |
| CandidateFilter.ProbesOf | xxHash/tests/collisions/main.c:418-431 | both probes of a hash lie in its cache line, inside the filter |
| CandidateFilter.InsertRaises | xxHash/tests/collisions/main.c:435-442 | however probes alias, an insertion lowers no counter and raises its own two at least to the next value |
| CandidateFilter.InsertedOnce | xxHash/tests/collisions/main.c:416-445 | a hash inserted once has both counters above zero, whatever else was inserted |
| CandidateFilter.InsertedTwice | xxHash/tests/collisions/main.c:416-476 | a hash inserted twice passes the check, and some insertion announced a candidate |
| CandidateFilter.AnnouncedPasses | xxHash/tests/collisions/main.c:416-476 | an announced candidate means that an inserted hash passes |
| CandidateFilter.Filter.constructor | xxHash/tests/collisions/main.c:338-346 | a new filter of either build has all counters at zero |
| CandidateFilter.Filter.Insert | xxHash/tests/collisions/main.c:362-445 | in either build the cells change in place as one more insertion in the history, and the return value is that insertion's share |
| CandidateFilter.Filter.Check | xxHash/tests/collisions/main.c:388-476 | in either build true exactly when the hash passes the filter of the inserted history |
| CandidateFilter.CounterTallies | xxHash/tests/collisions/main.c:362-377 | a one-probe counter shows 0, 1 or more insertions |
| CandidateFilter.OneProbeExact | xxHash/tests/collisions/main.c:362-396 | for any insertions the returned numbers add up to the number of inserted hashes that pass afterwards |
| CandidateFilter.Insert1InPlace | xxHash/tests/collisions/main.c:362-377 | the one-probe insertion in place, with its share of the sum |
| CandidateFilter.Insert2InPlace | xxHash/tests/collisions/main.c:416-445 | the two-probe insertion in place, with its share of the sum |
| CandidateFilter.RepeatedPasses | xxHash/tests/collisions/main.c:351-476 | in either build a hash inserted twice passes, and something was announced |
| CandidateFilter.AnnouncedByPasses | xxHash/tests/collisions/main.c:351-476 | in either build an announcement means that an inserted hash passes |
| CollisionSearch.DuplicatesAreSurplus | xxHash/tests/collisions/main.c:785-794 | the count is the number of hashes beyond the distinct ones |
| CollisionSearch.DuplicatesPermute | xxHash/tests/collisions/main.c:764-794 | the count does not depend on the order |
| CollisionSearch.KeepDuplicates | xxHash/tests/collisions/main.c:734-738 | dropping hashes that occur once changes no count |
| CollisionSearch.PartitionExact | xxHash/tests/collisions/main.c:1083-1101 | the counts of all 2^t selectors of the mask 2^t - 1 add up to the unpartitioned count |
| CollisionSearch.SortedNeighbours | xxHash/tests/collisions/main.c:785-794 | in a sorted table a hash repeats an earlier one exactly when it equals its predecessor |
| CollisionSearch.SortTable | xxHash/tests/collisions/main.c:768-777 | a sorted permutation of the table |
| CollisionSearch.CountDuplicates | xxHash/tests/collisions/main.c:785-794 | the scan over a sorted table counts the repeated hashes |
| CollisionSearch.SortAndCount | xxHash/tests/collisions/main.c:764-794 | sorting in place and scanning counts the repeated hashes of the table |
| CollisionSearch.CollisionsAreReal | xxHash/tests/collisions/main.c:649-837 | the count is positive exactly when two different inputs of the run have one hash |
| CollisionSearch.FilterExact | xxHash/tests/collisions/main.c:689-743 | the filter keeps the count and announces something when there is something to find |
| CollisionSearch.FillFilter | xxHash/tests/collisions/main.c:678-698 | the first pass puts exactly the selected hashes in the filter and sums what it announces |
| CollisionSearch.StoreCandidates | xxHash/tests/collisions/main.c:723-743 | the second pass stores exactly the passing hashes in order, and aborts exactly when there are more than announced |
| CollisionSearch.SearchCollisions | xxHash/tests/collisions/main.c:649-837 | in either build, whenever a search completes it reports the duplicates among its hashes, filter or not; with enough samples it aborts if and only if create_Filter refuses the size, or more candidates are stored than announced, or fewer and the table moved |
| CollisionSearch.SearchInParallel | xxHash/tests/collisions/main.c:1063-1101 | in whatever order the pool takes the jobs: all complete exactly when there are enough samples and none aborts, and then the sum of their places is the count of the whole run |
| FilterAborts.StoredIsPassing | xxHash/tests/collisions/main.c:689-743 | the search stores as many candidates as inserted hashes pass |
| FilterAborts.OneProbeNeverAborts | xxHash/tests/collisions/main.c:351-396 | in the one-probe build exactly the announced number is stored, so no search with a filter aborts |
| FilterAborts.Levels | xxHash/tests/collisions/main.c:416-445 | the two counters of a hash that shares both counters or none with every other count the hashes that have them: none, one, or more |
| FilterAborts.TwoProbesExact | xxHash/tests/collisions/main.c:416-476 | if no two hashes have just one counter in common, the two-probe announcements add up to the number of hashes that pass |
| FilterAborts.UnmixedNeverAborts | xxHash/tests/collisions/main.c:723-743 | a two-probe search over such hashes stores what was announced and does not abort |
| FilterAborts.InsertExact | xxHash/tests/collisions/main.c:435-442 | what a two-probe insertion makes of every counter, both probes falling together included |
| FilterAborts.MorePassThanAnnounced | xxHash/tests/collisions/main.c:416-476 | for every filter size, seven hashes whose insertion announces six candidates and which all pass |
| FilterAborts.ChosenHashes | xxHash/tests/collisions/main.c:689-743 | a hash function that gives a run's samples any hashes one likes |
| FilterAborts.AbortingRun | xxHash/tests/collisions/main.c:736 | for every filter size there is a hash function with which a two-probe search over seven samples of two bytes aborts |
| PoolMachine.NextKeeps | xxHash/tests/collisions/pool.c:78-295 | every atomic step of workers and clients, in any order and with any wake-ups, keeps the invariant |
| PoolMachine.RunKeeps | xxHash/tests/collisions/pool.c:78-295 | the invariant holds in every state of every run |
| PoolMachine.JobsRunOnceInOrder | xxHash/tests/collisions/pool.c:78-117 | in every reachable state the popped jobs followed by the queue are the accepted jobs in order, each popped job is finished or in one worker's hands, a waiting job has a worker that is not asleep, and the queue holds no more than its slots allow |
| PoolMachine.JoinedMeansDone | xxHash/tests/collisions/pool.c:164-179 | when all workers have been joined, every accepted job has finished once |
| PoolMachine.NoClientLeftAsleep | xxHash/tests/collisions/pool.c:164-179 | once the join has called the clients, none of them sleeps in POOL_add any more |
| PoolMachine.SleepingClientIsServed | xxHash/tests/collisions/pool.c:271-281 | while the pool is open a client asleep in add is never left behind free room with everybody asleep |
| PoolMachine.JoinProgresses | xxHash/tests/collisions/pool.c:164-179 | after the last broadcast every worker step brings the end nearer |
| PoolMachine.JoinEnabled | xxHash/tests/collisions/pool.c:84-115 | after the last broadcast no remaining worker is stuck |
| PoolMachine.InitKeeps | xxHash/tests/collisions/pool.c:120-159 | a created pool satisfies the invariant |
| PoolMachine.PopRunsOnce | xxHash/tests/collisions/pool.c:97-106 | a popped job is in exactly one worker's hands |
| PoolMachine.EnqueueLive | xxHash/tests/collisions/pool.c:259-269 | after an accepted job some worker is awake or running, since the signal wakes a sleeper if there is one |
| PoolMachine.TakenWhen | xxHash/tests/collisions/pool.c:249-256 | an open pool takes a job exactly when its queue has room; without a queue, when no job waits and the running workers are not as many as the limit |
| PoolMachine.NoQueueNoWait | xxHash/tests/collisions/pool.c:249-256 | over any run without a resize, a pool without a queue takes a job only for a worker that is free to run it |
| PoolMachine.ResizeKeeps | xxHash/tests/collisions/pool.c:203-241 | growing, shrinking and failing to grow keep the invariant |
| ThreadPool.PopLive | xxHash/tests/collisions/pool.c:98-101 | popping the ring removes its oldest job, and the recomputed empty flag is right |
| ThreadPool.PushLive | xxHash/tests/collisions/pool.c:265-267 | pushing into a ring that is not full appends one job and overwrites none |
| ThreadPool.FullMeans | xxHash/tests/collisions/pool.c:249-256 | the index comparison says full exactly when all slots but one are in use |
| ThreadPool.PoolCtx.constructor | xxHash/tests/collisions/pool.c:120-159 | the created object stands for the machine's initial state |
| ThreadPool.PoolCtx.TakeJob | xxHash/tests/collisions/pool.c:84-106 | the locked loop head is one machine step: sleep, exit, or pop the oldest job |
| ThreadPool.PoolCtx.PopJob | xxHash/tests/collisions/pool.c:92-100 | the oldest job leaves the ring into the worker's hands, as one machine step |
| ThreadPool.PoolCtx.JobDone | xxHash/tests/collisions/pool.c:108-115 | the second locked part is the machine's finish step |
| ThreadPool.PoolCtx.IsQueueFull | xxHash/tests/collisions/pool.c:249-256 | true exactly when the machine's queue is full, for one slot and for more |
| ThreadPool.PoolCtx.AddInternal | xxHash/tests/collisions/pool.c:259-269 | a job is appended to the queue, or dropped after shutdown |
| ThreadPool.PoolCtx.Add | xxHash/tests/collisions/pool.c:271-281 | one pass of the waiting loop is one machine step: sleep on a full queue, else add |
| ThreadPool.PoolCtx.Enter | xxHash/tests/collisions/pool.c:271-275 | a client that enters POOL_add is one machine step |
| ThreadPool.PoolCtx.TryAdd | xxHash/tests/collisions/pool.c:284-295 | refuses exactly when the queue is full |
| ThreadPool.PoolCtx.Resize | xxHash/tests/collisions/pool.c:232-241 | every outcome is the machine's resize step, with its broadcast |
| ThreadPool.PoolCtx.ResizeInternal | xxHash/tests/collisions/pool.c:203-229 | fails exactly for 0 threads, no memory or a thread that does not start; the limit changes only on success |
| ThreadPool.PoolCtx.ShutDownQueue | xxHash/tests/collisions/pool.c:164-168 | the flag is set, nothing else moves |
| PoolMachine.MannedKeeps | xxHash/tests/collisions/pool.c:78-295 | every step, a resize after the shutdown apart, keeps this: as many workers are about to take the lock as there are waiting jobs, or as the limit lets run |
| PoolMachine.NoJobWaitsForNobody | xxHash/tests/collisions/pool.c:84-115 | so in every reachable state no job waits while the limit leaves room and nobody is about to take it, as long as no resize came after the shutdown |
| PoolMachine.NobodyIdle | xxHash/tests/collisions/pool.c:84-115 | when no worker sleeps or has exited, those that do not run a job are about to take the lock |
| PoolMachine.ResizeAfterShutDown | xxHash/tests/collisions/pool.c:203-241 | a run in which a resize after the shutdown leaves a job waiting with room for it, since a worker has exited at the limit |
| ThreadPool.PoolCtx.CallEveryone | xxHash/tests/collisions/pool.c:170-172 | the two broadcasts of the join are the machine's two calling steps, one after the other |
| Lists.WithoutFacts | Backend.cpp:162-171 | erasing the found element of a duplicate-free vector removes that element and no other |
| Lists.WithoutAt | Backend.cpp:162-171 | the loop that erases at the first match and stops leaves the vector without the first occurrence |
| Lists.WithoutCount | Dns.cpp:809-820 | the erased vector has one occurrence fewer |
| BackendPool.BackendList.PoolSafety | Backend.cpp:32-1165 | in every valid state busy and idle are duplicate-free and disjoint with at most maxBackend in all, no connection idles while a download waits, links are mutual, no download is held twice |
| BackendPool.BackendList.TryConnectInternalList | Backend.cpp:543-608 | the last idle connection, else a new one while fewer than maxBackend are busy, else the end of the waiting list; exactly the chosen pair is linked |
| BackendPool.BackendList.Register | Backend.cpp:609-636 | the first connection of an address: the list is registered exactly when it opens |
| BackendPool.BackendList.ConnectNew | Backend.cpp:568-584 | a new connection becomes busy and linked, or nothing changes when it does not open |
| BackendPool.Http.TryConnectInternal | Http.cpp:178-264 | a download whose address has a list gets a live busy connection, a place on the waiting list, or neither, each under its exact condition |
| BackendPool.Http.AddClient | Http.cpp:1608-1677 | a client joins unless the download is dead or has it; this strands a download exactly when it was the first client of one that waits for no connection |
| BackendPool.Http.RemoveClient | Http.cpp:1679-1734 | every registration of the client goes, and true is returned exactly when there was one |
| BackendPool.Http.DisconnectBackend | Http.cpp:1286-1606 | the download holds no connection and no place any more; its connection is closed, or serves a waiting download, or becomes idle, each under its exact condition, and the links of all other downloads are given |
| BackendPool.LetGoIs | Backend.cpp:341-541 | what a download's letting go leaves of vectors and links is determined by what was there before |
| BackendPool.LetGoTold | Backend.cpp:1154-1159 | whether its clients are told before or after makes no difference |
| BackendPool.Http.DetectTimeout | Http.cpp:2004-2055 | clients are told; a connection is closed but stays busy, a waiting download leaves the list |
| BackendPool.Http.ReadStatus | Http.cpp:407-421 | the connection is marked as connected and, for status 200, nothing else changes anywhere; another status ends the exchange and the download lets go |
| BackendPool.Backend.DownloadFinished | Backend.cpp:341-541 | a connection that never answered is closed; else it serves the first waiting download with clients, dropping those before it; else it is idle if open |
| BackendPool.Backend.ServePending | Backend.cpp:438-537 | exactly the waiting downloads before the first ready one are dropped, that one is linked, the others keep their places |
| BackendPool.Backend.TakeFirst | Backend.cpp:452-510 | the first waiting download leaves the list: it is linked to this connection exactly when it still has an address and clients, else it is dropped |
| BackendPool.Backend.TakeReady | Backend.cpp:450-511 | the loop stops at the first download that still has an address and clients |
| BackendPool.Backend.Park | Backend.cpp:394-436 | with nobody waiting the connection leaves busy and joins idle exactly when its socket is open |
| BackendPool.Backend.Relinquish | Backend.cpp:356-389 | the connection leaves busy; when it was the last, the clients of every waiting download are told |
| BackendPool.Backend.RemoteSocketClosed | Backend.cpp:133-339 | afterwards the connection is closed and in neither list; which download, list and registration is affected, case by case; a ready download is left waiting for no connection if and only if LossStrands held |
| BackendPool.Backend.CloseUnanswered | Backend.cpp:160-191 | the loss of the last connection before an answer aborts every other waiting download, and strands one exactly when one at an odd position was ready; the links of all others stay |
| BackendPool.Backend.CloseAnswered | Backend.cpp:192-339 | the loss of a connection that answered: busy, it hands its download over; idle, it leaves that vector and nothing else changes |
| BackendPool.Backend.HandToIdle | Backend.cpp:222-235 | the last idle connection is busy now and carries the download, all other links stay |
| BackendPool.Backend.HandOver | Backend.cpp:192-317 | a lost busy connection's download moves to the last idle connection, else to a new one; downloads are stranded exactly when this was the only connection and no new one opens |
| BackendPool.Backend.LeaveList | Backend.cpp:254-304 | a lost connection without a download leaves its list, which leaves the table exactly when nothing is left in it; no run gets here, since busy connections carry downloads |
| BackendPool.Backend.ReassignToNew | Backend.cpp:237-252 | the new connection carries the download, or links stay as they were when it does not open |
| BackendPool.Backend.DetectTimeout | Backend.cpp:1135-1165 | an expired busy connection drops its download and ends closed and in neither list; downloads are stranded exactly when it was the only one, had answered, two waiting downloads were ready and no new connection opens |
| BackendPool.Backend.Destroy | Backend.cpp:48-101 | no list and no download names the deleted connection; downloads are stranded exactly when it was the only one and one waited ready |
| BackendPool.Backend.Close | Backend.cpp:103-117 | closing leaves lists and links as they are |
| BackendPool.BackendList.AbortPending | Backend.cpp:172-184 | the loop keeps exactly the waiting downloads at odd positions, untouched, and drops the others |
| BackendPool.EveryOtherAt | Backend.cpp:172-184 | what that loop keeps, position by position: half of the list; it drops everything exactly when at most one waited |
| BackendPool.BackendList.AbortClients | Backend.cpp:369-381 | the loop tells the clients of every waiting download |
| BackendPool.BackendList.EraseBusy | Backend.cpp:358-367 | the index loop takes the connection out of busy |
| BackendPool.BackendList.ErasePending | Http.cpp:1385-1395 | the index loop takes the download out of the waiting list |
| BackendPool.Backend.DropDownload | Backend.cpp:1154-1159 | a timed-out connection's download lets go; what the loss then strands is there for the second of two ready waiting downloads |
| BackendRun.Handle | Backend.cpp:48-1165 | for every callback, from a state where no ready download waits without a connection: one does afterwards if and only if Strands held before; from a state where busy connections carry downloads, they do so afterwards, and busy, idle and waiting list and the links are what Moves says |
| BackendRun.StrandsShown | Backend.cpp:48-1165 | whether a callback strands can be read off the vectors and links that are seen between callbacks |
| BackendRun.HandleConnect | Backend.cpp:543-608 | a new download: the last idle connection, else a new one, else a place on the waiting list; no other download's links change |
| BackendRun.HandleLoss | Backend.cpp:133-339 | a lost connection: before an answer, what stays waiting and who is dropped; after one, that its download is carried by the last idle connection, by a new one or by none; and that all other links are as they were |
| BackendRun.HandleExpiry | Backend.cpp:1135-1165 | a connection that has timed out: its download is told and lets go, which serves or drops waiting ones, then it is lost: vectors and links are what the two make of them in turn; an idle one is left alone |
| BackendRun.HandleDelete | Backend.cpp:48-101 | a deleted connection: out of both vectors, forgotten by its download, all other links as they were |
| BackendRun.HandleDownload | Http.cpp:407-2055 | a download's status line, disconnect, timeout and the joining and leaving of clients: exactly the vectors and links afterwards, also of all other downloads |
| BackendRun.ConnectFirst | Backend.cpp:609-636 | the first connection of an address makes a list, which enters the table exactly when the dial succeeds |
| BackendRun.HandleOne | Backend.cpp:48-1165 | a callback on one list leaves the lists of other addresses valid and untouched, and its own in the table or out of it |
| BackendRun.Step | Backend.cpp:48-1165 | one callback of any kind keeps the whole program's lists, table, links and the numbers of its connections, and takes the snapshot before it to the one after it |
| BackendRun.EveryoneNamed | Backend.cpp:48-1165 | every busy or idle connection has a number under which closes, timeouts and deletions reach it |
| BackendRun.Run | Backend.cpp:48-1165 | any sequence of connects to any addresses, status lines, disconnects, timeouts, joins, leaves, and closes, timeouts and deletions of connections by number, from the program's start: every list ever made is valid, no two share a connection or a download, the table has exactly the registered lists; the run goes through snapshots each of which follows from the one before by its callback, and a ready download waits for nobody only if a callback of the run strands it |
| BackendRun.NobodyStranded | Backend.cpp:48-1165 | up to the first callback that strands, no list of the run is stranded, and right behind it one is |
| BackendRun.ListsStay | Backend.cpp:254-304 | in no run does an address lose its list or a connection its number |
| BackendRun.RunToRedial | Backend.cpp:237-242 | a run of five callbacks from the start that leaves a download waiting for nobody |
| BackendRun.RunToRenewed | Backend.cpp:237-252 | a run in which the first connection is lost and deleted, and a second one carries its download |
| BackendRun.StrandedUnanswered | Backend.cpp:172-191 | a reachable state in which a download with clients waits without a connection: the only one was lost before it answered, with two waiting |
| BackendRun.StrandedRedial | Backend.cpp:237-242 | another: the only one was lost after it answered, with one waiting, and the new dial failed |
| DnsTables.AddKeepsIndex | Dns.cpp:784-789 | addQuery keeps host-to-id, id-to-query and due-time tables in agreement if and only if the id is not in use |
| DnsTables.RemoveKeepsIndex | Dns.cpp:791-798 | removeQuery keeps them in agreement; another scheduled query stays scheduled if and only if it is due at another time |
| DnsTables.AddBreaks | Dns.cpp:784-789 | two hosts under one id: the tables no longer agree |
| DnsTables.RemoveUnschedules | Dns.cpp:795 | two queries of one second: with the first one removed, no bucket holds the second |
| DnsTables.CacheDrop | Dns.cpp:491-504 | taking a host out of its expiry bucket keeps cache and expiry index in agreement |
| DnsTables.CacheInsert | Dns.cpp:506-543 | a new entry in the bucket of its date keeps them in agreement |
| DnsTables.CacheReplace | Dns.cpp:485-544 | replacing an entry keeps them in agreement and adds at most one host |
| DnsTables.CacheExpire | Dns.cpp:458-471 | removing a bucket removes exactly the hosts of its date |
| DnsTables.ExpiryClamps | Dns.cpp:507-521 | the answer's time to live counts within five minutes and a day; a failure with less is kept an hour |
| DnsTables.WaitingAdd | Dns.cpp:784-789 | a new query adds its clients to those who wait |
| DnsTables.WaitingUpdate | Dns.cpp:609-634 | changing one query changes those who wait by its clients |
| DnsTables.WaitingRemove | Dns.cpp:791-798 | removing a query removes its clients from those who wait |
| DnsTables.ConservedFinish | Dns.cpp:899-911 | telling a query's clients and removing it loses and doubles nobody |
| DnsTables.ConservedUpdate | Dns.cpp:609-634 | joining and leaving a query loses and doubles nobody |
| DnsTables.ToldOnce | Dns.cpp:591-840 | a client that asked once is told once, or waits, or was cancelled, and never two of these |
| DnsTables.LeastExists | Dns.cpp:460-461 | an ordered map that is not empty has a first key |
| DnsTables.SortedKeys | Dns.cpp:870-871 | the keys in the order of the map's iterator |
| DnsTables.Dns.constructor | Dns.cpp:27-46 | empty tables agree |
| DnsTables.Dns.AddQuery | Dns.cpp:784-789 | the three tables gain the query and stay in agreement |
| DnsTables.Dns.Finish | Dns.cpp:899-911 | exactly the query's clients are told, http before https, and the query and its due-time bucket are gone |
| DnsTables.Dns.AddCacheEntry | Dns.cpp:485-544 | nothing once more than 5000 hosts are cached, else the host's entry is the new one, in the bucket of its date and in no other |
| DnsTables.Dns.CleanCache | Dns.cpp:458-471 | exactly the entries whose date has come by the last time read are gone |
| DnsTables.Dns.ExpireBucket | Dns.cpp:466-469 | exactly the hosts of one date leave the cache |
| DnsTables.Dns.Get | Dns.cpp:591-782 | join the host's query, else answer from an entry that has not expired, else send a new query unless more than 1000 are unanswered; the client is counted as asking exactly when true is returned; a new query whose id is in use is reported, exactly then |
| DnsTables.Dns.AnswerFromCache | Dns.cpp:642-692 | a hit exactly for an entry that has not expired, told once with the entry's status |
| DnsTables.Dns.SendQuery | Dns.cpp:703-781 | the next id, from 1 to 65534 and round again, gets a query with this one client |
| DnsTables.Dns.CancelClient | Dns.cpp:800-840 | one registration of the client leaves the host's query, if it is there; nothing else changes |
| DnsTables.Dns.CheckQueries | Dns.cpp:868-918 | exactly the queries scheduled up to now are sent again, five seconds later, or told an error and removed at the third time; no id read in the walk is missing |
| DnsTables.Dns.CheckBucket | Dns.cpp:876-915 | one bucket of the walk, though removals and new schedules change the index under it |
| DnsTables.Dns.Resend | Dns.cpp:880-898 | the query moves to the bucket of its new due time |
| DnsTables.Dns.Receive | Dns.cpp:218-256 | every datagram lowers the count of unanswered queries; one that cannot be read changes nothing else, any other acts as its flags and answers say, and only on its own query and that one's due-time bucket |
| DnsTables.Dns.ParseAnswers | Dns.cpp:257-453 | the flags and answers decide what is told and cached, once; a reply for an unknown query changes nothing |
| DnsTables.Dns.ReadAnswers | Dns.cpp:303-451 | the loop acts on the first decisive answer exactly as the answer list says, and reading on changes nothing |
| DnsTables.Dns.SettleBy | Dns.cpp:375-414 | an address in the included range and not the excluded one is served, any other is refused, none is an error |
| DnsRecords.Fields | Dns.cpp:303-372 | the reads of a record in network byte order give its name pointer, type, class, time to live, length and data |
| DnsRecords.AllPassed | Dns.cpp:416-433 | other records in any number, of any types, classes and contents, do not change what is read behind them |
| DnsRecords.ReplyFound | Dns.cpp:303-414 | for every list of other records followed by an AAAA record of class IN with any time to live and any address: exactly those are found |
| DnsRecords.ReplyFailed | Dns.cpp:434-451 | a reply whose answers are other records only fails |
| DnsRecords.ReplyCutOff | Dns.cpp:303-314 | a datagram that ends before its last answer says nothing |
| DnsRecords.DataCutOff | Dns.cpp:426-433 | a record whose data the datagram cuts off is passed over up to its data, which are read as the next record |
| DnsRecords.Stopped | Dns.cpp:334-349 | two records that stop the scan, whatever stands behind them: one without data, and an address record of another class with a time to live below 65536 |
| DnsRecords.GoodReply | Dns.cpp:375-414 | after such a reply every waiting client is told the address as it was sent if it is served, and that it is wrong if not, and the cache has it |
| DnsRecords.ServedMeans | Dns.cpp:24-25 | served are the addresses of 2803:1920::/32 but for 2803:1920::b4b2:5f61:d37f:* |
| DnsRecords.ToldOnSides | Dns.cpp:377-407 | a query's clients are told as often as they wait on a side, there, and all the same |
| DnsRecords.JoinedTold | Dns.cpp:610-633 | a client that joins a query is told on the side it asked on, and nobody else is told otherwise |
| DnsRecords.DepartedTold | Dns.cpp:800-840 | one that leaves is told once less there |
| DnsRecords.ToldAlone | Dns.cpp:703-781 | one that starts a query is told alone, on its side |
| DnsRecords.GivenUpThird | Dns.cpp:868-918 | a query that nobody answers is sent again the first two times it falls due and is gone the third |
| DnsRecords.SameFromCache | Dns.cpp:642-692 | a client answered from the cache is told what the reply's clients were told, with the same address |
| DnsTables.Run | Dns.cpp:190-918 | any sequence of callbacks, up to the first query actually sent under an id in use, keeps tables and cache in agreement, and tells no client twice that asked once; a live query in no bucket is never sent again or given up until a reply for it comes, and those who wait for it have been told nothing |
| DnsTables.Step | Dns.cpp:190-918 | each single callback keeps all that |
| DnsTables.CheckedForgotten | Dns.cpp:868-918 | a check of the due queries leaves alone what is in no bucket |
| DnsTables.ForgottenLookup | Dns.cpp:791-798 | from the start: two lookups in one second and the first one's reply leave the second client waiting in a query that is in no bucket |
| DnsTables.RefusedLookup | Dns.cpp:645-724 | a lookup, its refusal and a check of the due queries use up one id and leave the forgotten query alone |
| DnsTables.IdsComeRound | Dns.cpp:705-724 | from there, refused lookups until the ids have come round: the next lookup is reported to clash with the forgotten query |
| XxhsumLine.HexValue | xxHash/xxhsum.c:1804-1815 | the two digits printed for a byte stand for it |
| XxhsumLine.DisplayBigEndian | xxHash/xxhsum.c:1451-1457 | every byte as two lower-case digits, in order |
| XxhsumLine.DisplayLittleEndian | xxHash/xxhsum.c:1443-1449 | in reverse order, the wrapping index ending the loop after the first byte |
| XxhsumLine.PrintLineGnu | xxHash/xxhsum.c:1558-1578 | the GNU line of hash and name |
| XxhsumLine.PrintLineBsd | xxHash/xxhsum.c:1535-1556 | the BSD line of algorithm, name and hash |
| XxhsumLine.FromHexOfHex | xxHash/xxhsum.c:1825-1844 | reading displayed digits in the byte order they were displayed in gives the bytes back |
| XxhsumLine.EitherCase | xxHash/xxhsum.c:1804-1844 | digits of either case, each known by its place among the sixteen, are read as the bytes they show, in the byte order they were displayed in |
| XxhsumLine.HexBack | xxHash/xxhsum.c:1825-1844 | displaying what was read gives the digits back in lower case |
| XxhsumLine.RoundTripGnu | xxHash/xxhsum.c:1866-1935 | for every hash width and file name, a GNU line parsed with the flag of its byte order gives hash and name back |
| XxhsumLine.RoundTripBsd | xxHash/xxhsum.c:1866-1935 | for every hash width and file name, with spaces, parentheses or equal signs, a BSD line gives hash and name back whatever the flag |
| XxhsumLine.AcceptedForm | xxHash/xxhsum.c:1866-1935 | every accepted line has the GNU or the BSD form and, up to the case of its digits, shows the hash it was parsed to |
| XxhsumLine.AcceptedExactly | xxHash/xxhsum.c:1866-1935 | a line is accepted if and only if it is 8, 16 or 32 digits, a space, any mark but an opening parenthesis and a name, or a BSD line with such digits |
| XxhsumLine.GnuAccepted | xxHash/xxhsum.c:1866-1935 | a line of the first form is read in the flag's byte order, whatever its mark |
| XxhsumLine.BsdAccepted | xxHash/xxhsum.c:1866-1935 | a BSD line is read in the byte order that its algorithm name says, whatever the flag |
| XxhsumFile.FileRoundTrip | xxHash/xxhsum.c:1751-1797 | a file of any printed lines, both styles and all widths mixed, reads back line for line if and only if each of them, with its line feed, has fewer than 32 KB |
| XxhsumFile.FileReadsBack | xxHash/xxhsum.c:1941-2052 | exactly the lines before the first that is too long are read back, and the reader says that it gave up there |
| XxhsumFile.GetLine | xxHash/xxhsum.c:1751-1797 | from a buffer of any size: the line up to its line feed or the end of the stream with a NUL behind it, or that it has 32 KB or more, or that the stream is at its end |
| XxhsumFile.MakeSpace | xxHash/xxhsum.c:1776-1790 | the buffer grows, up to 32 KB, and what was read stays in it |
| XxhsumFile.ParseFile1 | xxHash/xxhsum.c:1941-2052 | the loop over the lines of a file, with one buffer and one struct for all of them, yields the parse of each line |
| XxhsumLine.CanonicalFromString | xxHash/xxhsum.c:1825-1844 | accepts exactly hexadecimal text and then stores its bytes, reversed on demand |
| XxhsumLine.ParseLine | xxHash/xxhsum.c:1866-1935 | on the line buffer, cut in place: accepts exactly what the text-level parser accepts, with the same hash, width and name |
| XxhsumLine.ParseBsdLine | xxHash/xxhsum.c:1877-1888 | the BSD part, with its checks on the last space |
| XxhsumLine.CutAndFill | xxHash/xxhsum.c:1881-1885 | the two NUL bytes split the line into algorithm, name and hash |
| XxhsumLine.FillHash | xxHash/xxhsum.c:1894-1934 | 8, 16 or 32 digits fill the struct, anything else leaves it empty |
| XxhsumLine.Carved | xxHash/xxhsum.c:1881-1885 | after the cuts the three C strings in the buffer are the three parts of the text |
| XxhsumLine.Strchr | xxHash/xxhsum.c:1868 | the first occurrence, none exactly when there is none |
| XxhsumLine.Strrchr | xxHash/xxhsum.c:1878 | the last occurrence |
| XxhsumLine.Strstr | xxHash/xxhsum.c:1883 | whether the word occurs |
| XxhsumLine.Canonical32Portable | xxHash/xxhash.h:1543-1553 | the canonical bytes are big endian on either machine and give the hash back on either |
| XxhsumLine.Canonical64Portable | xxHash/xxhash.h:2073-2083 | the same for 64 bits |
| XxhsumLine.Canonical128Portable | xxHash/xxhash.h:4730-4749 | the canonical form is the 128-bit number itself, big endian, its high half first, on either machine, and gives both halves back on either |
| XxhsumLine.NameTellsWidth | xxHash/xxhsum.c:1526-1529 | the number in the algorithm's name is the width in bits of the digest printed behind it |
| HttpChunk.HexLineSize | Common.cpp:67-72 | a size below 2^63 written in hexadecimal reads back |
| HttpChunk.StatedSize | Common.cpp:67-72 | for every text of hexadecimal digits of either case, followed by nothing or by any extension that starts with no digit, the size is the digits' positional value; from 2^63 on it is negative |
| HttpChunk.SignedSize | Common.cpp:67-72 | white space in front of the digits is passed over, and a sign, which if it is a minus makes the size negative |
| HttpChunk.PrefixedSize | Common.cpp:67-72 | with 0x in front, which is the one extension of a single 0 that is not passed over, the digits behind it are the size |
| HttpChunk.Http.constructor | Http.cpp:45-59 | no length known, no chunk open, end not seen |
| HttpChunk.Http.Write | Http.cpp:1741-1951 | nothing after the end or without a cache; by length, the data is appended and the end is seen exactly when the length is reached; else the chunked decoder's state |
| HttpChunk.Http.WriteChunked | Http.cpp:1781-1945 | the loop over a buffer computes the decoder's state, each pass moving on |
| HttpChunk.Http.ReadHeader | Http.cpp:1832-1904 | line breaks are passed over and the next size line is read, or kept when the buffer ends in it; the position moves on |
| HttpChunk.DecodePiece | Http.cpp:1789-1945 | a size line with its break, a whole body or a break is decoded on its own, whatever follows in the buffer |
| HttpChunk.DecodePieces | Http.cpp:1789-1945 | a buffer that ends between pieces means what its pieces mean |
| HttpChunk.BodyTaken | Http.cpp:1781-1945 | the pieces of any chunked body yield the bodies in order and then the end, whatever trails |
| HttpChunk.Deliver | Http.cpp:1741-1951 | calls of write over any grouping of pieces into buffers have the effect of the pieces |
| HttpChunk.ReceiveChunked | Http.cpp:1741-1951 | decoding inverts the chunked coding for every list of chunks and every such grouping: the cache gains exactly the bodies and the end is seen |
| HttpChunk.EncodeOk | Http.cpp:1860-1861 | bodies under hexadecimal size lines are well-formed chunks of those bodies |
| HttpChunk.WrittenOk | Http.cpp:1860-1861 | chunks whose size lines state their bodies' lengths, in digits of either case with any extensions, are well-formed chunks of those bodies |
| HttpChunk.ReceiveSent | Http.cpp:1741-1951 | all of them, and a last line that states zero, handed to write in buffers that end between pieces: the cache gains exactly the bodies and the end is seen |
| HttpChunk.CutBody | Http.cpp:1798-1818 | a body delivered in two buffers arrives whole if and only if the second part is empty; behind the first the decoder waits for a size line |
| HttpChunk.CutExample | Http.cpp:1798-1818 | "hello" delivered as "he" and "llo" is cached as "he" |
| HttpChunk.CutSizeLine | Http.cpp:1860-1870 | a size line delivered in two buffers is read without the last character of its second part; when only its break is in the second buffer, no size is read there |
| HttpCuts.CutChunk | Http.cpp:1789-1945 | a chunk in two buffers, cut behind any of its bytes: its body is in the cache when its last byte has come if and only if ArrivesCut, and the decoder is in step again if and only if InStep; the bytes behind the buffers play no part |
| HttpCuts.PlainLine | Http.cpp:1860-1870 | under a size line of plain hexadecimal digits the two conditions are one: the cut is before the chunk, between its line and its body, behind its body, or before the line's LF with a body of nothing but LF |
| HttpCuts.CutAnywhere | Http.cpp:1789-1945 | a whole delivery in two buffers, cut anywhere outside a body: the bodies arrive and the end is seen if and only if the cut survives; a kept size line with a number in it never lets the end be seen, a kept last line only when another line follows |
| HttpCuts.CutIsTimely | Http.cpp:1789-1945 | a delivery up to the end of the chunk that is cut: all bodies so far are in the cache if and only if the cut is timely |
| HttpCuts.NeverInBody | Http.cpp:1798-1818 | no cut inside a body is timely |
| HttpCuts.ReceiveInTwo | Http.cpp:1741-1951 | two calls of write: outside bodies a delivery is received if and only if the cut survives |
| HttpCuts.CutByAccident | Http.cpp:1798-1818 | an input whose first body is cut and which comes out whole all the same, by accident of its bytes |
| HttpCuts.RestLost | Http.cpp:1832-1904 | a decoder that waits for a size line never takes a text ending in CR LF for the bytes before them |
| HttpCuts.NeverEnds | Http.cpp:1860-1870 | a kept part of a size line that has a number in it spoils every later size line: none reads as the last |
| HttpCuts.WrittenGrows | Http.cpp:1798-1818 | the cache is only appended to |
| HttpManyCuts.CutsAnywhere | Http.cpp:1789-1945 | a delivery in any number of buffers that end outside bodies, at most one inside each chunk and one behind them: the bodies arrive and the end is seen if and only if each single cut is survived |
| HttpManyCuts.BuffersJoin | Http.cpp:1741-1951 | these buffers, joined, are the delivery |
| HttpManyCuts.ReceiveInMany | Http.cpp:1741-1951 | all of them handed to write: the delivery is received if and only if each cut is survived |
| HttpManyCuts.StepLost | Http.cpp:1832-1904 | after a cut in or behind a size line that is not survived, no buffers whatever behind it make the delivery whole |
| HttpManyCuts.SpoiltStays | Http.cpp:1860-1870 | with a number in the kept size line, the end is never seen, whatever buffers follow |
| HttpChunk.DecodeBound | Http.cpp:1789-1945 | a buffer adds no more bytes to the cache than it has, and fewer when a size line must be read first |

## Left out

- CandidateFilter.ProbesOf: two-probe filters of 4 to 32 bytes, for which the program shifts by a negative number; the search requires another size, or the one-probe build.
- CollisionSearch.SearchCollisions: the search starts with a positive number of hashes, which the program puts in place of 0 before; memory that cannot be had and the display of partial bit fields are not modelled.
- CollisionSearch.SearchInParallel: the jobs, which share nothing, run one after the other here, in any order; that a pool runs each of them once is what the pool's own results say.
- CollisionSearch.SortTable: one sort stands for `std::sort` and `qsort`, since every sort of a total order gives this table.
- Sampler.EnoughCombos: the binomials are exact where the program's are rounded floating-point numbers.
- Xxh3Reads.ReadOnceMatters64: the bytes of 17 to 240 that two windows cover, which are read twice under two keys; what the hash makes of them is in the values of Known64 only. The same for ReadOnceMatters128, and for the bytes that the last stripe of a longer text has in common with the one before (LongReadOnceMatters).
- Xxh64Distinct.TailByteTold: two texts that differ in a byte of a whole stripe; their lanes differ (LanesApart), but merging the lanes can bring them together.
- KnownXxh3.Known64: the other lengths and keys of the self-test; the same steps would work them out.
- DnsRecords.Stopped: an address record of another class with a time to live of 65536 seconds or more, whose remaining bytes are read as further records.
- Xxh3Stream.RunSession: texts are digested below 2^64 bytes, the largest that a one-shot call can take; a caller's secret is taken not to change between reset and digest.
- BackendRun.Run: descriptors, TLS and the bytes exchanged are outcomes that the events carry; the timer's own iteration over the vector that its callbacks change is not modelled, nor are connections that a run never saw busy, which are those whose dial failed.
- BackendRun.Handle: when a connection that is in neither vector times out once more, Moves does not say which of the downloads without a connection it still names.
- BackendPool.Backend.RemoteSocketClosed: the reset of the download's parsing state and the sending of requests have no part in the links and are not modelled.
- BackendPool.Http.DisconnectBackend: renaming and removing cache files, and the table of downloads by path.
- DnsTables.Dns.Get: the encoding of the question and its sending.
- DnsTables.Dns.Receive: the checks of sender, header and question; the last one's index wraps around at 256 and need not end.
- DnsTables.Dns.ReadAnswers: bytes behind the receive buffer's end read as zero.
- HttpCuts.CutAnywhere: for a cut inside a body, what becomes of the chunks behind it, which depends on the bytes and not on the cut.
- HttpManyCuts.CutsAnywhere: two buffers that end inside one chunk, other than between its pieces, or two behind the last chunk.
- HttpChunk.Http.Write: the effect of the end on clients and connections, which is part of the connection model; a cache that takes fewer bytes than it is given.
- XxhsumFile.GetLine: memory that cannot be had. What is done with a parsed line, the opening and hashing of its file, is not part of this model.
- ThreadPool.PoolCtx.Resize: allocation and thread creation are outcomes; that mutual exclusion holds and that a signal wakes a sleeper if there is one is the meaning of the locks.
- ThreadPool.PoolCtx.constructor: a creation that fails half way, after which there is no pool.
- ThreadPool.PoolCtx.TakeJob: the job's own effect between the two critical sections.
- The NEON and VSX kernels, prefetching and inline assembly; CPU detection.
- XXH3_generateSecret, the comparison functions, state copies, the alternative sample generator.
- Hash quality, collision statistics and benchmarks.
- The server, its clients and timers, header parsing, cache files, the command line of xxhsum.
