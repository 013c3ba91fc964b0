// A chunked body in any number of buffers: at most one of them ends inside each chunk, and which
// of these cuts the decoder of Http::write survives.
module HttpManyCuts {
  import opened Words
  import opened HttpChunk
  import opened HttpCuts

  // A chunk of a delivery: in one buffer, or with a buffer's end behind its first n bytes.
  datatype Part = Uncut(c: Chunk) | CutBehind(c: Chunk, n: nat)

  function Chunks(parts: seq<Part>): seq<Chunk> {
    if parts == [] then [] else [parts[0].c] + Chunks(parts[1..])
  }

  predicate Inside(p: Part) {
    p.CutBehind? ==> p.n < |ChunkText(p.c)|
  }

  // A chunk that is well formed and not cut inside its body.
  ghost predicate PartOk(p: Part) {
    ChunkOk(p.c) && (p.CutBehind? ==> !(|p.c.line| + 2 < p.n < |p.c.line| + 2 + |p.c.body|))
  }

  predicate PartSurvives(p: Part) {
    p.CutBehind? ==> InStep(p.c, p.n)
  }

  // The buffers: front is what the first one holds already, tail what comes behind the chunks,
  // cut once more or not.
  function Buffers(front: seq<byte>, parts: seq<Part>, tail: seq<byte>, end: nat): (r: seq<seq<byte>>)
    requires end <= |tail|
    requires forall p :: p in parts ==> Inside(p)
    ensures r != [] && front <= r[0]
    decreases |parts|
  {
    if parts == [] then [front + tail[..end]] + (if end < |tail| then [tail[end..]] else [])
    else
      assert Inside(parts[0]);
      var text := ChunkText(parts[0].c);
      match parts[0]
      case Uncut(_) => Buffers(front + text, parts[1..], tail, end)
      case CutBehind(_, n) => [front + text[..n]] + Buffers(text[n..], parts[1..], tail, end)
  }

  function Joined(buffers: seq<seq<byte>>): seq<byte> {
    if buffers == [] then [] else buffers[0] + Joined(buffers[1..])
  }

  // The buffers are a cutting of the delivery.
  lemma {:induction false} BuffersJoin(front: seq<byte>, parts: seq<Part>, last: seq<byte>, trailer: seq<Piece>, end: nat)
    requires end <= |Text([], last, trailer)|
    requires forall p :: p in parts ==> Inside(p)
    ensures Joined(Buffers(front, parts, Text([], last, trailer), end)) == front + Text(Chunks(parts), last, trailer)
    decreases |parts|
  {
    hide Text, ChunkText;
    var tail := Text([], last, trailer);
    if parts == [] {
      assert tail[..end] + tail[end..] == tail;
      var b := Buffers(front, parts, tail, end);
      assert end < |tail| ==> b[1..] == [tail[end..]] && Joined(b[1..]) == tail[end..] + [];
    } else {
      var c, rest := parts[0].c, parts[1..];
      var text, more := ChunkText(c), Text(Chunks(rest), last, trailer);
      assert Inside(parts[0]);
      assert Chunks(parts) == [c] + Chunks(rest) && Chunks(parts)[1..] == Chunks(rest);
      TextStarts(Chunks(parts), last, trailer);
      match parts[0] {
        case Uncut(_) =>
          BuffersJoin(front + text, rest, last, trailer, end);
          assert front + text + more == front + (text + more);
        case CutBehind(_, n) =>
          BuffersJoin(text[n..], rest, last, trailer, end);
          var b := Buffers(text[n..], rest, tail, end);
          assert ([front + text[..n]] + b)[1..] == b;
          assert text[..n] + text[n..] == text;
          assert (front + text[..n]) + (text[n..] + more) == front + (text + more);
      }
    }
  }

  // What the buffers make of the state, the first one from pos on.
  function DecodeAll(s: State, buffers: seq<seq<byte>>, stales: seq<byte>, pos: nat): State
    requires |stales| == |buffers|
    decreases |buffers|
  {
    if buffers == [] then s else DecodeAll(Decode(s, buffers[0], stales[0], pos), buffers[1..], stales[1..], 0)
  }

  lemma {:induction false} SpoiltStays(s: State, buffers: seq<seq<byte>>, stales: seq<byte>, pos: nat)
    requires |stales| == |buffers| && Spoilt(s)
    ensures !DecodeAll(s, buffers, stales, pos).ended
    decreases |buffers|
  {
    hide Decode, ChunkSize;
    if buffers != [] {
      NeverEnds(s, buffers[0], stales[0], pos);
      SpoiltStays(Decode(s, buffers[0], stales[0], pos), buffers[1..], stales[1..], 0);
    }
  }

  lemma {:induction false} AllGrows(s: State, buffers: seq<seq<byte>>, stales: seq<byte>, pos: nat)
    requires |stales| == |buffers|
    ensures s.written <= DecodeAll(s, buffers, stales, pos).written
    decreases |buffers|
  {
    hide Decode;
    if buffers != [] {
      WrittenGrows(s, buffers[0], stales[0], pos);
      AllGrows(Decode(s, buffers[0], stales[0], pos), buffers[1..], stales[1..], 0);
    }
  }

  lemma {:induction false} EndStays(s: State, buffers: seq<seq<byte>>, stales: seq<byte>, pos: nat)
    requires |stales| == |buffers| && s.ended
    ensures DecodeAll(s, buffers, stales, pos) == s
    decreases |buffers|
  {
    hide Decode;
    if buffers != [] {
      NothingLeft(s, buffers[0], stales[0], pos);
      EndStays(s, buffers[1..], stales[1..], 0);
    }
  }

  // A chunk that is cut where the decoder loses step, outside its body: the next buffer starts
  // with the rest of it.
  lemma StepLost(s: State, c: Chunk, n: nat, size: nat, more: seq<Chunk>, buffers: seq<seq<byte>>, stales: seq<byte>)
    requires Between(s) && ChunkOk(c) && 0 < n <= |c.line| + 1 && !InStep(c, n)
    requires |stales| == |buffers| > 0 && ChunkText(c)[n..] <= buffers[0]
    ensures !Whole(s, DecodeAll(Cut(s, c, n, size), buffers, stales, 0), [c] + more)
  {
    hide ChunkSize, Decode, DecodeAll, Bodies, Whole;
    if n < |c.line| {
      LineShortened(s, c, n, more, buffers, stales);
    } else if n == |c.line| {
      assert c.line[..n] == c.line;
      LineKept(s, c, more, buffers, stales);
    } else {
      assert ChunkText(c)[n..] == [LF] + c.body + [CR, LF];
      FeedLost(s, c, more, buffers, stales);
    }
  }

  lemma LineKept(s: State, c: Chunk, more: seq<Chunk>, buffers: seq<seq<byte>>, stales: seq<byte>)
    requires Between(s) && ChunkOk(c) && |stales| == |buffers|
    ensures !Whole(s, DecodeAll(s.(chunkHeader := c.line), buffers, stales, 0), [c] + more)
  {
    hide ChunkSize, DecodeAll, Bodies;
    SpoiltStays(s.(chunkHeader := c.line), buffers, stales, 0);
  }

  lemma LineShortened(s: State, c: Chunk, n: nat, more: seq<Chunk>, buffers: seq<seq<byte>>, stales: seq<byte>)
    requires Between(s) && ChunkOk(c) && 0 < n < |c.line|
    requires |stales| == |buffers| > 0 && ChunkText(c)[n..] <= buffers[0]
    ensures !Whole(s, DecodeAll(s.(chunkHeader := c.line[..n]), buffers, stales, 0), [c] + more)
  {
    hide ChunkSize, Decode, DecodeAll, Bodies, Whole;
    var l, rest := |c.line|, ChunkText(c)[n..];
    assert rest[..l - n + 2] == c.line[n..] + [CR, LF];
    assert buffers[0][..l - n + 2] == rest[..l - n + 2];
    LineResumed(s, buffers[0], stales[0], c.line, n);
    ShortenedLost(s, c, n, more, buffers, stales);
  }

  lemma BodiesStart(c: Chunk, more: seq<Chunk>)
    ensures Bodies([c] + more) == c.body + Bodies(more)
  {
    assert ([c] + more)[1..] == more;
  }

  lemma ShortenedLost(s: State, c: Chunk, n: nat, more: seq<Chunk>, buffers: seq<seq<byte>>, stales: seq<byte>)
    requires Between(s) && ChunkOk(c) && 0 < n < |c.line| && |stales| == |buffers| > 0
    requires var q := |c.line| - n + 2;
      Decode(s.(chunkHeader := c.line[..n]), buffers[0], stales[0], 0) == Decode(Shortened(s, c.line), buffers[0], stales[0], q)
    ensures !Whole(s, DecodeAll(s.(chunkHeader := c.line[..n]), buffers, stales, 0), [c] + more)
  {
    hide ChunkSize, Decode, Bodies;
    var v, q := Shortened(s, c.line), |c.line| - n + 2;
    BodiesStart(c, more);
    if v.ended {
      NothingLeft(v, buffers[0], stales[0], q);
      EndStays(v, buffers[1..], stales[1..], 0);
      assert |s.written + (c.body + Bodies(more))| > |s.written|;
    } else {
      NeverEnds(v, buffers[0], stales[0], q);
      SpoiltStays(Decode(v, buffers[0], stales[0], q), buffers[1..], stales[1..], 0);
    }
  }

  lemma FeedLost(s: State, c: Chunk, more: seq<Chunk>, buffers: seq<seq<byte>>, stales: seq<byte>)
    requires Between(s) && ChunkOk(c) && !AllFeeds(c.body) && |stales| == |buffers| > 0
    requires [LF] + c.body + [CR, LF] <= buffers[0]
    ensures !Whole(s, DecodeAll(s.(chunkLength := |c.body|), buffers, stales, 0), [c] + more)
  {
    hide ChunkSize, Decode, Bodies;
    var data, start := buffers[0], [LF] + c.body + [CR, LF];
    assert data == start + data[|start|..];
    CutAtFeed(s, data, stales[0], c, data[|start|..]);
    BodiesStart(c, more);
    var w := Decode(s.(chunkLength := |c.body|), data, stales[0], 0);
    AllGrows(w, buffers[1..], stales[1..], 0);
    var u := DecodeAll(w, buffers[1..], stales[1..], 0);
    WrongStart(w.written, u.written, s.written, c.body, Bodies(more));
  }

  lemma WrongStart(w: seq<byte>, u: seq<byte>, before: seq<byte>, body: seq<byte>, more: seq<byte>)
    requires w <= u && |before + body| <= |w| && w[..|before + body|] != before + body
    ensures u != before + (body + more)
  {
    var all := before + body;
    assert before + (body + more) == all + more;
    assert w[..|all|] == u[..|all|] && (all + more)[..|all|] == all;
  }

  // The last part, behind the chunks.
  lemma EndCut(s: State, front: seq<byte>, last: seq<byte>, trailer: seq<Piece>, end: nat, stales: seq<byte>)
    requires Between(s) && LastOk(last) && end <= |Text([], last, trailer)|
    requires |stales| == |Buffers(front, [], Text([], last, trailer), end)|
    ensures var u := DecodeAll(s, Buffers(front, [], Text([], last, trailer), end), stales, |front|);
      Whole(s, u, []) <==> end != |last| || LineFollows(AllBytes(trailer))
  {
    hide Decode, Text, LineFollows, ChunkSize;
    var tail := Text([], last, trailer);
    var first, second := front + tail[..end], tail[end..];
    var stale2 := if end < |tail| then stales[1] else 0;
    TextEnds(last, trailer);
    assert first[|front|..] == tail[..end];
    CutAtEnd(s, first, stales[0], |front|, second, stale2, last, AllBytes(trailer), end);
    var t, b := Decode(s, first, stales[0], |front|), Buffers(front, [], tail, end);
    NothingLeft(t, [], stale2, 0);
    assert b[0] == first && DecodeAll(s, b, stales, |front|) == DecodeAll(t, b[1..], stales[1..], 0);
    if end < |tail| {
      assert b[1..] == [second] && stales[1..][0] == stale2;
      assert DecodeAll(t, [second], stales[1..], 0) == Decode(t, second, stale2, 0);
    } else {
      assert second == [] && b[1..] == [];
    }
    assert s.written + [] == s.written;
  }

  ghost predicate AllSurvive(parts: seq<Part>, last: seq<byte>, trailer: seq<Piece>, end: nat) {
    (forall p :: p in parts ==> PartSurvives(p)) && (end != |last| || LineFollows(AllBytes(trailer)))
  }

  // Buffers that end outside bodies, at most one inside each chunk and at most one behind them:
  // the delivery is received if and only if every single one of the cuts is survived.
  lemma {:induction false} CutsAnywhere(s: State, front: seq<byte>, parts: seq<Part>, last: seq<byte>, trailer: seq<Piece>,
                                        end: nat, stales: seq<byte>)
    requires Between(s) && LastOk(last) && (forall p :: p in parts ==> Inside(p) && PartOk(p))
    requires end <= |Text([], last, trailer)|
    requires |stales| == |Buffers(front, parts, Text([], last, trailer), end)|
    ensures var u := DecodeAll(s, Buffers(front, parts, Text([], last, trailer), end), stales, |front|);
      Whole(s, u, Chunks(parts)) <==> AllSurvive(parts, last, trailer, end)
    decreases |parts|
  {
    hide Decode, Text, LineFollows, ChunkSize, InStep, Bodies, Cut;
    if parts == [] {
      EndCut(s, front, last, trailer, end, stales);
    } else {
      var p, rest := parts[0], parts[1..];
      assert p in parts && parts == [p] + rest;
      BodiesStart(p.c, Chunks(rest));
      if p.Uncut? {
        UncutGoesOn(s, front, parts, last, trailer, end, stales);
        CutsAnywhere(Done(s, p.c.body), front + ChunkText(p.c), rest, last, trailer, end, stales);
      } else {
        var text := ChunkText(p.c);
        var first, behind := front + text[..p.n], Buffers(text[p.n..], rest, Text([], last, trailer), end);
        assert first[|front|..] == text[..p.n];
        CutLeaves(s, first, stales[0], |front|, p.c, p.n);
        assert ([first] + behind)[1..] == behind;
        if PartSurvives(p) {
          CutGoesOn(s, p, |first|, behind, stales[1..]);
          CutsAnywhere(Done(s, p.c.body), text[p.n..], rest, last, trailer, end, stales[1..]);
        } else {
          OutOfStep(p);
          StepLost(s, p.c, p.n, |first|, Chunks(rest), behind, stales[1..]);
        }
      }
      assert s.written + p.c.body + Bodies(Chunks(rest)) == s.written + (p.c.body + Bodies(Chunks(rest)));
    }
  }

  lemma OutOfStep(p: Part)
    requires PartOk(p) && !PartSurvives(p)
    ensures 0 < p.n <= |p.c.line| + 1
  {
  }

  lemma UncutGoesOn(s: State, front: seq<byte>, parts: seq<Part>, last: seq<byte>, trailer: seq<Piece>,
                    end: nat, stales: seq<byte>)
    requires Between(s) && parts != [] && parts[0].Uncut? && (forall p :: p in parts ==> Inside(p) && PartOk(p))
    requires end <= |Text([], last, trailer)|
    requires |stales| == |Buffers(front, parts, Text([], last, trailer), end)|
    ensures var c, b := parts[0].c, Buffers(front, parts, Text([], last, trailer), end);
      DecodeAll(s, b, stales, |front|) == DecodeAll(Done(s, c.body), b, stales, |front + ChunkText(c)|)
  {
    hide Decode, Text, ChunkSize;
    var c, b := parts[0].c, Buffers(front, parts, Text([], last, trailer), end);
    assert parts[0] in parts;
    var text, data := ChunkText(c), b[0];
    assert front + text <= data;
    assert data[|front|..|front| + |text|] == (front + text)[|front|..] == text;
    WholeChunk(s, data, stales[0], |front|, c);
  }

  lemma CutGoesOn(s: State, p: Part, size: nat, buffers: seq<seq<byte>>, stales: seq<byte>)
    requires Between(s) && Inside(p) && PartOk(p) && p.CutBehind? && InStep(p.c, p.n)
    requires |stales| == |buffers| > 0 && ChunkText(p.c)[p.n..] <= buffers[0]
    ensures DecodeAll(Cut(s, p.c, p.n, size), buffers, stales, 0) ==
      DecodeAll(Done(s, p.c.body), buffers, stales, |ChunkText(p.c)[p.n..]|)
  {
    hide Decode, ChunkSize, Cut, InStep;
    var rest := ChunkText(p.c)[p.n..];
    assert buffers[0][..|rest|] == rest;
    Resume(s, buffers[0], stales[0], p.c, p.n, size);
  }

  // All of them handed to write in turn.
  method ReceiveInMany(http: Http, parts: seq<Part>, last: seq<byte>, trailer: seq<Piece>, end: nat, stales: seq<byte>)
    requires http.caching && http.contentsize < 0 && http.httpCode != 0
    requires Between(http.Chunked()) && LastOk(last) && (forall p :: p in parts ==> Inside(p) && PartOk(p))
    requires end <= |Text([], last, trailer)|
    requires |stales| == |Buffers([], parts, Text([], last, trailer), end)|
    modifies http
    ensures http.endDetected && http.tempCache == old(http.tempCache) + Bodies(Chunks(parts)) <==>
      AllSurvive(parts, last, trailer, end)
  {
    hide Decode, Text, Bodies, AllSurvive, PartOk, Inside, Buffers;
    var buffers := Buffers([], parts, Text([], last, trailer), end);
    ghost var s := http.Chunked();
    CutsAnywhere(s, [], parts, last, trailer, end, stales);
    var i := 0;
    while i < |buffers|
      invariant i <= |buffers| && http.caching && http.contentsize < 0 && http.httpCode != 0
      invariant DecodeAll(http.Chunked(), buffers[i..], stales[i..], 0) == DecodeAll(s, buffers, stales, 0)
    {
      assert buffers[i..][0] == buffers[i] && buffers[i..][1..] == buffers[i + 1..];
      assert stales[i..][0] == stales[i] && stales[i..][1..] == stales[i + 1..];
      if http.endDetected {
        NothingLeft(http.Chunked(), buffers[i], stales[i], 0);
      }
      var r := http.Write(buffers[i], stales[i]);
      i := i + 1;
    }
    assert buffers[i..] == [];
  }
}
